# Tagged errors, validated component state, typed events and theme rules

A Dafny model of the core of a React + Effect starter template. It covers four parts.

- **The tagged-error family.** It consists of:
  - the `TaggedError(tag)(defaults)` factory (constructor argument resolution, `make`, `toString`, `toJSON`, `data`, `update`);
  - `isTaggedError`, `inferCauseFromUnknownError`, `toSchemaParseError`, `toUnknownError` and `toKnownErrorOrConvertUnknown`;
  - the built-in error classes (`SchemaParseError`, `UnknownError`, `EventDispatchError`, `EventHandlerError`, `UnexpectedRuntimeExitResultError`) and the error-code table;
  - `handleRuntimeExitResult` and the defect handling of `manageEffect`.
- **The props and state pipeline.** `useComponentLocalStore`, `useComponentProps` and `useReactComponentInternals` validate values in three ways:
  - props are decoded against their schema, with an optional recovery callback and modifier;
  - the local store or state is decoded from an initial encoding;
  - state changes through an update cycle that patches a cached encoding and decodes it again.
- **The event wrapper.** `EmitteryEvent(tag)(options)` gives an event class whose `dispatch` validates data before publishing it and whose `handle` registers handlers. Failures are wrapped in the event error classes.
- **The theme rules.** These cover the toggle, the system-change handler and the `dark`/`light` class choice of both theme hooks, plus the boot script that settles the initial theme.

### How values are represented

- **JavaScript values.** They are a single datatype, `Values.Value`. Prototype facts are explicit fields: an instance's error marker, `_tag`, prototype name and classes, and a class value's marker and `__tag__`.
- **Schemas.** A schema is a pair of total `decode`/`encode` functions (`Values.Codec`). The struct schemas the core declares are written out in `StructSchemas`.
- **Parse issues.** A parse issue is reduced to its two formatter outputs.
- **Stateful objects.** Objects whose fields change are classes:
  - an error object with `update`;
  - the local store;
  - the component internals;
  - the event bus;
  - the theme switcher;
  - the root element's class list and `localStorage`.
- **Pure parts.** The pure rules are functions, and each has lemmas relating it to a partner: an inverse, a reference definition, or an invariant.

### Behaviour of the code worth knowing

- **The update cycle.** One might expect the cached encoding and the visible value to agree after every update cycle. Both cycles write the patched encoding to the cache *before* decoding it (src/core/react/hooks/use_component_local_store.ts:51-52), so a rejected patch leaves the visible value alone but changes the cache, and the next patch is applied to the rejected encoding. `StoreCycle.RejectedPatchBreaksConsistency` exhibits this with the counter state `{count: 1}`.
- **Recovered props.** The modifier is applied to recovered props as well as to decoded ones.

## Model

| member | source | states |
|---|---|---|
| ErrorCodes.CodeString | src/constants/error_code.ts:7-16 | each code's string value is its own name, prefixed `E_` |
| ErrorCodes.FromString | src/constants/error_code.ts:7-16 | a string reads back as a code only when it is that code's string value |
| ErrorCodes.CodeStringRoundTrip | src/constants/error_code.ts:7-16 | reading back a code's string value gives the same code |
| ErrorCodes.CodeStringHasNoBracket | src/constants/error_code.ts:7-13 | no code string contains `]`, so the `[code]` of a rendering is delimited |
| ErrorCodes.ExactlyFiveCodes | src/constants/error_code.ts:7-13 | the enumeration has exactly five distinct codes |
| ErrorCodes.MetadataTotal | src/constants/error_code.ts:26-42 | every code has a metadata entry with a non-empty message |
| ErrorCodes.Message | src/constants/error_code.ts:26-42 | the message of a code is its metadata message |
| Values.IsObject | src/core/error/utils/error_is.ts:20 | `isObject`: objects, functions and classes, never nullish, always truthy |
| Values.Truthy | src/core/error/utils/error_is.ts:30 | JavaScript truthiness: nullish values are falsy, a string is truthy iff it is non-empty |
| Values.DefaultTo | src/core/error/utils/error_cause.ts:22 | `defaultTo`: the value unless it is nullish, then the default |
| Values.Render | src/core/error/utils/error_conversion.ts:69 | `toStringUnknown`: a string renders as itself, every other value as a non-empty text |
| StructSchemas.DecodeStruct | src/errors/schema_parse_error.ts:9-12 | a struct decodes exactly the plain objects whose declared fields have their kinds, keeping the declared keys with their values and dropping the others (`Restrict`) |
| StructSchemas.DecodeStructIdempotent | src/errors/schema_parse_error.ts:9-12 | decoding what a struct decoded gives the same result |
| StructSchemas.StructCodecLawful | src/errors/schema_parse_error.ts:9-12 | a struct codec re-encodes what it decodes, and the encoding decodes back to it |
| ErrorIs.IsTaggedError | src/core/error/utils/error_is.ts:18-47 | `isTaggedError(q)(v)`: only marked objects or classes are accepted, and with no argument all of them are; the tag and class cases are the lemmas below |
| ErrorIs.Normalise | src/core/error/utils/error_is.ts:33-35 | a tag query gets the `@error/` prefix, unless it already has it |
| ErrorIs.PrimitiveNeverTagged | src/core/error/utils/error_is.ts:20 | a value that is neither an object nor a class is never a tagged error |
| ErrorIs.UnmarkedNeverTagged | src/core/error/utils/error_is.ts:22-28 | without the class-level marker every query answers no |
| ErrorIs.AnyTagIsMarker | src/core/error/utils/error_is.ts:26-30 | with no argument, exactly the marked values are accepted |
| ErrorIs.EmptyTagActsAsNoArgument | src/core/error/utils/error_is.ts:30 | the empty tag is falsy and accepts what no argument accepts |
| ErrorIs.PrefixedQueryEquivalent | src/core/error/utils/error_is.ts:32-36 | `t` and `@error/t` are the same query |
| ErrorIs.InstanceTagMatch | src/core/error/utils/error_is.ts:37-42 | a marked instance matches a tag iff its `_tag` has the prefix and its prototype name is the normalised tag |
| ErrorIs.ClassTagMatch | src/core/error/utils/error_is.ts:37-38 | a marked class matches a tag iff its `__tag__` is the normalised tag |
| ErrorIs.ClassQueryIsInstanceOf | src/core/error/utils/error_is.ts:45 | a class query is `instanceof` membership of a marked value |
| TaggedErrors.DefineErrorClass | src/core/error/factories/tagged_error.ts:321-356 | a factory class is marked and carries `@error/`+tag as `_tag`, prototype name and `__tag__` |
| TaggedErrors.FactoryPrefixesTag | src/core/error/factories/tagged_error.ts:321-354 | the three tags of a factory class are all the prefixed tag |
| TaggedErrors.InstanceMatchesOwnTag | src/core/error/factories/tagged_error.ts:353-354 | an instance of a factory class matches its unprefixed and its prefixed tag |
| TaggedErrors.ReadOptions | src/core/error/factories/tagged_error.ts:168-186 | only a plain object contributes options, and only its non-nullish `code` and `cause` |
| TaggedErrors.ReadOptionsRoundTrip | src/core/error/factories/tagged_error.ts:168-186 | an options bag written as an object reads back as the same bag |
| TaggedErrors.OptionsValueWellTyped | src/core/error/factories/tagged_error.ts:168-186 | every options bag is well typed and reads back, a `null` cause reading as absent |
| TaggedErrors.MessageOr | src/core/error/factories/tagged_error.ts:178-188 | a nullish message argument falls back to the class default |
| TaggedErrors.Construct | src/core/error/factories/tagged_error.ts:136-196 | an instance is of its class and matches its tag; it has a payload iff the first argument is object-like |
| TaggedErrors.ObjectFirstArgumentIsPayload | src/core/error/factories/tagged_error.ts:158-183 | an object-like first argument is the payload, and message and options are read from the next two |
| TaggedErrors.MessageFirstArgument | src/core/error/factories/tagged_error.ts:158-188 | otherwise there is no payload, and the message and options are the first two arguments |
| TaggedErrors.NonObjectPayloadDropsArguments | src/core/error/factories/tagged_error.ts:158-188 | a non-object payload is read as the message, and the following message and options are ignored |
| TaggedErrors.IndexOf | src/core/error/factories/tagged_error.ts:215-217 | finds the first occurrence of a character, used to read renderings back |
| TaggedErrors.ToString | src/core/error/factories/tagged_error.ts:215-217 | the rendering starts with `<tag>` and ends with the message |
| TaggedErrors.ToStringParses | src/core/error/factories/tagged_error.ts:215-217 | `<tag> [code]: message` determines the code and message: parsing inverts the rendering |
| TaggedErrors.SerializeCause | src/core/error/factories/tagged_error.ts:229-240 | an Error cause is serialised to `{name, message}` holding the cause's own name and message; other causes pass unchanged |
| TaggedErrors.Data | src/core/error/factories/tagged_error.ts:265-274 | there is no data iff there is no schema or no payload; otherwise the decoded payload, or the ParseError of a failed decode |
| TaggedErrors.ToJson | src/core/error/factories/tagged_error.ts:224-256 | `_tag`, code, message, serialised cause and re-encoded data; a failure only through the schema |
| TaggedErrors.JsonDataIsEncodedData | src/core/error/factories/tagged_error.ts:241-253 | `toJSON().data` is the encoding of what `data()` yields, and undefined exactly when it yields none |
| TaggedErrors.Updated | src/core/error/factories/tagged_error.ts:285-291 | `update` is a no-op without schema, payload or updater; otherwise it patches the payload and nothing else |
| TaggedErrors.ErrorObject.constructor | src/core/error/factories/tagged_error.ts:136-196 | the new object's state is the resolved construction |
| TaggedErrors.ErrorObject.Update | src/core/error/factories/tagged_error.ts:285-291 | the object's new state is the updated old state |
| TaggedErrors.Make | src/core/error/factories/tagged_error.ts:336-351 | an object-like `data` option becomes the payload, otherwise none; message, code and cause come from the options |
| ErrorCause.InferCause | src/core/error/utils/error_cause.ts:18-32 | no cause iff the value is neither an Error nor a tagged error; a tagged error gives its cause or itself; another Error gives itself or an Error-typed cause |
| ErrorCause.PlainErrorCause | src/core/error/utils/error_cause.ts:24-29 | a plain Error gives its own cause when that reports as an Error, and itself otherwise |
| ErrorCause.TaggedErrorCause | src/core/error/utils/error_cause.ts:20-23 | a tagged error without a cause is its own cause; with one, the cause is passed through |
| ErrorCause.UntaggedCauseIsError | src/core/error/utils/error_cause.ts:24-30 | for an untagged value the inferred cause is absent or an Error |
| SchemaParseErrors.New | src/errors/schema_parse_error.ts:21-27 | payload `{issue: tree, data}`, the issue kept, the code, message and cause from the arguments, and matching its class and tag |
| SchemaParseErrors.FromParseError | src/errors/schema_parse_error.ts:48-50 | the parse error becomes the cause and its issue the issue |
| SchemaParseErrors.ToString | src/errors/schema_parse_error.ts:29-31 | the base rendering, a newline, then the tree rendering of the issue |
| SchemaParseErrors.ToStringParses | src/errors/schema_parse_error.ts:29-31 | the rendering reads back with the tree rendering as the message's second line |
| SchemaParseErrors.ToJson | src/errors/schema_parse_error.ts:33-38 | the base JSON plus `issue`, the array rendering |
| SchemaParseErrors.PayloadDecodes | src/errors/schema_parse_error.ts:9-12 | a payload `{issue, data}` fits the schema and decodes to itself |
| SchemaParseErrors.NewSerialises | src/errors/schema_parse_error.ts:6-38 | a new SchemaParseError always serialises, and its data is its payload |
| SchemaParseErrors.ToSchemaParseError | src/core/error/utils/error_conversion.ts:18-29 | a ParseError failure becomes a SchemaParseError with the given message and data; everything else passes through |
| SchemaParseErrors.SchemaFailureBecomesSchemaParseError | src/core/error/utils/error_conversion.ts:18-29 | a schema failure ends as a SchemaParseError about its issue, caused by the ParseError |
| UnknownErrors.New | src/errors/unknown_error.ts:10-24 | no schema and no payload; code, message and cause from the options; the `data` option kept aside |
| UnknownErrors.Data | src/errors/unknown_error.ts:30-42 | never fails; yields the `data` option iff it is an object |
| UnknownErrors.DataIsNotPayload | src/errors/unknown_error.ts:14-24 | `update` is a no-op, the base `data()` yields none, and `toJSON().data` is undefined |
| ErrorConversion.ToUnknownError | src/core/error/utils/error_conversion.ts:37-76 | a tagged error keeps its message and code unless others are given, and its data defaults to `{}`; otherwise the given ones apply and the cause is the inferred one or a new Error with the value's string form |
| ErrorConversion.FromTagged | src/core/error/utils/error_conversion.ts:48-62 | the tagged branch: inferred cause, message and code defaulting to the error's own, data defaulting to `{}` |
| ErrorConversion.FromUntagged | src/core/error/utils/error_conversion.ts:63-74 | the other branch: the cause is an Error, either the inferred cause or the value's string form |
| ErrorConversion.ConvertedTaggedErrorHasData | src/core/error/utils/error_conversion.ts:48-62 | a converted tagged error's `data()` yields the data, or `{}` |
| ErrorConversion.ToKnown | src/core/error/utils/error_conversion.ts:85-94 | the result is always a tagged error: the error itself, a SchemaParseError caused by a ParseError, or an UnknownError |
| ErrorConversion.ToKnownIdempotent | src/core/error/utils/error_conversion.ts:85-94 | converting twice is converting once |
| ErrorConversion.ToKnownClass | src/core/error/utils/error_conversion.ts:85-94 | an untagged value becomes a SchemaParseError iff it is a ParseError, else an UnknownError |
| EventErrors.FromUnknownError | src/core/event/errors/event_dispatch_error.ts:26-43 | the data is the payload and the cause is inferred from the error |
| EventErrors.DispatchFromUnknownError | src/core/event/errors/event_dispatch_error.ts:13-43 | an EventDispatchError with code and message defaulting to `E_EVENT_DISPATCH` and its metadata |
| EventErrors.HandlerFromUnknownError | src/core/event/errors/event_handler_error.ts:8-42 | an EventHandlerError with code and message defaulting to `E_EVENT_HANDLER` and its metadata |
| EventErrors.FromUnknownErrorData | src/core/event/errors/event_dispatch_error.ts:8-17 | `data()` succeeds iff the payload fits the class's struct, and then yields it without undeclared keys |
| EventErrors.DispatchPayloadFits | src/core/event/errors/event_dispatch_error.ts:8-11 | `{event, data}` always fits the dispatch schema and is kept whole |
| EventErrors.HandlerPayloadFits | src/core/event/errors/event_handler_error.ts:11-15 | `{event, handler}` always fits the handler schema and is kept whole |
| RuntimeExecution.UnexpectedExit | src/errors/unexpected_runtime_exit_result_error.ts:5-15 | payload `{result: exit}`, with the class's code and message |
| RuntimeExecution.UnexpectedExitData | src/errors/unexpected_runtime_exit_result_error.ts:8-14 | its `data()` gives back the exit |
| RuntimeExecution.HandleRuntimeExitResult | src/core/runtime/runtime_execution.ts:45-59 | returns iff the exit succeeded; a failure throws its error, a defect its known form, and any other exit an UnexpectedRuntimeExitResultError |
| RuntimeExecution.ThrownIsTaggedUnlessFailure | src/core/runtime/runtime_execution.ts:45-59 | everything thrown, except a failure's own error, is a tagged error |
| RuntimeExecution.ManageEffect | src/core/runtime/runtime_execution.ts:120 | no defect survives; a defect becomes a failure with its known form |
| RuntimeExecution.ManagedOutcomeAgrees | src/core/runtime/runtime_execution.ts:45-121 | managing the effect first does not change what the exit handler returns or throws |
| RuntimeExecution.LoggedError | src/core/runtime/runtime_execution.ts:77-115 | the logged error is always tagged: the tapped error itself, or its known form |
| StoreCycle.PatchBase | src/core/react/hooks/use_component_local_store.ts:44-49 | the patch starts from an encoding of the visible value when nothing is cached; a consistent cache is used as it is and decodes to the visible value |
| StoreCycle.UpdateCycle | src/core/react/hooks/use_component_local_store.ts:41-56 | inactive changes nothing; success leaves a cache decoding to the visible value; failure keeps the visible value and is a SchemaParseError with it as data |
| StoreCycle.AcceptedPatch | src/core/react/hooks/use_component_local_store.ts:43-56 | an accepted patch sets cache and visible value consistently |
| StoreCycle.RejectedPatchKeepsRejectedEncoding | src/core/react/hooks/use_component_local_store.ts:50-53 | a rejected patch keeps the visible value but caches the rejected encoding |
| StoreCycle.EncodeFailureChangesNothing | src/core/react/hooks/use_component_local_store.ts:44-47 | an unencodable visible value changes nothing and fails with the encode message |
| StoreCycle.RejectedPatchBreaksConsistency | src/core/react/hooks/use_component_local_store.ts:50-53 | from a consistent `{count: 1}`, one rejected patch leaves a cache that no longer decodes to the visible value |
| LocalStores.InitialStore | src/core/react/hooks/use_component_local_store.ts:28-36 | nothing without options; otherwise the decoded initial value, or a SchemaParseError about it |
| LocalStores.LocalStore.constructor | src/core/react/hooks/use_component_local_store.ts:23-36 | cache and store start consistent: the initial encoding and its decoding |
| LocalStores.LocalStore.UpdateStore | src/core/react/hooks/use_component_local_store.ts:38-59 | the new cache, store and failure are one update cycle of the old ones |
| ComponentProps.ApplyModifier | src/core/react/hooks/use_component_props.ts:83-84 | a missing modifier is the identity |
| ComponentProps.DecodeProps | src/core/react/hooks/use_component_props.ts:62-84 | decoded props, modified; on failure the recovery's value, modified, or the SchemaParseError |
| ComponentProps.RecoveryOnlyOnFailure | src/core/react/hooks/use_component_props.ts:68-79 | recovery is consulted only when decoding fails |
| ComponentProps.DecliningRecoveryIsNoRecovery | src/core/react/hooks/use_component_props.ts:69-75 | a callback that always declines acts as no callback |
| ComponentProps.IdentityIsDefaultModifier | src/core/react/hooks/use_component_props.ts:83 | no modifier and the identity modifier give the same props |
| ComponentProps.FailureIsSchemaParseError | src/core/react/hooks/use_component_props.ts:63-79 | every failure is a SchemaParseError about the decode issue, with the given data |
| ComponentProps.Get | src/core/react/hooks/use_component_props.ts:89-99 | the proxy gives the state for its key, the update function for `update`, else undefined |
| ComponentProps.AttachStore | src/core/react/hooks/use_component_props.ts:86-102 | the `store` view is attached iff a store with a truthy state is given |
| ComponentProps.UseComponentProps | src/core/react/hooks/use_component_props.ts:60-105 | fails iff decoding fails, with the raw props as the data; otherwise the view is attached to the decoded props |
| ComponentInternals.InternalsProps | src/core/react/hooks/use_react_component_internals.ts:36-62 | decoded and modified props; on a decode failure, `onSchemaParseError`'s `Some(v)` gives `v` modified, and its `None` or no callback fails with the SchemaParseError, which carries the props option object as data |
| ComponentInternals.InitialEncoded | src/core/react/hooks/use_react_component_internals.ts:64-68 | no state gives none, a function state gives `initial(props)`, otherwise `initial` |
| ComponentInternals.LazyState | src/core/react/hooks/use_react_component_internals.ts:70-78 | undefined without state or encoding; otherwise the decoding, or a SchemaParseError about it |
| ComponentInternals.LazyStateConsistent | src/core/react/hooks/use_react_component_internals.ts:70-78 | the lazy state is consistent with its cache |
| ComponentInternals.Internals.constructor | src/core/react/hooks/use_react_component_internals.ts:36-80 | props, initial encoding and lazy state as mounted |
| ComponentInternals.Internals.UpdateLocalState | src/core/react/hooks/use_react_component_internals.ts:82-107 | the new cache, state and failure are one update cycle of the old ones |
| ComponentInternals.Internals.ComposedProps | src/core/react/hooks/use_react_component_internals.ts:109-131 | the `state` view is attached iff there are state options and a truthy local state |
| EventBus.DeliveriesOf | src/core/event/factories/emittery_event.ts:73-74 | one delivery per listener, in registration order, each of the emitted event and data |
| EventBus.FirstRejection | src/core/event/factories/emittery_event.ts:73-74 | none iff no listener rejects; otherwise the rejection of the first listener that rejects |
| EventBus.Without | src/core/event/factories/emittery_event.ts:103-105 | exactly the listeners whose token differs from the given one |
| EventBus.WithoutFresh | src/core/event/factories/emittery_event.ts:99-107 | unsubscribing a freshly registered listener restores the listeners |
| EventBus.Bus.On | src/core/event/factories/emittery_event.ts:99 | appends a listener with a fresh token and returns the token |
| EventBus.Bus.Off | src/core/event/factories/emittery_event.ts:103-105 | removes the listener with the token |
| EventBus.Bus.Emit | src/core/event/factories/emittery_event.ts:73-74 | calls every listener in order and fails with the first rejection |
| EventBus.OnThenOff | src/core/event/factories/emittery_event.ts:99-107 | registering and unsubscribing leaves the listeners as they were |
| EmitteryEvents.EventData | src/core/event/factories/emittery_event.ts:59-69 | undefined is published undecoded; other data is decoded, a failure being a SchemaParseError with the raw data |
| EmitteryEvents.DispatchFailure | src/core/event/factories/emittery_event.ts:71-83 | an EventDispatchError with payload `{event, data}` and the dispatch message |
| EmitteryEvents.ResolveOptions | src/core/event/factories/emittery_event.ts:92-95 | a missing id is the fresh one, and `once` defaults to false |
| EmitteryEvents.HandleFailure | src/core/event/factories/emittery_event.ts:109-115 | an EventHandlerError naming the event and the handler |
| EmitteryEvents.EmitteryEvent.constructor | src/core/event/factories/emittery_event.ts:31-48 | tag `@event/`+name, schema defaulting to `Schema.Never`, bus defaulting to the global one |
| EmitteryEvents.EmitteryEvent.Dispatch | src/core/event/factories/emittery_event.ts:55-85 | a decode failure publishes nothing; otherwise the decoded data reaches every listener, and a rejection is wrapped |
| EmitteryEvents.EmitteryEvent.Handle | src/core/event/factories/emittery_event.ts:87-118 | registers the handler and returns its token, or wraps a registration error |
| EmitteryEvents.UndefinedSkipsDecoding | src/core/event/factories/emittery_event.ts:60-61 | undefined data is published whatever the schema |
| EmitteryEvents.DefaultSchemaRejectsData | src/core/event/factories/emittery_event.ts:39 | with the default schema, all defined data is rejected |
| EmitteryEvents.PublishesDecodedValue | src/core/event/factories/emittery_event.ts:63-74 | the decoded value is published: the counter broadcast loses its undeclared key |
| EmitteryEvents.HandlerName | src/core/event/factories/emittery_event.ts:112 | the handler's name, or `[anonymous]` when it has none; never empty |
| EmitteryEvents.HandlerLabel | src/core/event/factories/emittery_event.ts:114 | the handler's name, else the id, else `[anonymous]`; never empty |
| EmitteryEvents.AnonymousHandlerNamed | src/core/event/factories/emittery_event.ts:112-114 | an unnamed handler is named `[anonymous]`, and the message uses the id when there is one |
| ThemeRules.DarkClass | src/core/theme/hooks/use_theme_switcher.ts:35-38 | the `dark` class is on only for `dark` or `system`, and for `system` iff dark is preferred |
| ThemeRules.LightClass | src/core/theme/hooks/use_theme_switcher.ts:39-42 | the `light` class is on only for `light` or `system`, and for `system` iff light is preferred |
| ThemeRules.Toggle | src/core/theme/hooks/use_theme_switcher.ts:23-29 | never `system`; light and dark swap; from `system`, the opposite of the preference |
| ThemeRules.SystemTheme | src/core/theme/hooks/use_theme_switcher.ts:11-14 | dark iff the event matches, and never `system` |
| ThemeRules.ToggleFlipsDarkClass | src/core/theme/hooks/use_theme_switcher.ts:23-38 | toggling a known theme always flips the `dark` class |
| ThemeRules.ToggleTwice | src/core/theme/hooks/use_theme_switcher.ts:23-29 | toggling light or dark twice is the identity, and never returns to `system` |
| ThemeRules.UnknownThemeShowsNoClass | src/core/theme/hooks/use_theme_switcher.ts:23-42 | an unknown theme shows no class and toggles to light |
| ThemeRules.SystemChangeShowsEvent | src/core/theme/hooks/use_theme_switcher.ts:11-14 | after a system change the classes follow the event |
| ThemeRules.BothClassesOnlyForSystem | src/core/theme/hooks/use_theme_switcher.ts:35-42 | both classes are on iff the theme is `system` and both preferences are reported |
| ThemeRules.PreferredTheme | src/assets/scripts/theme.ts:9 | dark iff dark is preferred, light iff only light is, else `system` |
| ThemeRules.PreferredThemeShowsPreference | src/assets/scripts/theme.ts:6-22 | the preferred theme shows `dark` iff dark is preferred, and `light` iff only light is |
| ThemeDom.Toggled | src/assets/scripts/theme.ts:14-17 | `toggle(name, force)` leaves the class present iff `force`, others untouched |
| ThemeDom.ClassList.Toggle | src/assets/scripts/theme.ts:14-22 | the class list after a toggle |
| ThemeDom.Storage.GetItem | src/assets/scripts/theme.ts:4 | the item under a key, if present |
| ThemeDom.Storage.SetItem | src/assets/scripts/theme.ts:10 | the item under the key is replaced |
| ThemeDom.Stringify | src/assets/scripts/theme.ts:10 | `JSON.stringify` of a string: the string between double quotes |
| ThemeDom.Parse | src/assets/scripts/theme.ts:4 | `JSON.parse`: `null` exactly for the text `null`, and a string only from a quoted text |
| ThemeDom.ParseStringify | src/assets/scripts/theme.ts:4-10 | a stringified theme parses back to itself |
| ThemeSwitchers.ThemeSwitcher.constructor | src/hooks/use_theme_switcher.ts:18-25 | the atom starts at the stored theme, or `system` |
| ThemeSwitchers.ThemeSwitcher.SetTheme | src/hooks/use_theme_switcher.ts:18-28 | the atom takes the theme and persists it |
| ThemeSwitchers.ThemeSwitcher.ToggleTheme | src/hooks/use_theme_switcher.ts:42-51 | the new theme is the toggle of the old one, never `system`, flipping the `dark` class |
| ThemeSwitchers.ThemeSwitcher.HandleSystemThemeChange | src/hooks/use_theme_switcher.ts:31-34 | the theme becomes what the event reports |
| ThemeSwitchers.ThemeSwitcher.ApplyClasses | src/hooks/use_theme_switcher.ts:53-62 | the root carries `dark` and `light` exactly as the class rules say |
| ThemeBoot.StoredTheme | src/assets/scripts/theme.ts:4 | a missing or empty item is undefined, otherwise parsed |
| ThemeBoot.InitialTheme | src/assets/scripts/theme.ts:4-12 | the stored theme as it is, or the preferred theme when nothing or `null` is stored |
| ThemeBoot.Boot | src/assets/scripts/theme.ts:4-22 | settles the initial theme, writes back a resolved default only, and sets both classes |
| ThemeBoot.FirstVisitShowsPreference | src/assets/scripts/theme.ts:6-22 | on a first visit the classes show the preference |
| ThemeBoot.StoredDefaultSticks | src/assets/scripts/theme.ts:4-11 | the written default is read back on the next boot, whatever the preferences are then |
| ThemeBoot.StoredThemeAgreesWithHooks | src/assets/scripts/theme.ts:4-22 | a theme stored by the hooks is taken as it is, and the boot classes agree with the hooks' rules |

## Left out

- Stack traces (`stack`, `Error.captureStackTrace`) and every `console.error` call: the model records what would be logged (`RuntimeExecution.LoggedError`), not the output.
- Asynchrony:
  - Effect scheduling, `runPromise`/`runSync`/`runFork` and React memoisation are not modelled;
  - each hook operation is one synchronous step, so two overlapping update cycles cannot race in the model.
- React, jotai, the DOM, `localStorage` and `matchMedia` appear only as the state they hold. The colour-scheme preferences are boolean parameters, assumed not to change during one step.
- `withoutTransition` around the core hook's class effect is left out, because it only affects CSS transitions.
- Error objects are values, except for `TaggedErrors.ErrorObject`. Other code constructs and then updates errors as values (`SchemaParseErrors.New`), so aliasing of a shared error object is not modelled.
- Composite Effect causes (sequential, parallel) are left out; a cause is a failure, a defect, an interruption or empty.
- `Values.Num`: numbers are integers; fractions, `NaN` and the infinities are not modelled, so `defaultTo`'s `NaN` fallback (src/core/error/utils/error_cause.ts:22 and 28, src/core/error/utils/error_conversion.ts:54-69, src/errors/unknown_error.ts:23) never applies, and `Values.Render` renders integers only.
- `Values.Render`: objects get a fixed placeholder instead of `Inspectable.toStringUnknown`'s JSON rendering.
- `Inspectable.toJSON` and `cloneDeep` are the identity on values.
- Parse issues: the issue texts of the tree and array formatters are abstracted, and so are the issue texts of `Schema.Struct`, `Schema.Object` and `Schema.Never`.
- `ThemeDom.Parse` covers `null`, quoted strings and everything else. String escapes are not modelled. Invalid JSON, which makes the boot script throw, is treated like any non-theme value (no class set).
- `ThemeSwitchers.ThemeSwitcher.constructor` takes the value jotai reads from storage as a parameter; jotai's own parsing is not modelled.
- `EmitteryEvents.EmitteryEvent.Handle`: the library's `on` is modelled as never throwing, so a registration error is a parameter. The handler's run is abstracted to the rejection it produces. The unsubscribe function passed to the handler is not modelled.
- `EventBus.Bus.Emit`: the emitter runs listeners concurrently and fails with whichever rejects first in time; the model calls them in order and fails with the first in registration order.
- `useEvent` (a React effect that registers on mount and unsubscribes on unmount) is not modelled; `EventBus.OnThenOff` states the register-then-unsubscribe round trip it relies on.
- The `once` option of `handle` is resolved and never read by the code, so it has no effect in the model either.
- `ComponentInternals.InternalsProps`: the props option object that a failure carries as data is reduced to its `value` field; its schema and callbacks are not values of the model.
- `LocalStores.LocalStore.constructor` and `ComponentInternals.Internals.constructor` require the initial decoding to succeed: when it fails, the source throws during rendering and no component exists.
- Type-level helpers (`Brand`, the constructor parameter types, `Symbol.toStringTag` getters) are left out; they have no run-time behaviour beyond what the markers already model.
