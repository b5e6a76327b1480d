/**
 * The browser surfaces the theme code writes to, reduced to their state: the root element's
 * class list, `localStorage`, and the JSON texts the theme is stored as.
 */
module ThemeDom {
  import opened Wrappers

  /** The key the theme is stored under. */
  const ThemeStorageKey: string := "app-theme"

  /** `classList` with `toggle(name, force)`. */
  function Toggled(classes: set<string>, name: string, force: bool): (r: set<string>)
    ensures name in r <==> force
    ensures forall c :: c != name ==> (c in r <==> c in classes)
  {
    if force then classes + {name} else classes - {name}
  }

  class ClassList {
    var classes: set<string>

    constructor (classes: set<string>)
      ensures this.classes == classes
    {
      this.classes := classes;
    }

    /** `classList.toggle(name, force)`: the class is present afterwards exactly when `force` holds. */
    method Toggle(name: string, force: bool)
      modifies this
      ensures classes == Toggled(old(classes), name, force)
    {
      classes := Toggled(classes, name, force);
    }
  }

  /** `localStorage`, as its map from keys to texts. */
  class Storage {
    var items: map<string, string>

    constructor (items: map<string, string>)
      ensures this.items == items
    {
      this.items := items;
    }

    function GetItem(key: string): (r: Option<string>)
      reads this
      ensures r.Some? <==> key in items
      ensures r.Some? ==> r.value == items[key]
    {
      if key in items then Some(items[key]) else None
    }

    method SetItem(key: string, value: string)
      modifies this
      ensures items == old(items)[key := value]
    {
      items := items[key := value];
    }
  }

  /** What `JSON.parse` makes of a stored text, as far as the theme code can tell apart. */
  datatype Json = JNull | JString(s: string) | JOther

  /** `JSON.stringify` of a string; escaping is not modelled, and `Parse` does not unescape. */
  function Stringify(s: string): (r: string)
    ensures |r| == |s| + 2 && r[0] == '"' && r[|r| - 1] == '"' && r[1..|r| - 1] == s
  {
    "\"" + s + "\""
  }

  /** `JSON.parse`: `null`, a quoted string, or some other value. */
  function Parse(text: string): (r: Json)
    ensures r.JNull? <==> text == "null"
    ensures r.JString? ==> text == "\"" + r.s + "\""
  {
    if text == "null" then JNull
    else if |text| >= 2 && text[0] == '"' && text[|text| - 1] == '"' then JString(text[1..|text| - 1])
    else JOther
  }

  /** A stringified string parses back to itself. */
  lemma ParseStringify(s: string)
    ensures Parse(Stringify(s)) == JString(s)
  {
    var t := Stringify(s);
    assert t != "null" by {
      assert t[0] == '"';
    }
    assert t[1..|t| - 1] == s;
  }
}
