/**
 * A sequential event bus standing in for the emitter the events publish on: listeners per
 * event name in registration order, a log of deliveries, and registration tokens.
 */
module EventBus {
  import opened Wrappers
  import opened Values

  /** A handler: its function name, and the rejection its run produces for given data, if any. */
  datatype Handler = Handler(name: string, reject: Value -> Option<Value>)

  /** A registered listener and its registration token. */
  datatype Listener = Listener(token: nat, handler: Handler)

  /** One call of a listener with event data. */
  datatype Delivery = Delivery(event: string, token: nat, data: Value)

  /** The calls an emit makes: every listener, in registration order. */
  function DeliveriesOf(ls: seq<Listener>, event: string, data: Value): (ds: seq<Delivery>)
    ensures |ds| == |ls|
    ensures forall k :: 0 <= k < |ls| ==> ds[k] == Delivery(event, ls[k].token, data)
  {
    if |ls| == 0 then [] else DeliveriesOf(ls[..|ls| - 1], event, data) + [Delivery(event, ls[|ls| - 1].token, data)]
  }

  /** The rejection an emit fails with: that of the first listener, in order, that rejects. */
  function FirstRejection(ls: seq<Listener>, data: Value): (r: Option<Value>)
    ensures r.None? <==> forall k :: 0 <= k < |ls| ==> ls[k].handler.reject(data).None?
    ensures r.Some? ==>
      exists k :: 0 <= k < |ls| && ls[k].handler.reject(data) == r && (forall j :: 0 <= j < k ==> ls[j].handler.reject(data).None?)
  {
    if |ls| == 0 then None
    else
      var init := ls[..|ls| - 1];
      var f := FirstRejection(init, data);
      if f.Some? then
        ghost var k :| 0 <= k < |init| && init[k].handler.reject(data) == f && (forall j :: 0 <= j < k ==> init[j].handler.reject(data).None?);
        assert ls[k] == init[k];
        f
      else
        assert forall j :: 0 <= j < |ls| - 1 ==> ls[j] == init[j];
        ls[|ls| - 1].handler.reject(data)
  }

  /** The listeners left after unsubscribing `token`. */
  function Without(ls: seq<Listener>, token: nat): (r: seq<Listener>)
    ensures forall k :: 0 <= k < |r| ==> r[k].token != token
    ensures forall k :: 0 <= k < |r| ==> r[k] in ls
    ensures forall k :: 0 <= k < |ls| && ls[k].token != token ==> ls[k] in r
  {
    if |ls| == 0 then []
    else if ls[0].token == token then Without(ls[1..], token)
    else [ls[0]] + Without(ls[1..], token)
  }

  /** Unsubscribing a listener just registered, with a fresh token, gives back the listeners before. */
  lemma {:induction false} WithoutFresh(ls: seq<Listener>, l: Listener)
    requires forall k :: 0 <= k < |ls| ==> ls[k].token != l.token
    ensures Without(ls + [l], l.token) == ls
  {
    if |ls| == 0 {
      assert ls + [l] == [l];
      assert [l][1..] == [];
    } else {
      assert (ls + [l])[1..] == ls[1..] + [l];
      WithoutFresh(ls[1..], l);
    }
  }

  class Bus {
    var listeners: map<string, seq<Listener>>
    var deliveries: seq<Delivery>
    var nextToken: nat

    /** Every token handed out so far is below `nextToken`. */
    predicate Valid()
      reads this
    {
      forall e, k :: e in listeners && 0 <= k < |listeners[e]| ==> listeners[e][k].token < nextToken
    }

    /** The listeners of an event. */
    function Registered(event: string): seq<Listener>
      reads this
    {
      if event in listeners then listeners[event] else []
    }

    constructor ()
      ensures Valid() && listeners == map[] && deliveries == [] && nextToken == 0
    {
      listeners := map[];
      deliveries := [];
      nextToken := 0;
    }

    /** `on(event, handler)`: appends a listener with a fresh token and returns the token. */
    method On(event: string, handler: Handler) returns (token: nat)
      requires Valid()
      modifies this
      ensures Valid()
      ensures token == old(nextToken) && nextToken == old(nextToken) + 1
      ensures listeners == old(listeners)[event := old(Registered(event)) + [Listener(token, handler)]]
      ensures deliveries == old(deliveries)
    {
      token := nextToken;
      listeners := listeners[event := Registered(event) + [Listener(token, handler)]];
      nextToken := nextToken + 1;
    }

    /** The unsubscribe function of a registration: drops the listener with `token`. */
    method Off(event: string, token: nat)
      requires Valid()
      modifies this
      ensures Valid()
      ensures listeners == old(listeners)[event := Without(old(Registered(event)), token)]
      ensures deliveries == old(deliveries) && nextToken == old(nextToken)
    {
      var before := Registered(event);
      listeners := listeners[event := Without(before, token)];
      assert forall k :: 0 <= k < |listeners[event]| ==> listeners[event][k] in before;
    }

    /**
     * `emit(event, data)`: calls every listener of the event in order with the data; the emit
     * fails with the first rejection.
     */
    method Emit(event: string, data: Value) returns (failure: Option<Value>)
      modifies this
      ensures deliveries == old(deliveries) + DeliveriesOf(old(Registered(event)), event, data)
      ensures failure == FirstRejection(old(Registered(event)), data)
      ensures listeners == old(listeners) && nextToken == old(nextToken)
    {
      var ls := Registered(event);
      var i := 0;
      failure := None;
      while i < |ls|
        invariant 0 <= i <= |ls|
        invariant deliveries == old(deliveries) + DeliveriesOf(ls[..i], event, data)
        invariant failure == FirstRejection(ls[..i], data)
        invariant listeners == old(listeners) && nextToken == old(nextToken)
      {
        assert ls[..i + 1][..i] == ls[..i];
        deliveries := deliveries + [Delivery(event, ls[i].token, data)];
        if failure.None? {
          failure := ls[i].handler.reject(data);
        }
        i := i + 1;
      }
      assert ls[..i] == ls;
    }
  }

  /** Registering and then unsubscribing with the returned token leaves the event's listeners as they were. */
  method OnThenOff(bus: Bus, event: string, handler: Handler)
    requires bus.Valid()
    modifies bus
    ensures bus.Valid()
    ensures bus.Registered(event) == old(bus.Registered(event))
    ensures bus.deliveries == old(bus.deliveries)
  {
    var before := bus.Registered(event);
    var token := bus.On(event, handler);
    assert forall k :: 0 <= k < |before| ==> before[k].token != token;
    bus.Off(event, token);
    WithoutFresh(before, Listener(token, handler));
  }
}
