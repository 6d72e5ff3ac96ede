/** The event registry: a table from event id to the ordered list of the
    callbacks registered for it, and the dispatch of an event to them. The
    callbacks are not run; each call dispatch makes is recorded, in order,
    in a log. */
module Events {

  /** A callback, told apart from the others by its identity. */
  type CallbackId = nat

  /** The value stored under an event id: a list, or `null`. A missing key
      reads `undefined`. Event ids are property keys, so they are strings. */
  datatype Entry = Null | List(callbacks: seq<CallbackId>)

  /** The property names every object inherits from `Object.prototype`.
      Reading one of them from the table gives a function (or, for
      `__proto__`, the prototype itself), which is neither `undefined` nor
      `null` and has no `push`. */
  const InheritedKeys: set<string> :=
    {"constructor", "__defineGetter__", "__defineSetter__", "hasOwnProperty", "__lookupGetter__",
     "__lookupSetter__", "isPrototypeOf", "propertyIsEnumerable", "toString", "valueOf",
     "__proto__", "toLocaleString"}

  /** A table `register` can build: no inherited name is an own key. */
  predicate NoInheritedKeys(events: map<string, Entry>) {
    forall k :: k in events ==> k !in InheritedKeys
  }

  /** One call of a callback with the dispatched data. */
  datatype Call<Data> = Call(callback: CallbackId, data: Data)

  /** The callbacks dispatch would call for id: the stored list, or none
      when the id is missing or its entry is `null`. */
  function Listeners(events: map<string, Entry>, id: string): seq<CallbackId> {
    if id in events && events[id].List? then events[id].callbacks else []
  }

  /** The table after a `register(id, callback)` that returns normally. */
  function Registered(events: map<string, Entry>, id: string, callback: CallbackId): map<string, Entry> {
    events[id := List(Listeners(events, id) + [callback])]
  }

  /** The calls dispatching data to the listed callbacks makes, in order. */
  function CallsOf<Data>(callbacks: seq<CallbackId>, data: Data): seq<Call<Data>>
    decreases |callbacks|
  {
    if callbacks == [] then []
    else CallsOf(callbacks[..|callbacks| - 1], data) + [Call(callbacks[|callbacks| - 1], data)]
  }

  /** Each listed callback is called exactly once, in the order of the
      list, with the same data. */
  lemma {:induction false} CallsOfFollowList<Data>(callbacks: seq<CallbackId>, data: Data)
    ensures |CallsOf(callbacks, data)| == |callbacks|
    ensures forall k :: 0 <= k < |callbacks| ==> CallsOf(callbacks, data)[k] == Call(callbacks[k], data)
    decreases |callbacks|
  {
    if callbacks != [] {
      var init := callbacks[..|callbacks| - 1];
      CallsOfFollowList(init, data);
      forall k | 0 <= k < |callbacks| - 1
        ensures CallsOf(callbacks, data)[k] == Call(callbacks[k], data)
      {
        assert init[k] == callbacks[k];
      }
    }
  }

  /** `register` appends the callback to the list of its id (starting a
      list when the id is missing or `null`) and leaves every other id's
      entry as it was. */
  lemma RegisterAppends(events: map<string, Entry>, id: string, callback: CallbackId, other: string)
    requires other != id
    ensures Listeners(Registered(events, id, callback), id) == Listeners(events, id) + [callback]
    ensures other in Registered(events, id, callback) <==> other in events
    ensures other in events ==> Registered(events, id, callback)[other] == events[other]
  {
  }

  /** A `register` that returns normally keeps the inherited names out of
      the table, so a dispatch under such a name calls nothing, as the
      empty enumeration of a function or of the prototype does. */
  lemma RegisterKeepsInheritedOut(events: map<string, Entry>, id: string, callback: CallbackId, inherited: string)
    requires NoInheritedKeys(events) && id !in InheritedKeys && inherited in InheritedKeys
    ensures NoInheritedKeys(Registered(events, id, callback))
    ensures Listeners(Registered(events, id, callback), inherited) == []
  {
    assert inherited != id;
    assert inherited !in events;
  }

  /** No deduplication: registering the same callback twice lists it twice
      more, and a dispatch then calls it twice more. */
  lemma RegisteringTwiceCallsTwice<Data>(events: map<string, Entry>, id: string, callback: CallbackId, data: Data)
    ensures var twice := Registered(Registered(events, id, callback), id, callback);
            && Listeners(twice, id) == Listeners(events, id) + [callback, callback]
            && CallsOf(Listeners(twice, id), data)
               == CallsOf(Listeners(events, id), data) + [Call(callback, data), Call(callback, data)]
  {
    var l := Listeners(events, id);
    var l2 := l + [callback, callback];
    assert Listeners(Registered(Registered(events, id, callback), id, callback), id) == l2;
    assert l2[..|l2| - 1] == l + [callback];
    assert (l + [callback])[..|l|] == l;
  }

  /** A sequence of `register` calls, in order, each returning normally. */
  function RegisterAll(events: map<string, Entry>, registrations: seq<(string, CallbackId)>): map<string, Entry>
    decreases |registrations|
  {
    if registrations == [] then events
    else
      var last := registrations[|registrations| - 1];
      Registered(RegisterAll(events, registrations[..|registrations| - 1]), last.0, last.1)
  }

  /** The callbacks registered for id, in registration order. */
  function RegisteredFor(registrations: seq<(string, CallbackId)>, id: string): seq<CallbackId>
    decreases |registrations|
  {
    if registrations == [] then []
    else
      var last := registrations[|registrations| - 1];
      RegisteredFor(registrations[..|registrations| - 1], id) + (if last.0 == id then [last.1] else [])
  }

  /** After any registrations, an id lists what it listed before followed
      by the callbacks registered for it, in registration order (and with
      repetitions). */
  lemma {:induction false} ListenersInRegistrationOrder(events: map<string, Entry>,
                                                         registrations: seq<(string, CallbackId)>, id: string)
    ensures Listeners(RegisterAll(events, registrations), id) == Listeners(events, id) + RegisteredFor(registrations, id)
    decreases |registrations|
  {
    if registrations != [] {
      var init := registrations[..|registrations| - 1];
      ListenersInRegistrationOrder(events, init, id);
      var last := registrations[|registrations| - 1];
      if last.0 != id {
        RegisterAppends(RegisterAll(events, init), last.0, last.1, id);
      }
    }
  }

  /** `EventDispatcher`: the module-wide table `_events`, and the log of
      the calls dispatch has made. */
  class EventDispatcher<Data> {
    var events: map<string, Entry>
    var calls: seq<Call<Data>>

    /** No inherited name is an own key of the table. */
    predicate Valid()
      reads this
    {
      NoInheritedKeys(events)
    }

    /** `_events = {}`. */
    constructor ()
      ensures Valid()
      ensures events == map[] && calls == []
    {
      events, calls := map[], [];
    }

    /** `register(id, callback)`. For an inherited name the stored value is
        not `undefined` or `null`, so no list is started, and `.push` of it
        throws a TypeError (`threw`) with the table unchanged. */
    method Register(id: string, callback: CallbackId) returns (threw: bool)
      requires Valid()
      modifies this`events
      ensures Valid()
      ensures threw <==> id in InheritedKeys
      ensures events == if threw then old(events) else Registered(old(events), id, callback)
    {
      if id in InheritedKeys {
        return true;
      }
      if id !in events || events[id].Null? {
        events := events[id := List([])];
      }
      events := events[id := List(events[id].callbacks + [callback])];
      return false;
    }

    /** `dispatch(id, data)`: nothing when the id is missing, `null` or an
        inherited name (whose value enumerates no properties);
        otherwise every callback of its list is called with data, in list
        order. The table is not changed. */
    method Dispatch(id: string, data: Data)
      requires Valid()
      modifies this`calls
      ensures events == old(events)
      ensures calls == old(calls) + CallsOf(Listeners(events, id), data)
      ensures id in InheritedKeys ==> calls == old(calls)
    {
      if id !in events || events[id].Null? {
        return;
      }
      var list := events[id].callbacks;
      var i := 0;
      while i < |list|
        invariant 0 <= i <= |list|
        invariant calls == old(calls) + CallsOf(list[..i], data)
      {
        assert list[..i + 1][..i] == list[..i];
        calls := calls + [Call(list[i], data)];
        i := i + 1;
      }
      assert list[..i] == list;
    }
  }
}
