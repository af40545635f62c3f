/** The process-wide event bus: event names mapped to sets of callbacks.
    Callbacks are identities here; invoking one is recorded as a delivery
    (the callback and the arguments it was called with) rather than run. */
module Publishing {
  import opened Base

  /** One invocation of a callback: no argument, or exactly the message. */
  datatype Call<C, M> = Call(callback: C, args: seq<M>)

  /** The arguments a dispatch passes: none without a message. */
  function ArgsFor<M>(message: Option<M>): (args: seq<M>)
    ensures |args| <= 1
    ensures message.None? <==> args == []
    ensures message.Some? ==> args == [message.value]
  {
    match message
    case None => []
    case Some(m) => [m]
  }

  /** The subscription table after subscribing `callback` to `event`. */
  function Subscribe<C>(table: map<string, set<C>>, event: string, callback: C): (t: map<string, set<C>>)
  {
    AddTo(table, event, {callback})
  }

  /** `add` is set insertion: a second identical subscription changes nothing. */
  lemma SubscribeIdempotent<C>(table: map<string, set<C>>, event: string, callback: C)
    ensures Subscribe(Subscribe(table, event, callback), event, callback) == Subscribe(table, event, callback)
  {
    AddToIdempotent(table, event, {callback});
  }

  /** Subscribing touches only the event's own set: a new event gets the
      singleton set, an existing one gains the callback, the rest stay. */
  lemma SubscribeFrame<C>(table: map<string, set<C>>, event: string, callback: C)
    ensures var t := Subscribe(table, event, callback);
            t.Keys == table.Keys + {event} &&
            (event !in table ==> t[event] == {callback}) &&
            (event in table ==> t[event] == table[event] + {callback}) &&
            (forall e :: e in table && e != event ==> t[e] == table[e])
  {
    AddToFrame(table, event, {callback});
  }

  /** `calls` invokes every callback of `subscribers` exactly once, each with
      the arguments the message calls for, in some order. */
  function CallbacksOf<C, M>(calls: seq<Call<C, M>>): set<C>
  {
    set i | 0 <= i < |calls| :: calls[i].callback
  }

  lemma CallbacksAppend<C, M>(calls: seq<Call<C, M>>, call: Call<C, M>)
    ensures CallbacksOf(calls + [call]) == CallbacksOf(calls) + {call.callback}
  {
    var all := calls + [call];
    assert forall i :: 0 <= i < |calls| ==> all[i] == calls[i];
    assert all[|calls|] == call;
  }

  ghost predicate DeliversOnce<C, M>(calls: seq<Call<C, M>>, subscribers: set<C>, message: Option<M>)
  {
    |calls| == |subscribers| &&
    (forall i :: 0 <= i < |calls| ==> calls[i].callback in subscribers && calls[i].args == ArgsFor(message)) &&
    CallbacksOf(calls) == subscribers &&
    (forall i, j :: 0 <= i < j < |calls| ==> calls[i].callback != calls[j].callback)
  }

  /** Midway through a dispatch: `calls` has served the callbacks of `subs`
      not in `rest`, once each. */
  ghost predicate Served<C, M>(calls: seq<Call<C, M>>, rest: set<C>, subs: set<C>, message: Option<M>)
  {
    rest <= subs &&
    |calls| + |rest| == |subs| &&
    (forall i :: 0 <= i < |calls| ==> calls[i].callback in subs - rest && calls[i].args == ArgsFor(message)) &&
    CallbacksOf(calls) == subs - rest &&
    (forall i, j :: 0 <= i < j < |calls| ==> calls[i].callback != calls[j].callback)
  }

  /** Serving one more callback of `rest` keeps a dispatch on track. */
  lemma ServeOne<C, M>(calls: seq<Call<C, M>>, rest: set<C>, subs: set<C>, message: Option<M>, callback: C)
    requires Served(calls, rest, subs, message) && callback in rest
    ensures Served(calls + [Call(callback, ArgsFor(message))], rest - {callback}, subs, message)
  {
    var call := Call(callback, ArgsFor(message));
    CallbacksAppend(calls, call);
    var next := calls + [call];
    assert |rest - {callback}| == |rest| - 1;
    forall i, j | 0 <= i < j < |next|
      ensures next[i].callback != next[j].callback
    {
      if j == |calls| {
        assert next[i] == calls[i];
        assert calls[i].callback in CallbacksOf(calls);
      }
    }
  }

  /** One call per callback of `subs`, in the order set iteration picks. */
  method CallEach<C, M>(subs: set<C>, message: Option<M>) returns (calls: seq<Call<C, M>>)
    ensures DeliversOnce(calls, subs, message)
  {
    var rest := subs;
    calls := [];
    while rest != {}
      invariant Served(calls, rest, subs, message)
      decreases rest
    {
      var callback :| callback in rest;
      ServeOne(calls, rest, subs, message, callback);
      calls := calls + [Call(callback, ArgsFor(message))];
      rest := rest - {callback};
    }
  }

  class Publisher<C(==), M> {
    /** event name -> the callbacks subscribed to it */
    var subscribers: map<string, set<C>>
    /** every dispatch made, with its message */
    var events: seq<(string, Option<M>)>
    /** every callback invocation, in the order made */
    var deliveries: seq<Call<C, M>>

    constructor ()
      ensures subscribers == map[] && events == [] && deliveries == []
    {
      subscribers := map[];
      events := [];
      deliveries := [];
    }

    /** Subscribe `callback` to `event`. */
    method Add(event: string, callback: C)
      modifies this
      ensures subscribers == Subscribe(old(subscribers), event, callback)
      ensures events == old(events) && deliveries == old(deliveries)
    {
      if event !in subscribers {
        subscribers := subscribers[event := {callback}];
      } else {
        subscribers := subscribers[event := subscribers[event] + {callback}];
      }
    }

    /** The callbacks subscribed to `event`; the empty set for an unknown
        event (the table is left as it is). */
    function Get(event: string): (r: set<C>)
      reads this
      ensures event !in subscribers ==> r == {}
      ensures event in subscribers ==> r == subscribers[event]
    {
      if event in subscribers then subscribers[event] else {}
    }

    /** Call every subscriber of `event` once, with no argument when there
        is no message and with exactly the message otherwise; the order is
        that of set iteration, which is left open. */
    method Dispatch(event: string, message: Option<M>) returns (calls: seq<Call<C, M>>)
      modifies this
      ensures subscribers == old(subscribers)
      ensures events == old(events) + [(event, message)]
      ensures deliveries == old(deliveries) + calls
      ensures DeliversOnce(calls, old(Get(event)), message)
      ensures event !in subscribers ==> calls == []
    {
      calls := CallEach(Get(event), message);
      events := events + [(event, message)];
      deliveries := deliveries + calls;
    }
  }
}
