/** The publish/subscribe broker (pkg/channel/broker.go): one goroutine selects among stop,
    subscribe, unsubscribe and publish; listeners are bounded and lossy. */
module Broker {
  import opened Prelude

  const LISTENER_CAPACITY: nat := 8
  const PUBLISH_CAPACITY: nat := 8

  type ListenerId = nat

  /** A listener channel. History: `offered` lists the messages dispatched to it, `kept` the
      positions in `offered` that were accepted, `from` and `until` the lengths of the broker's
      log when its subscribe and its unsubscribe were taken; `read` counts the messages its owner
      received, `closes` the close calls. */
  datatype Listener<M> = Listener(
    unread: seq<M>, closes: nat, offered: seq<M>, kept: seq<nat>, dropped: nat, read: nat, from: nat, until: nat)

  function NewListener<M>(): Listener<M> {
    Listener([], 0, [], [], 0, 0, 0, 0)
  }

  /** A non-blocking send: a full listener misses the message. */
  function Offer<M>(l: Listener<M>, msg: M): Listener<M> {
    if |l.unread| < LISTENER_CAPACITY then
      l.(unread := l.unread + [msg], offered := l.offered + [msg], kept := l.kept + [|l.offered|])
    else
      l.(offered := l.offered + [msg], dropped := l.dropped + 1)
  }

  function Accepted<M>(l: Listener<M>): seq<M>
    requires forall i :: 0 <= i < |l.kept| ==> l.kept[i] < |l.offered|
  {
    seq(|l.kept|, i requires 0 <= i < |l.kept| => l.offered[l.kept[i]])
  }

  /** Offering to every subscriber at once. */
  function OfferAll<M>(listeners: map<ListenerId, Listener<M>>, subs: set<ListenerId>, msg: M): map<ListenerId, Listener<M>> {
    map id | id in listeners :: if id in subs then Offer(listeners[id], msg) else listeners[id]
  }

  function CloseAll<M>(listeners: map<ListenerId, Listener<M>>, subs: set<ListenerId>): map<ListenerId, Listener<M>> {
    map id | id in listeners :: if id in subs then listeners[id].(closes := listeners[id].closes + 1) else listeners[id]
  }

  /** The broker. `log` is every message dispatched; `registered` and `released` are the
      listeners whose subscribe and whose unsubscribe the loop has consumed; `asked` those
      Unsubscribe was called for; `panicked` records a send on or close of a closed channel. */
  datatype State<M> = State(
    running: bool,
    stopCalled: bool,
    subs: set<ListenerId>,
    listeners: map<ListenerId, Listener<M>>,
    publishCh: seq<M>,
    subCh: seq<ListenerId>,
    unsubCh: seq<ListenerId>,
    log: seq<M>,
    registered: set<ListenerId>,
    asked: set<ListenerId>,
    released: set<ListenerId>,
    panicked: bool)

  function Started<M>(): State<M> {
    State(true, false, {}, map[], [], [], [], [], {}, {}, {}, false)
  }

  datatype Action<M> =
    // callers
    | Subscribe(id: ListenerId)
    | Unsubscribe(id: ListenerId)
    | Publish(msg: M)
    | Stop
    | Receive(id: ListenerId)
    // the select loop
    | TakeStop
    | TakeSubscribe
    | TakeUnsubscribe
    | TakePublish

  /** A caller's send on a full channel waits; every caller unsubscribes a listener once. */
  predicate Enabled<M>(s: State<M>, a: Action<M>) {
    match a
    case Subscribe(id) => s.running && s.subCh == [] && id !in s.listeners
    case Unsubscribe(id) => s.running && s.unsubCh == [] && id in s.listeners && id !in s.asked
    case Publish(_) => s.running && |s.publishCh| < PUBLISH_CAPACITY
    case Stop => !s.stopCalled
    case Receive(id) => id in s.listeners && s.listeners[id].unread != []
    case TakeStop => s.running && s.stopCalled
    case TakeSubscribe => s.running && s.subCh != [] && s.subCh[0] in s.listeners
    case TakeUnsubscribe => s.running && s.unsubCh != [] && s.unsubCh[0] in s.listeners
    case TakePublish => s.running && s.publishCh != []
  }

  predicate AnyClosed<M>(s: State<M>) {
    exists id <- s.subs :: id in s.listeners && s.listeners[id].closes > 0
  }

  function Apply<M>(s: State<M>, a: Action<M>): State<M>
    requires Enabled(s, a)
  {
    match a
    case Subscribe(id) => s.(subCh := s.subCh + [id], listeners := s.listeners[id := NewListener()])
    case Unsubscribe(id) => s.(unsubCh := s.unsubCh + [id], asked := s.asked + {id})
    case Publish(msg) => s.(publishCh := s.publishCh + [msg])
    case Stop => s.(stopCalled := true)
    case Receive(id) =>
      var l := s.listeners[id];
      s.(listeners := s.listeners[id := l.(unread := l.unread[1..], read := l.read + 1)])
    case TakeStop =>
      s.(running := false, listeners := CloseAll(s.listeners, s.subs), panicked := s.panicked || AnyClosed(s))
    case TakeSubscribe =>
      var id := s.subCh[0];
      s.(subCh := s.subCh[1..], subs := s.subs + {id}, registered := s.registered + {id},
         listeners := s.listeners[id := s.listeners[id].(from := |s.log|)])
    case TakeUnsubscribe =>
      var id := s.unsubCh[0];
      var l := s.listeners[id];
      s.(unsubCh := s.unsubCh[1..], subs := s.subs - {id}, released := s.released + {id},
         listeners := s.listeners[id := l.(closes := l.closes + 1, until := |s.log|)], panicked := s.panicked || l.closes > 0)
    case TakePublish =>
      s.(publishCh := s.publishCh[1..], log := s.log + [s.publishCh[0]],
         listeners := OfferAll(s.listeners, s.subs, s.publishCh[0]), panicked := s.panicked || AnyClosed(s))
  }

  predicate Runs<M(==)>(s: State<M>, acts: seq<Action<M>>, s': State<M>)
    decreases |acts|
  {
    if acts == [] then s' == s
    else Enabled(s, acts[0]) && Runs(Apply(s, acts[0]), acts[1..], s')
  }

  // ----- the object

  /** Walks the subscribers in whatever order the map gives them, sending without blocking: the
      outcome is always that of offering to all at once. */
  method OfferInAnyOrder<M>(listeners: map<ListenerId, Listener<M>>, subs: set<ListenerId>, msg: M)
    returns (r: map<ListenerId, Listener<M>>)
    requires subs <= listeners.Keys
    ensures r == OfferAll(listeners, subs, msg)
  {
    r := listeners;
    var rest := subs;
    while rest != {}
      invariant rest <= subs && r.Keys == listeners.Keys
      invariant forall id :: id in listeners ==>
                  r[id] == if id in subs && id !in rest then Offer(listeners[id], msg) else listeners[id]
    {
      var sub :| sub in rest;
      var l := r[sub];
      if |l.unread| < LISTENER_CAPACITY {
        l := l.(unread := l.unread + [msg], kept := l.kept + [|l.offered|]);
      } else {
        l := l.(dropped := l.dropped + 1);
      }
      r := r[sub := l.(offered := l.offered + [msg])];
      rest := rest - {sub};
    }
  }

  method CloseInAnyOrder<M>(listeners: map<ListenerId, Listener<M>>, subs: set<ListenerId>)
    returns (r: map<ListenerId, Listener<M>>)
    requires subs <= listeners.Keys
    ensures r == CloseAll(listeners, subs)
  {
    r := listeners;
    var rest := subs;
    while rest != {}
      invariant rest <= subs && r.Keys == listeners.Keys
      invariant forall id :: id in listeners ==>
                  r[id] == if id in subs && id !in rest then listeners[id].(closes := listeners[id].closes + 1) else listeners[id]
    {
      var sub :| sub in rest;
      r := r[sub := r[sub].(closes := r[sub].closes + 1)];
      rest := rest - {sub};
    }
  }

  class Broker<M> {
    var running: bool
    var stopCalled: bool
    var subs: set<ListenerId>
    var listeners: map<ListenerId, Listener<M>>
    var publishCh: seq<M>
    var subCh: seq<ListenerId>
    var unsubCh: seq<ListenerId>
    var log: seq<M>
    var registered: set<ListenerId>
    var asked: set<ListenerId>
    var released: set<ListenerId>

    ghost function Abs(): State<M>
      reads this
    {
      State(running, stopCalled, subs, listeners, publishCh, subCh, unsubCh, log, registered, asked, released, false)
    }

    ghost predicate Valid()
      reads this
    {
      subs <= listeners.Keys
    }

    constructor ()
      ensures Valid() && Abs() == Started()
    {
      running, stopCalled, subs, listeners := true, false, {}, map[];
      publishCh, subCh, unsubCh := [], [], [];
      log, registered, asked, released := [], {}, {}, {};
    }

    /** The publish case of the loop. */
    method TakePublish()
      requires Valid() && Enabled(Abs(), Action.TakePublish) && !AnyClosed(Abs())
      modifies this
      ensures Valid() && Abs() == Apply(old(Abs()), Action.TakePublish)
      ensures [old(publishCh)[0]] + publishCh == old(publishCh) && log == old(log) + [old(publishCh)[0]]
    {
      var msg := publishCh[0];
      publishCh := publishCh[1..];
      log := log + [msg];
      listeners := OfferInAnyOrder(listeners, subs, msg);
    }

    /** The stop case. */
    method TakeStop()
      requires Valid() && Enabled(Abs(), Action.TakeStop) && !AnyClosed(Abs())
      modifies this
      ensures Valid() && Abs() == Apply(old(Abs()), Action.TakeStop)
    {
      running := false;
      listeners := CloseInAnyOrder(listeners, subs);
    }

    method TakeSubscribe()
      requires Valid() && Enabled(Abs(), Action.TakeSubscribe)
      modifies this
      ensures Valid() && Abs() == Apply(old(Abs()), Action.TakeSubscribe)
    {
      var id := subCh[0];
      subCh := subCh[1..];
      subs := subs + {id};
      registered := registered + {id};
      listeners := listeners[id := listeners[id].(from := |log|)];
    }

    method TakeUnsubscribe()
      requires Valid() && Enabled(Abs(), Action.TakeUnsubscribe) && listeners[unsubCh[0]].closes == 0
      modifies this
      ensures Valid() && Abs() == Apply(old(Abs()), Action.TakeUnsubscribe)
    {
      var id := unsubCh[0];
      unsubCh := unsubCh[1..];
      subs := subs - {id};
      released := released + {id};
      listeners := listeners[id := listeners[id].(closes := listeners[id].closes + 1, until := |log|)];
    }

    /** An error once the broker has stopped. */
    method Subscribe(id: ListenerId) returns (r: Result<ListenerId, string>)
      requires Valid() && id !in listeners && (running ==> subCh == [])
      modifies this
      ensures Valid() && (r.Ok? <==> old(running))
      ensures Abs() == if old(running) then Apply(old(Abs()), Action.Subscribe(id)) else old(Abs())
      ensures subCh == old(subCh) + if old(running) then [id] else []
    {
      if running {
        listeners := listeners[id := NewListener()];
        subCh := subCh + [id];
        return Ok(id);
      }
      r := Err("broker: trying to publish in a stopped broker");
    }

    method Publish(msg: M) returns (r: Result<(), string>)
      requires Valid() && (running ==> |publishCh| < 8)
      modifies this
      ensures Valid() && (r.Ok? <==> old(running))
      ensures Abs() == if old(running) then Apply(old(Abs()), Action.Publish(msg)) else old(Abs())
      ensures publishCh == old(publishCh) + if old(running) then [msg] else []
    {
      if running {
        publishCh := publishCh + [msg];
        return Ok(());
      }
      r := Err("broker: trying to publish in a stopped broker");
    }
  }
}
