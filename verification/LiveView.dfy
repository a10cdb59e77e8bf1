/** The live view of the sniffer (connHandler in internal/app/client/sniffer/controller.go):
    subscribe to the store's broker, then send a snapshot of the store, then follow the events.
    Records enter through AddRecordAndPublish, which stores before it publishes. */
module LiveView {
  import B = Broker
  import opened Broker
  import opened BrokerRuns
  import opened Prelude

  type RecordId = nat

  /** `added` and `gone` are history: every record ever added, and those evicted or cleared
      before the snapshot. `pending` are added but not yet handed to the broker. */
  datatype View = View(
    broker: State<RecordId>,
    store: set<RecordId>,
    added: set<RecordId>,
    pending: set<RecordId>,
    gone: set<RecordId>,
    snapshot: Option<set<RecordId>>)

  datatype Event =
    | Add(n: RecordId)
    | PublishAdded(n: RecordId)
    | Remove(n: RecordId)
    | Snapshot
    | OnBroker(a: Action<RecordId>)

  /** The broker steps an Event may wrap: everything but publishing a record. */
  predicate Enabled(v: View, e: Event) {
    match e
    case Add(n) => n !in v.added
    case PublishAdded(n) => n in v.pending && B.Enabled(v.broker, Publish(n))
    case Remove(n) => n in v.store
    case Snapshot => v.snapshot.None?
    case OnBroker(a) => !a.Publish? && B.Enabled(v.broker, a)
  }

  function Apply(v: View, e: Event): View
    requires Enabled(v, e)
  {
    match e
    case Add(n) => v.(store := v.store + {n}, added := v.added + {n}, pending := v.pending + {n})
    case PublishAdded(n) => v.(pending := v.pending - {n}, broker := B.Apply(v.broker, Publish(n)))
    case Remove(n) => v.(store := v.store - {n}, gone := if v.snapshot.None? then v.gone + {n} else v.gone)
    case Snapshot => v.(snapshot := Some(v.store))
    case OnBroker(a) => v.(broker := B.Apply(v.broker, a))
  }

  /** The viewer's listener is registered when the snapshot is taken. */
  predicate Registers(v: View, viewer: ListenerId, e: Event) {
    e.Snapshot? ==> viewer in v.broker.subs && viewer in v.broker.listeners
  }

  predicate ViewRuns(v: View, viewer: ListenerId, es: seq<Event>, v': View)
    decreases |es|
  {
    if es == [] then v' == v
    else Enabled(v, es[0]) && Registers(v, viewer, es[0])
         && (es[0].OnBroker? ==> Ordered(v.broker, es[0].a))
         && ViewRuns(Apply(v, es[0]), viewer, es[1..], v')
  }

  function Begin(): View {
    View(Started(), {}, {}, {}, {}, None)
  }

  /** On its way to the listener, or already offered to it. */
  predicate Coming(v: View, viewer: ListenerId, n: RecordId) {
    n in v.pending || n in v.broker.publishCh
    || (viewer in v.broker.listeners && n in v.broker.listeners[viewer].offered)
  }

  ghost predicate ViewInv(v: View, viewer: ListenerId) {
    && BrokerRuns.Inv(v.broker)
    && (v.snapshot.None? ==> forall n :: n in v.added ==> n in v.store || n in v.gone)
    && (v.snapshot.Some? && viewer in v.broker.subs ==>
          forall n :: n in v.added ==> n in v.snapshot.value || n in v.gone || Coming(v, viewer, n))
    && (v.snapshot.Some? ==> viewer in v.broker.registered)
  }

  /** A broker step delays nothing that is on its way to a subscriber: what leaves the queue is
      offered. */
  lemma ComingStays(v: View, viewer: ListenerId, a: Action<RecordId>, n: RecordId)
    requires Books(v.broker) && Enabled(v, OnBroker(a)) && viewer in v.broker.subs
    requires Coming(v, viewer, n)
    ensures Coming(Apply(v, OnBroker(a)), viewer, n)
  {
    if a.TakePublish? {
      assert v.broker.publishCh == [v.broker.publishCh[0]] + v.broker.publishCh[1..];
    }
  }

  /** A subscriber was one before, unless its registration was just taken. */
  lemma SubscriberBefore(s: State<RecordId>, viewer: ListenerId, a: Action<RecordId>)
    requires Books(s) && B.Enabled(s, a) && viewer in s.registered
    ensures viewer in B.Apply(s, a).registered
    ensures viewer in B.Apply(s, a).subs ==> viewer in s.subs
  {
    if a.TakeSubscribe? { assert s.subCh[0] in s.subCh; }
  }

  lemma BrokerStepKeepsView(v: View, viewer: ListenerId, a: Action<RecordId>)
    requires ViewInv(v, viewer) && Enabled(v, OnBroker(a)) && Ordered(v.broker, a)
    ensures ViewInv(Apply(v, OnBroker(a)), viewer)
  {
    var v' := Apply(v, OnBroker(a));
    BrokerRuns.StepKeeps(v.broker, a);
    if v.snapshot.Some? {
      SubscriberBefore(v.broker, viewer, a);
      forall n | viewer in v'.broker.subs && n in v'.added
        ensures n in v'.snapshot.value || n in v'.gone || Coming(v', viewer, n)
      {
        if Coming(v, viewer, n) { ComingStays(v, viewer, a, n); }
      }
    }
  }

  lemma StepKeepsView(v: View, viewer: ListenerId, e: Event)
    requires ViewInv(v, viewer) && Enabled(v, e) && Registers(v, viewer, e)
    requires e.OnBroker? ==> Ordered(v.broker, e.a)
    ensures ViewInv(Apply(v, e), viewer)
  {
    match e
    case OnBroker(a) => BrokerStepKeepsView(v, viewer, a);
    case PublishAdded(n) =>
      BrokerRuns.StepKeeps(v.broker, Publish(n));
      var v' := Apply(v, e);
      forall m | v.snapshot.Some? && viewer in v.broker.subs && m in v'.added
        ensures m in v'.snapshot.value || m in v'.gone || Coming(v', viewer, m)
      {
        assert m in v.snapshot.value || m in v.gone || Coming(v, viewer, m);
      }
    case _ =>
  }

  lemma {:induction false} RunKeepsView(v: View, viewer: ListenerId, es: seq<Event>, v': View)
    requires ViewInv(v, viewer) && ViewRuns(v, viewer, es, v')
    ensures ViewInv(v', viewer)
    decreases |es|
  {
    if es != [] {
      StepKeepsView(v, viewer, es[0]);
      RunKeepsView(Apply(v, es[0]), viewer, es[1..], v');
    }
  }

  /** No gap: if the broker registered the listener before the snapshot, then while it stays
      subscribed every record added at any time is in the snapshot, was evicted or cleared
      before it, was offered to the listener, or is still on its way through the broker; once
      nothing is on its way, the first three alone cover everything. */
  lemma NoGap(viewer: ListenerId, es: seq<Event>, v: View, n: RecordId)
    requires ViewRuns(Begin(), viewer, es, v)
    requires v.snapshot.Some? && viewer in v.broker.subs && n in v.added
    ensures n in v.snapshot.value || n in v.gone || Coming(v, viewer, n)
    ensures v.pending == {} && v.broker.publishCh == [] ==>
              n in v.snapshot.value || n in v.gone || n in v.broker.listeners[viewer].offered
  {
    RunKeepsView(Begin(), viewer, es, v);
  }

  /** Before the snapshot the store is what was added and not removed; after it nothing moves it. */
  lemma StepKeepsSnapshot(v: View, e: Event)
    requires Enabled(v, e)
    requires v.snapshot.None? ==> v.store == v.added - v.gone && v.gone <= v.added
    ensures var v' := Apply(v, e);
            && (v'.snapshot.None? ==> v'.store == v'.added - v'.gone && v'.gone <= v'.added)
            && (v.snapshot.Some? ==> v'.snapshot == v.snapshot && v'.gone == v.gone)
  {
  }

  lemma {:induction false} RunKeepsSnapshot(v: View, viewer: ListenerId, es: seq<Event>, v': View)
    requires ViewRuns(v, viewer, es, v')
    requires v.snapshot.None? ==> v.store == v.added - v.gone && v.gone <= v.added
    ensures v'.snapshot.None? ==> v'.store == v'.added - v'.gone && v'.gone <= v'.added
    ensures v.snapshot.Some? ==> v'.snapshot == v.snapshot && v'.gone == v.gone
    decreases |es|
  {
    if es != [] {
      StepKeepsSnapshot(v, es[0]);
      RunKeepsSnapshot(Apply(v, es[0]), viewer, es[1..], v');
    }
  }

  /** The snapshot holds the records added before it and neither evicted nor cleared by then, no
      others, and later events do not change it. */
  lemma SnapshotHolds(viewer: ListenerId, before: seq<Event>, v: View, after: seq<Event>, v': View)
    requires ViewRuns(Begin(), viewer, before, v) && Enabled(v, Snapshot)
    requires ViewRuns(Apply(v, Snapshot), viewer, after, v')
    ensures v'.snapshot == Some(v.added - v.gone) && v'.gone == v.gone
  {
    RunKeepsSnapshot(Begin(), viewer, before, v);
    RunKeepsSnapshot(Apply(v, Snapshot), viewer, after, v');
  }

  // ----- when exactly a snapshot leaves no gap

  /** Nothing is missed while the listener is subscribed. */
  ghost predicate GapFree(v: View, viewer: ListenerId)
    requires v.snapshot.Some?
  {
    viewer in v.broker.subs ==> forall n :: n in v.added ==> n in v.snapshot.value || n in v.gone || Coming(v, viewer, n)
  }

  /** The broker may still register the listener: its subscription is queued, or may yet be. */
  predicate MayRegister(s: State<RecordId>, viewer: ListenerId) {
    && s.running && viewer !in s.released
    && (s.subCh == [viewer] || (viewer !in s.listeners && (s.subCh == [] || s.subCh[0] !in s.released)))
  }

  /** A listener the broker neither has nor may register stays that way. */
  predicate Barred(s: State<RecordId>, viewer: ListenerId) {
    viewer !in s.subs && !MayRegister(s, viewer)
  }

  lemma BarredStays(s: State<RecordId>, viewer: ListenerId, a: Action<RecordId>)
    requires Books(s) && B.Enabled(s, a) && Ordered(s, a) && Barred(s, viewer)
    ensures Barred(B.Apply(s, a), viewer)
  {
    if s.subCh != [] {
      assert s.subCh == [s.subCh[0]];
    }
  }

  /** After the snapshot: the view is invariant, or the listener is barred. */
  ghost predicate SafeView(v: View, viewer: ListenerId) {
    && BrokerRuns.Inv(v.broker) && v.snapshot.Some?
    && (ViewInv(v, viewer) || Barred(v.broker, viewer))
  }

  lemma SafeStep(v: View, viewer: ListenerId, e: Event)
    requires SafeView(v, viewer) && Enabled(v, e) && (e.OnBroker? ==> Ordered(v.broker, e.a))
    ensures SafeView(Apply(v, e), viewer)
  {
    if ViewInv(v, viewer) {
      StepKeepsView(v, viewer, e);
    } else {
      match e
      case OnBroker(a) =>
        BrokerRuns.StepKeeps(v.broker, a);
        BarredStays(v.broker, viewer, a);
      case PublishAdded(n) =>
        BrokerRuns.StepKeeps(v.broker, Publish(n));
        BarredStays(v.broker, viewer, Publish(n));
      case _ =>
    }
  }

  lemma {:induction false} SafeRun(v: View, viewer: ListenerId, es: seq<Event>, v': View)
    requires SafeView(v, viewer) && ViewRuns(v, viewer, es, v')
    ensures SafeView(v', viewer) && GapFree(v', viewer)
    decreases |es|
  {
    if es != [] {
      SafeStep(v, viewer, es[0]);
      SafeRun(Apply(v, es[0]), viewer, es[1..], v');
    }
  }

  /** Whatever follows leaves no gap. */
  ghost predicate NeverMisses(v: View, viewer: ListenerId) {
    forall es, v' :: ViewRuns(v, viewer, es, v') ==> v'.snapshot.Some? && GapFree(v', viewer)
  }

  /** A snapshot is gap-free in every continuation if and only if the listener is registered by
      then, or never will be; whatever is queued in the broker. */
  lemma SnapshotIsExact(v: View, viewer: ListenerId)
    requires ViewInv(v, viewer) && Enabled(v, Snapshot)
    ensures NeverMisses(Apply(v, Snapshot), viewer) <==> !MayRegister(v.broker, viewer)
  {
    var s := Apply(v, Snapshot);
    if MayRegister(v.broker, viewer) {
      EarlySnapshotMisses(s, viewer);
    } else {
      if viewer in v.broker.subs { StepKeepsView(v, viewer, Snapshot); }
      forall es, v' | ViewRuns(s, viewer, es, v') ensures v'.snapshot.Some? && GapFree(v', viewer) {
        SafeRun(s, viewer, es, v');
      }
    }
  }

  lemma {:induction false} ViewSnoc(v: View, viewer: ListenerId, es: seq<Event>, mid: View, e: Event)
    requires ViewRuns(v, viewer, es, mid) && Enabled(mid, e) && Registers(mid, viewer, e)
    requires e.OnBroker? ==> Ordered(mid.broker, e.a)
    ensures ViewRuns(v, viewer, es + [e], Apply(mid, e))
    decreases |es|
  {
    if es == [] {
      assert [e][1..] == [] && es + [e] == [e];
      assert ViewRuns(Apply(mid, e), viewer, [], Apply(mid, e));
    } else {
      ViewSnoc(Apply(v, es[0]), viewer, es[1..], mid, e);
      assert (es + [e])[1..] == es[1..] + [e];
    }
  }

  /** Nothing but the broker's queues and listeners moved since `from`. */
  ghost predicate Waits(v: View, viewer: ListenerId, from: View) {
    && BrokerRuns.Inv(v.broker) && MayRegister(v.broker, viewer)
    && v.snapshot == from.snapshot && v.snapshot.Some? && v.added == from.added && v.gone == from.gone && v.store == from.store
  }

  /** The loop empties the publish queue, one message at a time. */
  lemma {:induction false} DrainQueue(v: View, viewer: ListenerId, es: seq<Event>, mid: View) returns (es': seq<Event>, v': View)
    requires ViewRuns(v, viewer, es, mid) && Waits(mid, viewer, v)
    ensures ViewRuns(v, viewer, es', v') && Waits(v', viewer, v) && v'.broker.publishCh == []
    decreases |mid.broker.publishCh|
  {
    if mid.broker.publishCh == [] {
      es', v' := es, mid;
    } else {
      BrokerRuns.StepKeeps(mid.broker, TakePublish);
      ViewSnoc(v, viewer, es, mid, OnBroker(TakePublish));
      es', v' := DrainQueue(v, viewer, es + [OnBroker(TakePublish)], Apply(mid, OnBroker(TakePublish)));
    }
  }

  /** A listener queued before ours is registered first. */
  lemma ClearSubCh(v: View, viewer: ListenerId, es: seq<Event>, mid: View) returns (es': seq<Event>, v': View)
    requires ViewRuns(v, viewer, es, mid) && Waits(mid, viewer, v) && mid.broker.publishCh == []
    ensures ViewRuns(v, viewer, es', v') && Waits(v', viewer, v) && v'.broker.publishCh == []
    ensures v'.broker.subCh == [viewer] || v'.broker.subCh == []
  {
    es', v' := es, mid;
    if mid.broker.subCh != [viewer] && mid.broker.subCh != [] {
      assert mid.broker.subCh == [mid.broker.subCh[0]] && mid.broker.subCh[0] in mid.broker.subCh;
      BrokerRuns.StepKeeps(mid.broker, TakeSubscribe);
      ViewSnoc(v, viewer, es, mid, OnBroker(TakeSubscribe));
      es', v' := es + [OnBroker(TakeSubscribe)], Apply(mid, OnBroker(TakeSubscribe));
    }
  }

  /** The listener's subscription gets into the queue, if it is not there yet. */
  lemma QueueListener(v: View, viewer: ListenerId, es: seq<Event>, mid: View) returns (es': seq<Event>, v': View)
    requires ViewRuns(v, viewer, es, mid) && Waits(mid, viewer, v) && mid.broker.publishCh == []
    requires mid.broker.subCh == [viewer] || mid.broker.subCh == []
    ensures ViewRuns(v, viewer, es', v') && Waits(v', viewer, v) && v'.broker.publishCh == [] && v'.broker.subCh == [viewer]
  {
    es', v' := es, mid;
    if mid.broker.subCh == [] {
      BrokerRuns.StepKeeps(mid.broker, Subscribe(viewer));
      ViewSnoc(v, viewer, es, mid, OnBroker(Subscribe(viewer)));
      es', v' := es + [OnBroker(Subscribe(viewer))], Apply(mid, OnBroker(Subscribe(viewer)));
    }
  }

  /** A record goes through the broker while the listener still waits. */
  lemma PassOne(v: View, viewer: ListenerId, es: seq<Event>, mid: View, n: RecordId) returns (es': seq<Event>, v': View)
    requires ViewRuns(v, viewer, es, mid) && Waits(mid, viewer, v)
    requires mid.broker.publishCh == [] && mid.broker.subCh == [viewer] && n !in v.added
    ensures ViewRuns(v, viewer, es', v') && v'.snapshot == v.snapshot && v'.gone == v.gone && n in v'.added && n !in v'.pending
    ensures v'.broker.publishCh == [] && v'.broker.subCh == [viewer] && v'.broker.running && viewer !in v'.broker.released
    ensures viewer in v'.broker.listeners && v'.broker.listeners[viewer].offered == []
  {
    var v1, v2;
    v1, v2, v' := PassStates(mid, viewer, n);
    ViewSnoc(v, viewer, es, mid, Add(n));
    ViewSnoc(v, viewer, es + [Add(n)], v1, PublishAdded(n));
    ViewSnoc(v, viewer, es + [Add(n)] + [PublishAdded(n)], v2, OnBroker(TakePublish));
    es' := es + [Add(n)] + [PublishAdded(n)] + [OnBroker(TakePublish)];
  }

  lemma PassStates(mid: View, viewer: ListenerId, n: RecordId) returns (v1: View, v2: View, v': View)
    requires BrokerRuns.Inv(mid.broker) && MayRegister(mid.broker, viewer)
    requires mid.broker.publishCh == [] && mid.broker.subCh == [viewer] && n !in mid.added
    ensures Enabled(mid, Add(n)) && v1 == Apply(mid, Add(n))
    ensures Enabled(v1, PublishAdded(n)) && v2 == Apply(v1, PublishAdded(n))
    ensures Enabled(v2, OnBroker(TakePublish)) && v' == Apply(v2, OnBroker(TakePublish))
    ensures v'.snapshot == mid.snapshot && v'.gone == mid.gone && n in v'.added && n !in v'.pending
    ensures v'.broker.publishCh == [] && v'.broker.subCh == [viewer] && v'.broker.running && viewer !in v'.broker.released
    ensures viewer in v'.broker.listeners && v'.broker.listeners[viewer].offered == []
  {
    WaitingListener(mid.broker, viewer);
    v1 := Apply(mid, Add(n));
    v2 := Apply(v1, PublishAdded(n));
    v' := Apply(v2, OnBroker(TakePublish));
    assert v2.broker.publishCh == [n] && v2.broker.listeners == mid.broker.listeners;
    DispatchPasses(v2.broker, viewer);
  }

  /** A dispatch leaves a listener that is not subscribed alone. */
  lemma DispatchPasses(s: State<RecordId>, viewer: ListenerId)
    requires B.Enabled(s, TakePublish) && |s.publishCh| == 1 && viewer in s.listeners && viewer !in s.subs
    ensures var s' := B.Apply(s, TakePublish);
            && s'.publishCh == [] && s'.subCh == s.subCh && s'.running == s.running && s'.released == s.released
            && viewer in s'.listeners && s'.listeners[viewer] == s.listeners[viewer]
  {
  }

  lemma WaitingListener(s: State<RecordId>, viewer: ListenerId)
    requires BrokerRuns.Inv(s) && s.subCh == [viewer]
    ensures viewer in s.listeners && viewer !in s.subs && s.listeners[viewer].offered == []
  {
    assert viewer in s.subCh;
    assert Watched(s, viewer);
  }

  /** A record stored, published and dispatched before the registration is offered to nobody. */
  lemma MissOne(v: View, viewer: ListenerId, es: seq<Event>, mid: View, n: RecordId) returns (es': seq<Event>, v': View)
    requires ViewRuns(v, viewer, es, mid) && Waits(mid, viewer, v)
    requires mid.broker.publishCh == [] && mid.broker.subCh == [viewer] && n !in v.added
    ensures ViewRuns(v, viewer, es', v') && v'.snapshot == v.snapshot && v'.gone == v.gone
    ensures viewer in v'.broker.subs && n in v'.added && !Coming(v', viewer, n)
  {
    var passed, v1 := PassOne(v, viewer, es, mid, n);
    ViewSnoc(v, viewer, passed, v1, OnBroker(TakeSubscribe));
    es', v' := passed + [OnBroker(TakeSubscribe)], Apply(v1, OnBroker(TakeSubscribe));
  }

  /** A snapshot taken while the listener may still be registered can miss a record for good:
      whatever is queued, the loop may dispatch it and the record before it registers. */
  lemma EarlySnapshotMisses(v: View, viewer: ListenerId)
    requires BrokerRuns.Inv(v.broker) && v.snapshot.Some? && MayRegister(v.broker, viewer)
    ensures !NeverMisses(v, viewer)
  {
    assert ViewRuns(v, viewer, [], v);
    var n := Unused(v.added + v.snapshot.value + v.gone);
    var es, mid := DrainQueue(v, viewer, [], v);
    es, mid := ClearSubCh(v, viewer, es, mid);
    es, mid := QueueListener(v, viewer, es, mid);
    var es', v' := MissOne(v, viewer, es, mid, n);
    assert !GapFree(v', viewer);
  }

  /** The situation of connHandler: it subscribes and goes on; the snapshot may come first. */
  lemma EarlySnapshotHappens(viewer: ListenerId) returns (es: seq<Event>, v: View)
    ensures ViewRuns(Begin(), viewer, es, v) && ViewInv(v, viewer)
    ensures Enabled(v, Snapshot) && v.broker.subCh == [viewer] && MayRegister(v.broker, viewer)
  {
    assert ViewRuns(Begin(), viewer, [], Begin());
    ViewSnoc(Begin(), viewer, [], Begin(), OnBroker(Subscribe(viewer)));
    es, v := [] + [OnBroker(Subscribe(viewer))], Apply(Begin(), OnBroker(Subscribe(viewer)));
    RunKeepsView(Begin(), viewer, es, v);
  }
}
