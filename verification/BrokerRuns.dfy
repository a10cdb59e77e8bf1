/** What the broker guarantees over every run. */
module BrokerRuns {
  import opened Broker

  /** The loop does not register a listener whose unsubscribe it has already consumed. */
  predicate Ordered<M>(s: State<M>, a: Action<M>) {
    a.TakeSubscribe? && s.subCh != [] ==> s.subCh[0] !in s.released
  }

  predicate OrderedRuns<M(==)>(s: State<M>, acts: seq<Action<M>>, s': State<M>)
    decreases |acts|
  {
    if acts == [] then s' == s
    else Enabled(s, acts[0]) && Ordered(s, acts[0]) && OrderedRuns(Apply(s, acts[0]), acts[1..], s')
  }

  /** What a listener has accepted is an in-order, duplicate-free selection of what it was
      offered; it was received from the front; nothing is lost except by a full buffer. */
  predicate ListenerOk<M(==)>(l: Listener<M>) {
    && (forall i :: 0 <= i < |l.kept| ==> l.kept[i] < |l.offered|)
    && (forall i, j :: 0 <= i < j < |l.kept| ==> l.kept[i] < l.kept[j])
    && |l.kept| + l.dropped == |l.offered|
    && |l.unread| <= LISTENER_CAPACITY
    && l.read + |l.unread| == |l.kept|
    && l.unread == Accepted(l)[l.read..]
  }

  /** A stretch of the log from `from` on. */
  predicate Stretch<M(==)>(log: seq<M>, from: nat, offered: seq<M>) {
    from + |offered| <= |log| && offered == log[from..from + |offered|]
  }

  /** A listener has been offered exactly what was dispatched while it was subscribed. */
  predicate OfferedOk<M(==)>(s: State<M>, id: ListenerId)
    requires id in s.listeners
  {
    var l := s.listeners[id];
    && Stretch(s.log, l.from, l.offered)
    && (id in s.registered ==> l.from + |l.offered| == if id in s.released then l.until else |s.log|)
    && (id !in s.registered ==> l.offered == [])
  }

  /** Closed exactly once: by its unsubscribe, or by the stop if it was still subscribed. */
  predicate ClosesOk<M>(s: State<M>, id: ListenerId)
    requires id in s.listeners
  {
    s.listeners[id].closes == if id in s.released || (!s.running && id in s.subs) then 1 else 0
  }

  predicate Watched<M(==)>(s: State<M>, id: ListenerId)
    requires id in s.listeners
  {
    ListenerOk(s.listeners[id]) && OfferedOk(s, id) && ClosesOk(s, id)
  }

  /** The sets of listeners and the channels fit together. */
  ghost predicate Books<M>(s: State<M>) {
    && s.subs == s.registered - s.released
    && s.registered <= s.listeners.Keys && s.released <= s.asked <= s.listeners.Keys
    && |s.subCh| <= 1 && |s.unsubCh| <= 1
    && (forall id :: id in s.listeners ==> id in s.registered || id in s.subCh)
    && (forall id :: id in s.subCh ==> id in s.listeners && id !in s.registered)
    && (forall id :: id in s.unsubCh ==> id in s.asked && id !in s.released)
  }

  ghost predicate Inv<M>(s: State<M>) {
    !s.panicked && Books(s) && forall id :: id in s.listeners ==> Watched(s, id)
  }

  lemma OfferKeeps<M>(l: Listener<M>, msg: M)
    requires ListenerOk(l)
    ensures ListenerOk(Offer(l, msg))
    ensures Offer(l, msg).dropped == l.dropped + (if |l.unread| == LISTENER_CAPACITY then 1 else 0)
  {
    var l' := Offer(l, msg);
    if |l.unread| < LISTENER_CAPACITY {
      assert Accepted(l') == Accepted(l) + [msg];
    } else {
      assert Accepted(l') == Accepted(l);
    }
  }

  lemma ReceiveKeeps<M>(l: Listener<M>)
    requires ListenerOk(l) && l.unread != []
    ensures ListenerOk(l.(unread := l.unread[1..], read := l.read + 1))
  {
    var l' := l.(unread := l.unread[1..], read := l.read + 1);
    assert Accepted(l') == Accepted(l);
  }

  lemma NewKeeps<M>()
    ensures ListenerOk(NewListener<M>())
  {
    assert Accepted(NewListener<M>()) == [];
  }

  /** Changing only where a listener starts or ends, or how often it was closed. */
  lemma SameBuffer<M>(l: Listener<M>, l': Listener<M>)
    requires ListenerOk(l) && l' == l.(closes := l'.closes, from := l'.from, until := l'.until)
    ensures ListenerOk(l')
  {
    assert Accepted(l') == Accepted(l);
  }

  lemma StretchGrows<M>(log: seq<M>, from: nat, offered: seq<M>, msg: M)
    requires Stretch(log, from, offered)
    ensures Stretch(log + [msg], from, offered)
    ensures from + |offered| == |log| ==> Stretch(log + [msg], from, offered + [msg])
  {
    var end := from + |offered|;
    assert (log + [msg])[from..end] == log[from..end];
    if end == |log| {
      assert (log + [msg])[from..end + 1] == log[from..end] + [msg];
    }
  }

  lemma BooksKept<M>(s: State<M>, a: Action<M>)
    requires Books(s) && Enabled(s, a) && Ordered(s, a)
    ensures Books(Apply(s, a))
  {
    if a.TakeSubscribe? { assert s.subCh[0] in s.subCh; }
    if a.TakeUnsubscribe? { assert s.unsubCh[0] in s.unsubCh; }
  }

  lemma NoPanic<M>(s: State<M>, a: Action<M>)
    requires Inv(s) && Enabled(s, a)
    ensures !Apply(s, a).panicked
  {
    if s.running {
      forall id | id in s.subs ensures s.listeners[id].closes == 0 { assert Watched(s, id); }
    }
    if a.TakeUnsubscribe? {
      assert s.unsubCh[0] in s.unsubCh;
      assert Watched(s, s.unsubCh[0]);
    }
  }

  lemma CallerKeepsListener<M>(s: State<M>, a: Action<M>, id: ListenerId)
    requires a.Subscribe? || a.Unsubscribe? || a.Publish? || a.Stop? || a.Receive?
    requires Books(s) && Enabled(s, a) && id in Apply(s, a).listeners && (id in s.listeners ==> Watched(s, id))
    ensures Watched(Apply(s, a), id)
  {
    var s' := Apply(s, a);
    if id !in s.listeners {
      NewKeeps<M>();
      assert Stretch(s'.log, 0, []);
    } else if a.Receive? && a.id == id {
      ReceiveKeeps(s.listeners[id]);
      SameHistory(s, s', id);
    } else {
      SameHistory(s, s', id);
    }
  }

  /** Nothing was dispatched, registered, released or stopped, and the listener itself is fine. */
  lemma SameHistory<M>(s: State<M>, s': State<M>, id: ListenerId)
    requires id in s.listeners && Watched(s, id) && id in s'.listeners && ListenerOk(s'.listeners[id])
    requires s'.log == s.log && s'.subs == s.subs && s'.registered == s.registered && s'.released == s.released && s'.running == s.running
    requires var l, l' := s.listeners[id], s'.listeners[id]; l'.from == l.from && l'.until == l.until && l'.offered == l.offered && l'.closes == l.closes
    ensures Watched(s', id)
  {
  }

  lemma PublishKeepsListener<M>(s: State<M>, id: ListenerId)
    requires Books(s) && Enabled(s, TakePublish) && id in s.listeners && Watched(s, id)
    ensures Watched(Apply(s, TakePublish), id)
  {
    var l := s.listeners[id];
    OfferKeeps(l, s.publishCh[0]);
    StretchGrows(s.log, l.from, l.offered, s.publishCh[0]);
  }

  /** The remaining cases of the loop leave buffers and log alone. */
  lemma LoopKeepsListener<M>(s: State<M>, a: Action<M>, id: ListenerId)
    requires a.TakeStop? || a.TakeSubscribe? || a.TakeUnsubscribe?
    requires Books(s) && Enabled(s, a) && Ordered(s, a) && id in s.listeners && Watched(s, id)
    ensures Watched(Apply(s, a), id)
  {
    if a.TakeSubscribe? { assert s.subCh[0] in s.subCh; }
    if a.TakeUnsubscribe? { assert s.unsubCh[0] in s.unsubCh; }
    SameBuffer(s.listeners[id], Apply(s, a).listeners[id]);
  }

  lemma StepKeepsListener<M>(s: State<M>, a: Action<M>, id: ListenerId)
    requires Inv(s) && Enabled(s, a) && Ordered(s, a) && id in Apply(s, a).listeners
    ensures Watched(Apply(s, a), id)
  {
    assert id in s.listeners ==> Watched(s, id);
    match a
    case TakePublish => PublishKeepsListener(s, id);
    case TakeStop => LoopKeepsListener(s, a, id);
    case TakeSubscribe => LoopKeepsListener(s, a, id);
    case TakeUnsubscribe => LoopKeepsListener(s, a, id);
    case _ => CallerKeepsListener(s, a, id);
  }

  lemma StepKeeps<M>(s: State<M>, a: Action<M>)
    requires Inv(s) && Enabled(s, a) && Ordered(s, a)
    ensures Inv(Apply(s, a))
  {
    NoPanic(s, a);
    BooksKept(s, a);
    forall id | id in Apply(s, a).listeners ensures Watched(Apply(s, a), id) {
      StepKeepsListener(s, a, id);
    }
  }

  lemma {:induction false} RunKeeps<M>(s: State<M>, acts: seq<Action<M>>, s': State<M>)
    requires Inv(s) && OrderedRuns(s, acts, s')
    ensures Inv(s')
    decreases |acts|
  {
    if acts != [] {
      StepKeeps(s, acts[0]);
      RunKeeps(Apply(s, acts[0]), acts[1..], s');
    }
  }

  // ----- theorems

  /** Close safety: in every ordered run no step sends on or closes a closed channel, while the
      broker runs no closed listener is a subscriber, and after the stop every listener that
      was ever registered is closed exactly once. */
  lemma CloseSafety<M>(acts: seq<Action<M>>, s: State<M>)
    requires OrderedRuns(Started(), acts, s)
    ensures !s.panicked
    ensures s.running ==> forall id :: id in s.subs ==> id in s.listeners && s.listeners[id].closes == 0
    ensures !s.running ==> forall id :: id in s.registered ==> id in s.listeners && s.listeners[id].closes == 1
    ensures forall id :: id in s.listeners ==> s.listeners[id].closes <= 1
  {
    RunKeeps(Started<M>(), acts, s);
    forall id | id in s.listeners ensures ClosesOk(s, id) && s.listeners[id].closes <= 1 { assert Watched(s, id); }
  }

  /** Delivery: what a listener's owner receives, then what it still has unread, is an in-order
      duplicate-free selection of what was dispatched between its subscribe and its unsubscribe
      (up to now, if there was none), and everything not selected was dropped. */
  lemma Delivery<M>(acts: seq<Action<M>>, s: State<M>, id: ListenerId)
    requires OrderedRuns(Started(), acts, s) && id in s.listeners
    ensures var l := s.listeners[id];
            && (forall i :: 0 <= i < |l.kept| ==> l.kept[i] < |l.offered|)
            && (forall i, j :: 0 <= i < j < |l.kept| ==> l.kept[i] < l.kept[j])
            && l.read <= |l.kept| && l.unread == Accepted(l)[l.read..]
            && |l.kept| + l.dropped == |l.offered|
            && (id in s.registered ==>
                  var end := if id in s.released then l.until else |s.log|;
                  l.from <= end <= |s.log| && l.offered == s.log[l.from..end])
            && (id !in s.registered ==> l.offered == [])
  {
    RunKeeps(Started<M>(), acts, s);
    assert Watched(s, id);
  }

  /** The messages of the Publish calls, in the order of the calls. */
  function Published<M>(acts: seq<Action<M>>): seq<M> {
    if acts == [] then []
    else Given(acts[0]) + Published(acts[1..])
  }

  function Given<M>(a: Action<M>): seq<M> {
    if a.Publish? then [a.msg] else []
  }

  lemma StepIsFifo<M>(s: State<M>, a: Action<M>)
    requires Enabled(s, a)
    ensures Apply(s, a).log + Apply(s, a).publishCh == s.log + s.publishCh + Given(a)
    ensures |s.publishCh| <= 8 ==> |Apply(s, a).publishCh| <= 8
  {
    if a.TakePublish? {
      assert [s.publishCh[0]] + s.publishCh[1..] == s.publishCh;
    }
  }

  /** In every run, ordered or not, messages are dispatched in the order they were published. */
  lemma {:induction false} PublishIsFifo<M>(s: State<M>, acts: seq<Action<M>>, s': State<M>)
    requires Runs(s, acts, s')
    ensures s'.log + s'.publishCh == s.log + s.publishCh + Published(acts)
    ensures |s.publishCh| <= 8 ==> |s'.publishCh| <= 8
    decreases |acts|
  {
    if acts != [] {
      StepIsFifo(s, acts[0]);
      PublishIsFifo(Apply(s, acts[0]), acts[1..], s');
    }
  }

  lemma {:induction false} OrderedRunsAreRuns<M>(s: State<M>, acts: seq<Action<M>>, s': State<M>)
    requires OrderedRuns(s, acts, s')
    ensures Runs(s, acts, s')
    decreases |acts|
  {
    if acts != [] {
      OrderedRunsAreRuns(Apply(s, acts[0]), acts[1..], s');
    }
  }

  /** A listener gets the messages in the order they were published: what is dispatched and what
      waits are all that was published, and what a listener accepts are ever later ones of them. */
  lemma DeliveredInOrder<M>(acts: seq<Action<M>>, s: State<M>, id: ListenerId)
    requires OrderedRuns(Started(), acts, s) && id in s.registered
    ensures s.log + s.publishCh == Published(acts) && |s.publishCh| <= 8
    ensures id in s.listeners
    ensures InOrder(s.listeners[id], Published(acts))
  {
    OrderedRunsAreRuns(Started<M>(), acts, s);
    PublishIsFifo(Started<M>(), acts, s);
    RunKeeps(Started<M>(), acts, s);
    assert Watched(s, id);
    InOrderOfLog(s.listeners[id], s.log, s.publishCh);
  }

  /** What was received and what is unread are messages at ever later positions of `sent`. */
  predicate InOrder<M(==)>(l: Listener<M>, sent: seq<M>) {
    && (forall i :: 0 <= i < |l.kept| ==> l.kept[i] < |l.offered| && l.from + l.kept[i] < |sent|)
    && (forall i :: 0 <= i < |l.kept| ==> Accepted(l)[i] == sent[l.from + l.kept[i]])
    && (forall i, j :: 0 <= i < j < |l.kept| ==> l.kept[i] < l.kept[j])
    && l.read <= |l.kept| && l.unread == Accepted(l)[l.read..]
  }

  lemma InOrderOfLog<M>(l: Listener<M>, log: seq<M>, waiting: seq<M>)
    requires ListenerOk(l) && Stretch(log, l.from, l.offered)
    ensures InOrder(l, log + waiting)
  {
    forall i | 0 <= i < |l.kept| ensures Accepted(l)[i] == (log + waiting)[l.from + l.kept[i]] {
      assert l.offered[l.kept[i]] == log[l.from + l.kept[i]];
    }
  }

  /** A dispatch drops the message for exactly the subscribers with 8 messages unread, and
      leaves every other listener alone. */
  lemma DropsOnlyWhenFull<M>(acts: seq<Action<M>>, s: State<M>, id: ListenerId)
    requires OrderedRuns(Started(), acts, s) && Enabled(s, TakePublish) && id in s.listeners
    ensures var l, l' := s.listeners[id], Apply(s, TakePublish).listeners[id];
            && l'.dropped == l.dropped + (if id in s.subs && |l.unread| == 8 then 1 else 0)
            && l'.unread == l.unread + (if id in s.subs && |l.unread| < 8 then [s.publishCh[0]] else [])
  {
    RunKeeps(Started<M>(), acts, s);
    assert Watched(s, id);
    OfferKeeps(s.listeners[id], s.publishCh[0]);
  }

  /** No ordered continuation panics. */
  ghost predicate NeverPanics<M(!new)>(s: State<M>) {
    forall more, s' :: OrderedRuns(s, more, s') ==> !s'.panicked
  }

  /** The order condition is exact: no continuation of a step panics if and only if the step does
      not register a listener whose unsubscribe was consumed before. */
  lemma OrderedIsExact<M(!new)>(s: State<M>, a: Action<M>)
    requires Inv(s) && Enabled(s, a)
    ensures NeverPanics(Apply(s, a)) <==> Ordered(s, a)
  {
    if Ordered(s, a) {
      StepKeeps(s, a);
      forall more, s' | OrderedRuns(Apply(s, a), more, s') ensures !s'.panicked {
        RunKeeps(Apply(s, a), more, s');
      }
    } else {
      OvertakenPanics(s);
    }
  }

  /** The closed listener is a subscriber now, and stopping the broker closes it again. */
  lemma OvertakenPanics<M(!new)>(s: State<M>)
    requires Inv(s) && Enabled(s, TakeSubscribe) && !Ordered(s, TakeSubscribe)
    ensures !NeverPanics(Apply(s, TakeSubscribe))
  {
    var id := s.subCh[0];
    assert Watched(s, id);
    assert id in Apply(s, TakeSubscribe).subs && Apply(s, TakeSubscribe).listeners[id].closes == 1;
    StoppingPanics(Apply(s, TakeSubscribe));
  }

  lemma StoppingPanics<M(!new)>(s: State<M>)
    requires s.running && AnyClosed(s)
    ensures !NeverPanics(s)
  {
    assert OrderedRuns(s, [], s);
    if s.stopCalled {
      OrderedSnoc(s, [], s, TakeStop);
    } else {
      var s1 := Apply(s, Action.Stop);
      OrderedSnoc(s, [], s, Action.Stop);
      assert AnyClosed(s1);
      OrderedSnoc(s, [] + [Action.Stop], s1, TakeStop);
    }
  }

  lemma {:induction false} OrderedSnoc<M(!new)>(s: State<M>, acts: seq<Action<M>>, mid: State<M>, a: Action<M>)
    requires OrderedRuns(s, acts, mid) && Enabled(mid, a) && Ordered(mid, a)
    ensures OrderedRuns(s, acts + [a], Apply(mid, a))
    decreases |acts|
  {
    if acts == [] {
      assert [a][1..] == [] && acts + [a] == [a];
      assert OrderedRuns(Apply(mid, a), [], Apply(mid, a));
    } else {
      OrderedSnoc(Apply(s, acts[0]), acts[1..], mid, a);
      assert (acts + [a])[1..] == acts[1..] + [a];
    }
  }

  /** What goes wrong otherwise: the closed listener becomes a subscriber, and the next dispatch
      panics. */
  lemma OvertakenSubscribePanics<M>(s: State<M>, id: ListenerId)
    requires Inv(s) && s.running && s.subCh == s.unsubCh == [id] && s.publishCh != []
    ensures Enabled(s, TakeUnsubscribe)
    ensures var s1 := Apply(s, TakeUnsubscribe);
            && Enabled(s1, TakeSubscribe)
            && var s2 := Apply(s1, TakeSubscribe);
            && id in s2.subs && s2.listeners[id].closes > 0
            && Enabled(s2, TakePublish)
            && Apply(s2, TakePublish).panicked
  {
  }

  /** And it happens: a caller that subscribes and unsubscribes before the loop runs, and one
      that publishes, leave the loop that choice. */
  lemma OvertakingHappens<M(!new)>(id: ListenerId, msg: M) returns (acts: seq<Action<M>>, s: State<M>)
    ensures OrderedRuns(Started(), acts, s)
    ensures Inv(s) && s.running && s.subCh == s.unsubCh == [id] && s.publishCh == [msg]
  {
    var s0 := Started<M>();
    var s1 := Apply(s0, Action.Subscribe(id));
    var s2 := Apply(s1, Action.Unsubscribe(id));
    assert OrderedRuns(s0, [], s0);
    OrderedSnoc(s0, [], s0, Action.Subscribe(id));
    OrderedSnoc(s0, [] + [Action.Subscribe(id)], s1, Action.Unsubscribe(id));
    OrderedSnoc(s0, [] + [Action.Subscribe(id)] + [Action.Unsubscribe(id)], s2, Action.Publish(msg));
    acts := [] + [Action.Subscribe(id)] + [Action.Unsubscribe(id)] + [Action.Publish(msg)];
    s := Apply(s2, Action.Publish(msg));
    RunKeeps(s0, acts, s);
  }
}
