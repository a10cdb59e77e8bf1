/** Which stored record an elapsed-time message updates. A client forgets its server ids on
    every reconnect (ResetServerIds), but a request in flight brings one back afterwards. Server
    ids are unique within a session only, so what matters is whether the session is the same. */
module Attribution {
  import opened Prelude
  import opened Sequence
  import opened Protocol
  import opened ProtocolInvariant
  import opened ProtocolSteps
  import opened ProtocolTheorems

  /** A client opens a stream of a session while one of its tasks or elapsed-time messages of
      another session is not finished. */
  predicate Straddles(s: State, a: Action) {
    && a.OpenStream?
    && (|| (exists k <- s.tasks :: Foreign(s, s.tasks[k].stream, a.c, a.sid))
        || (exists k <- s.notes :: Foreign(s, s.notes[k].stream, a.c, a.sid)))
  }

  predicate Foreign(s: State, t: StreamId, c: ClientId, sid: SessionId) {
    t in s.streams && s.streams[t].client == c && s.streams[t].session != sid
  }

  predicate CleanRuns(s: State, acts: seq<Action>, s': State)
    decreases |acts|
  {
    if acts == [] then s' == s
    else Enabled(s, acts[0]) && !Straddles(s, acts[0]) && CleanRuns(Apply(s, acts[0]), acts[1..], s')
  }

  lemma {:induction false} CleanRunsAreRuns(s: State, acts: seq<Action>, s': State)
    requires CleanRuns(s, acts, s')
    ensures Runs(s, acts, s')
    decreases |acts|
  {
    if acts != [] {
      CleanRunsAreRuns(Apply(s, acts[0]), acts[1..], s');
    }
  }

  /** The stream is of the session its client is connected to now. */
  predicate OfCurrentSession(s: State, t: StreamId) {
    && t in s.streams
    && var c := s.streams[t].client;
    c in s.current && s.current[c] in s.streams && s.streams[s.current[c]].session == s.streams[t].session
  }

  predicate TaskCurrent(s: State, k: TaskId) {
    k in s.tasks && OfCurrentSession(s, s.tasks[k].stream)
  }

  predicate NoteCurrent(s: State, k: TaskId) {
    k in s.notes && OfCurrentSession(s, s.notes[k].stream)
  }

  /** A stored record with a server id is the record of a handler with that id. */
  predicate RecordOwn(s: State, n: StoreSlot)
    requires n in s.store
  {
    var rec := s.store[n];
    && (rec.serverId != "" || rec.elapsed.Some? ==> rec.origin.Some?)
    && (rec.origin.Some? ==> rec.origin.value in s.handlers)
    && (rec.serverId != "" ==> !Unpublished(s.handlers[rec.origin.value].pc) && s.handlers[rec.origin.value].id == rec.serverId)
  }

  /** Its handler is of the session the client is connected to now; a stored time is that
      handler's time. */
  predicate RecordOk(s: State, n: StoreSlot)
    requires n in s.store
  {
    var rec := s.store[n];
    && RecordOwn(s, n)
    && (rec.serverId != "" ==>
          && rec.client in s.current && s.current[rec.client] in s.streams
          && s.handlers[rec.origin.value].session == s.streams[s.current[rec.client]].session)
    && (rec.elapsed.Some? ==> PostOk(s.handlers[rec.origin.value], s.handlers[rec.origin.value].id, rec.elapsed.value))
  }

  ghost predicate Attributed(s: State) {
    && (forall k :: k in s.tasks ==> TaskCurrent(s, k))
    && (forall k :: k in s.notes ==> NoteCurrent(s, k))
    && (forall n :: n in s.store ==> RecordOk(s, n))
  }

  /** Only the named fields of a handler matter here, and a step changes them only in ways
      that keep what is recorded. */
  predicate Carried(r: Handler, r': Handler) {
    && r'.session == r.session
    && (!Unpublished(r.pc) ==> r'.id == r.id && !Unpublished(r'.pc))
    && (PostOk(r, r.id, r.elapsed) ==> PostOk(r', r.id, r.elapsed))
  }

  lemma RecordFrame(s: State, s': State, n: StoreSlot)
    requires n in s.store && n in s'.store && s'.store[n] == s.store[n] && RecordOk(s, n)
    requires forall h :: h in s.handlers ==> h in s'.handlers && Carried(s.handlers[h], s'.handlers[h])
    requires forall t :: t in s.streams ==> t in s'.streams && SameEnds(s.streams[t], s'.streams[t])
    requires s'.current == s.current
    ensures RecordOk(s', n)
  {
    if s.store[n].origin.Some? {
      assert s.store[n].origin.value in s'.handlers;
    }
  }

  ghost predicate Framed(s: State, s': State) {
    && (forall h :: h in s.handlers ==> h in s'.handlers && Carried(s.handlers[h], s'.handlers[h]))
    && (forall t :: t in s.streams ==> t in s'.streams && SameEnds(s.streams[t], s'.streams[t]))
    && s'.current == s.current
  }

  predicate SameWork(s: State, s': State) {
    s'.tasks == s.tasks && s'.notes == s.notes
  }

  predicate SameEnds(r: Stream, r': Stream) {
    r'.session == r.session && r'.client == r.client
  }

  lemma FramedHandler(s: State, h: HandlerId, step: HandlerStep)
    requires HandlerEnabled(s, h, step)
    ensures Framed(s, ApplyHandler(s, h, step))
    ensures ApplyHandler(s, h, step).store == s.store && SameWork(s, ApplyHandler(s, h, step))
  {
  }

  lemma FramedStream(s: State, t: StreamId, step: StreamStep)
    requires StreamEnabled(s, t, step)
    ensures Framed(s, ApplyStream(s, t, step))
    ensures ApplyStream(s, t, step).store == s.store && SameWork(s, ApplyStream(s, t, step))
  {
  }

  lemma FramedReceiver(s: State, t: StreamId, step: ReceiverStep)
    requires ReceiverEnabled(s, t, step)
    ensures Framed(s, ApplyReceiver(s, t, step))
    ensures ApplyReceiver(s, t, step).store == s.store && SameWork(s, ApplyReceiver(s, t, step))
  {
  }

  lemma ClientKeepsHandler(s: State, step: ClientStep, h: HandlerId)
    requires ClientEnabled(s, step) && h in s.handlers
    ensures h in ApplyClient(s, step).handlers && Carried(s.handlers[h], ApplyClient(s, step).handlers[h])
  {
  }

  lemma ClientKeepsStream(s: State, step: ClientStep, t: StreamId)
    requires ClientEnabled(s, step) && t in s.streams
    ensures t in ApplyClient(s, step).streams && SameEnds(s.streams[t], ApplyClient(s, step).streams[t])
    ensures ApplyClient(s, step).current == s.current
  {
    match step
    case DeliverRequest(_, _) => TakeKeepsStream(s, step, t);
    case DeliverElapsed(_, _) => TakeKeepsStream(s, step, t);
    case DeliverOther(_) => TakeKeepsStream(s, step, t);
    case SendReply(_) => ReplyKeepsStream(s, step, t);
    case _ => TaskKeepsStream(s, step, t);
  }

  lemma TakeKeepsStream(s: State, step: ClientStep, t: StreamId)
    requires ClientEnabled(s, step) && t in s.streams
    requires step.DeliverRequest? || step.DeliverElapsed? || step.DeliverOther?
    ensures t in ApplyClient(s, step).streams && SameEnds(s.streams[t], ApplyClient(s, step).streams[t])
    ensures ApplyClient(s, step).current == s.current
  {
  }

  lemma ReplyKeepsStream(s: State, step: ClientStep, t: StreamId)
    requires ClientEnabled(s, step) && t in s.streams && step.SendReply?
    ensures t in ApplyClient(s, step).streams && SameEnds(s.streams[t], ApplyClient(s, step).streams[t])
    ensures ApplyClient(s, step).current == s.current
  {
  }

  lemma TaskKeepsStream(s: State, step: ClientStep, t: StreamId)
    requires ClientEnabled(s, step) && t in s.streams
    requires !step.DeliverRequest? && !step.DeliverElapsed? && !step.DeliverOther? && !step.SendReply?
    ensures t in ApplyClient(s, step).streams && SameEnds(s.streams[t], ApplyClient(s, step).streams[t])
    ensures ApplyClient(s, step).current == s.current
  {
  }

  lemma FramedClient(s: State, step: ClientStep)
    requires ClientEnabled(s, step)
    ensures Framed(s, ApplyClient(s, step))
  {
    var s' := ApplyClient(s, step);
    forall h | h in s.handlers ensures h in s'.handlers && Carried(s.handlers[h], s'.handlers[h]) {
      ClientKeepsHandler(s, step, h);
    }
    forall t | t in s.streams ensures t in s'.streams && SameEnds(s.streams[t], s'.streams[t]) {
      ClientKeepsStream(s, step, t);
    }
    assert s'.current == s.current;
  }

  lemma AttributedFrame(s: State, s': State)
    requires Attributed(s) && Framed(s, s') && SameWork(s, s') && s'.store == s.store
    ensures Attributed(s')
  {
    forall k | k in s'.tasks ensures TaskCurrent(s', k) { assert TaskCurrent(s, k); }
    forall k | k in s'.notes ensures NoteCurrent(s', k) { assert NoteCurrent(s, k); }
    forall n | n in s'.store ensures RecordOk(s', n) { RecordFrame(s, s', n); }
  }

  /** GetByServerId hits the record of the very handler the message is about. */
  lemma HitIsOwn(s: State, k: TaskId, n: StoreSlot)
    requires Inv(s) && Attributed(s)
    requires ClientEnabled(s, ApplyElapsed(k, Some(n)))
    ensures n in s.store && s.store[n].origin == Some(s.notes[k].msg.origin)
    ensures At(s, Post(s.notes[k].msg.origin), AtNote(k)) && PlaceOk(s, Post(s.notes[k].msg.origin), AtNote(k))
  {
    var m := s.notes[k].msg;
    assert At(s, Post(m.origin), AtNote(k));
    assert PlaceOk(s, Post(m.origin), AtNote(k));
    assert NoteCurrent(s, k) && RecordOk(s, n) && RecordOwn(s, n);
    assert HandlerOk(s, m.origin);
    assert |s.handlers[m.origin].id| > 0 by { DecimalIsCanonical(s.handlers[m.origin].number); }
    var g := s.store[n].origin.value;
    assert HandlerOk(s, g);
    IdsAreOwn(s, g, m.origin);
  }

  lemma TasksStayCurrent(s: State, step: ClientStep)
    requires Attributed(s) && ClientEnabled(s, step)
    ensures forall k :: k in ApplyClient(s, step).tasks ==> TaskCurrent(ApplyClient(s, step), k)
  {
    var s' := ApplyClient(s, step);
    forall k | k in s'.tasks ensures TaskCurrent(s', k) {
      if k in s.tasks { assert TaskCurrent(s, k); }
    }
  }

  lemma NotesStayCurrent(s: State, step: ClientStep)
    requires Attributed(s) && ClientEnabled(s, step)
    ensures forall k :: k in ApplyClient(s, step).notes ==> NoteCurrent(ApplyClient(s, step), k)
  {
    var s' := ApplyClient(s, step);
    forall k | k in s'.notes ensures NoteCurrent(s', k) {
      if k in s.notes { assert NoteCurrent(s, k); }
    }
  }

  lemma ElapsedRecordOk(s: State, k: TaskId, n: StoreSlot)
    requires Inv(s) && Attributed(s) && ClientEnabled(s, ApplyElapsed(k, Some(n)))
    ensures RecordOk(ApplyClient(s, ApplyElapsed(k, Some(n))), n)
  {
    HitIsOwn(s, k, n);
    assert RecordOk(s, n);
  }

  lemma SavedRecordOk(s: State, k: TaskId, n: StoreSlot)
    requires Inv(s) && Attributed(s) && ClientEnabled(s, SaveRecord(k, n))
    ensures RecordOk(ApplyClient(s, SaveRecord(k, n)), n)
  {
    TaskFact(s, k);
    assert TaskCurrent(s, k);
  }

  lemma RecordsStayOk(s: State, step: ClientStep, n: StoreSlot)
    requires Inv(s) && Attributed(s) && ClientEnabled(s, step) && Framed(s, ApplyClient(s, step))
    requires n in ApplyClient(s, step).store
    ensures RecordOk(ApplyClient(s, step), n)
  {
    if step.ApplyElapsed? && step.hit == Some(n) {
      ElapsedRecordOk(s, step.k, n);
    } else if step.SaveRecord? && step.n == n {
      SavedRecordOk(s, step.k, n);
    } else if n in s.store {
      assert RecordOk(s, n);
      RecordFrame(s, ApplyClient(s, step), n);
    }
  }

  lemma AttributedClient(s: State, step: ClientStep)
    requires Inv(s) && Attributed(s) && ClientEnabled(s, step)
    ensures Attributed(ApplyClient(s, step))
  {
    var s' := ApplyClient(s, step);
    FramedClient(s, step);
    TasksStayCurrent(s, step);
    NotesStayCurrent(s, step);
    forall n | n in s'.store ensures RecordOk(s', n) {
      RecordsStayOk(s, step, n);
    }
  }

  lemma TaskFact(s: State, k: TaskId)
    requires Inv(s) && k in s.tasks
    ensures var h := s.tasks[k].msg.origin; h in s.handlers && TaskOk(s, s.handlers[h], s.tasks[k])
  {
    var h := s.tasks[k].msg.origin;
    assert At(s, Save(h), AtTask(k));
    assert PlaceOk(s, Save(h), AtTask(k));
  }

  lemma AttributedOpen(s: State, a: Action)
    requires a.OpenSession? || a.CloseSession? || a.Accept? || a.OpenStream?
    requires Attributed(s) && Enabled(s, a) && !Straddles(s, a)
    ensures Attributed(Apply(s, a))
  {
    var s' := Apply(s, a);
    forall k | k in s'.tasks ensures TaskCurrent(s', k) { assert TaskCurrent(s, k); }
    forall k | k in s'.notes ensures NoteCurrent(s', k) { assert NoteCurrent(s, k); }
    forall n | n in s'.store ensures RecordOk(s', n) { assert RecordOk(s, n); }
  }

  lemma StepKeepsAttributed(s: State, a: Action)
    requires Inv(s) && Attributed(s) && Enabled(s, a) && !Straddles(s, a)
    ensures Attributed(Apply(s, a))
  {
    match a
    case Handle(h, step) => FramedHandler(s, h, step); AttributedFrame(s, ApplyHandler(s, h, step));
    case Carry(t, step) => FramedStream(s, t, step); AttributedFrame(s, ApplyStream(s, t, step));
    case Deliver(step) => AttributedClient(s, step);
    case Answer(t, step) => FramedReceiver(s, t, step); AttributedFrame(s, ApplyReceiver(s, t, step));
    case _ => AttributedOpen(s, a);
  }

  lemma {:induction false} CleanRunKeepsAttributed(s: State, acts: seq<Action>, s': State)
    requires Inv(s) && Attributed(s) && CleanRuns(s, acts, s')
    ensures Inv(s') && Attributed(s')
    decreases |acts|
  {
    if acts != [] {
      StepKeepsInv(s, acts[0]);
      StepKeepsAttributed(s, acts[0]);
      CleanRunKeepsAttributed(Apply(s, acts[0]), acts[1..], s');
    }
  }

  // ----- every run

  ghost predicate Recorded(s: State) {
    forall n :: n in s.store ==> RecordOwn(s, n)
  }

  /** A message about an elapsed time hits some record; only its session is in question. */
  lemma HitHasOrigin(s: State, k: TaskId, n: StoreSlot)
    requires Inv(s) && Recorded(s) && ClientEnabled(s, ApplyElapsed(k, Some(n)))
    ensures s.notes[k].msg.origin in s.handlers
    ensures n in s.store && s.store[n].serverId != "" && s.store[n].origin.Some? && s.store[n].origin.value in s.handlers
    ensures var g, h := s.handlers[s.store[n].origin.value], s.handlers[s.notes[k].msg.origin];
            g.id == h.id && !Unpublished(g.pc) && !Unpublished(h.pc)
  {
    var m := s.notes[k].msg;
    assert At(s, Post(m.origin), AtNote(k));
    assert PlaceOk(s, Post(m.origin), AtNote(k));
    assert HandlerOk(s, m.origin) && RecordOwn(s, n);
    assert |s.handlers[m.origin].id| > 0 by { DecimalIsCanonical(s.handlers[m.origin].number); }
  }

  lemma OwnFrame(s: State, s': State, n: StoreSlot)
    requires n in s.store && RecordOwn(s, n) && n in s'.store
    requires s'.store[n].serverId == "" || s'.store[n].serverId == s.store[n].serverId
    requires s'.store[n].origin == s.store[n].origin && (s'.store[n].elapsed.Some? ==> s.store[n].origin.Some?)
    requires forall h :: h in s.handlers ==> h in s'.handlers && Carried(s.handlers[h], s'.handlers[h])
    ensures RecordOwn(s', n)
  {
    if s.store[n].origin.Some? {
      assert s.store[n].origin.value in s'.handlers;
    }
  }

  lemma OwnAfterClient(s: State, step: ClientStep, n: StoreSlot)
    requires Inv(s) && Recorded(s) && ClientEnabled(s, step) && Framed(s, ApplyClient(s, step))
    requires n in ApplyClient(s, step).store
    ensures RecordOwn(ApplyClient(s, step), n)
  {
    var s' := ApplyClient(s, step);
    if step.SaveRecord? && step.n == n {
      TaskFact(s, step.k);
    } else if n in s.store {
      if step.ApplyElapsed? && step.hit == Some(n) { HitHasOrigin(s, step.k, n); }
      assert RecordOwn(s, n);
      OwnFrame(s, s', n);
    }
  }

  lemma RecordedClient(s: State, step: ClientStep)
    requires Inv(s) && Recorded(s) && ClientEnabled(s, step)
    ensures Recorded(ApplyClient(s, step))
  {
    FramedClient(s, step);
    forall n | n in ApplyClient(s, step).store ensures RecordOwn(ApplyClient(s, step), n) {
      OwnAfterClient(s, step, n);
    }
  }

  lemma RecordedFrame(s: State, s': State)
    requires Recorded(s) && Framed(s, s') && s'.store == s.store
    ensures Recorded(s')
  {
    forall n | n in s'.store ensures RecordOwn(s', n) {
      assert RecordOwn(s, n);
      OwnFrame(s, s', n);
    }
  }

  lemma RecordedOpen(s: State, a: Action)
    requires a.OpenSession? || a.CloseSession? || a.Accept? || a.OpenStream?
    requires Recorded(s) && Enabled(s, a)
    ensures Recorded(Apply(s, a))
  {
    var s' := Apply(s, a);
    forall n | n in s'.store ensures RecordOwn(s', n) {
      assert RecordOwn(s, n);
    }
  }

  lemma {:induction false} RunKeepsRecorded(s: State, acts: seq<Action>, s': State)
    requires Inv(s) && Recorded(s) && Runs(s, acts, s')
    ensures Inv(s') && Recorded(s')
    decreases |acts|
  {
    if acts != [] {
      StepKeepsInv(s, acts[0]);
      StepKeepsRecorded(s, acts[0]);
      RunKeepsRecorded(Apply(s, acts[0]), acts[1..], s');
    }
  }

  lemma StepKeepsRecorded(s: State, a: Action)
    requires Inv(s) && Recorded(s) && Enabled(s, a)
    ensures Recorded(Apply(s, a))
  {
    match a
    case Handle(h, step) => FramedHandler(s, h, step); RecordedFrame(s, ApplyHandler(s, h, step));
    case Carry(t, step) => FramedStream(s, t, step); RecordedFrame(s, ApplyStream(s, t, step));
    case Deliver(step) => RecordedClient(s, step);
    case Answer(t, step) => FramedReceiver(s, t, step); RecordedFrame(s, ApplyReceiver(s, t, step));
    case _ => RecordedOpen(s, a);
  }

  /** In every run, two stored records with the same non-empty server id are one record exactly
      if their requests came through one session. */
  lemma SameIdExactly(prefix: string, acts: seq<Action>, s: State, m: StoreSlot, n: StoreSlot)
    requires Reached(prefix, acts, s)
    requires m in s.store && n in s.store && s.store[m].serverId == s.store[n].serverId != ""
    ensures s.store[m].origin.Some? && s.store[n].origin.Some?
    ensures s.store[m].origin.value in s.handlers && s.store[n].origin.value in s.handlers
    ensures m == n <==> s.handlers[s.store[m].origin.value].session == s.handlers[s.store[n].origin.value].session
  {
    InitHasInv(prefix);
    RunKeepsRecorded(Init(prefix), acts, s);
    assert RecordOwn(s, m) && RecordOwn(s, n);
    var g, h := s.store[m].origin.value, s.store[n].origin.value;
    if s.handlers[g].session == s.handlers[h].session {
      assert HandlerOk(s, g) && HandlerOk(s, h);
      IdsAreOwn(s, g, h);
      assert At(s, Save(g), Kept(m)) && At(s, Save(g), Kept(n));
    }
  }

  /** In every run, the record an elapsed-time message hits is that of its own request exactly if
      the record's request came through the session of the message. */
  lemma HitIsOwnExactly(prefix: string, acts: seq<Action>, s: State, k: TaskId, n: StoreSlot)
    requires Reached(prefix, acts, s) && ClientEnabled(s, ApplyElapsed(k, Some(n)))
    ensures s.notes[k].msg.origin in s.handlers
    ensures n in s.store && s.store[n].origin.Some? && s.store[n].origin.value in s.handlers
    ensures s.store[n].origin.value == s.notes[k].msg.origin
            <==> s.handlers[s.store[n].origin.value].session == s.handlers[s.notes[k].msg.origin].session
  {
    InitHasInv(prefix);
    RunKeepsRecorded(Init(prefix), acts, s);
    HitHasOrigin(s, k, n);
    var g, h := s.store[n].origin.value, s.notes[k].msg.origin;
    if s.handlers[g].session == s.handlers[h].session {
      assert HandlerOk(s, g) && HandlerOk(s, h);
      IdsAreOwn(s, g, h);
    }
  }

  // ----- runs in which nothing straddles a change of session

  /** If no task or elapsed-time message straddles a reconnect to another session, the non-empty
      server ids of a client's store are pairwise distinct, so GetByServerId does not depend on
      the order of the map. Reconnecting to the same session is always allowed. */
  lemma ServerIdsDistinct(prefix: string, acts: seq<Action>, s: State, m: StoreSlot, n: StoreSlot)
    requires CleanRuns(Init(prefix), acts, s)
    requires m in s.store && n in s.store && s.store[m].client == s.store[n].client
    requires s.store[m].serverId == s.store[n].serverId != ""
    ensures m == n
  {
    InitHasInv(prefix);
    CleanRunKeepsAttributed(Init(prefix), acts, s);
    CleanRunsAreRuns(Init(prefix), acts, s);
    SameIdExactly(prefix, acts, s, m, n);
    assert RecordOk(s, m) && RecordOk(s, n);
  }

  /** In such runs an elapsed-time message updates the record of its own request or nothing:
      never a replay, never the record of another session. */
  lemma ElapsedUpdatesOwnRecord(prefix: string, acts: seq<Action>, s: State, k: TaskId, hit: Option<StoreSlot>)
    requires CleanRuns(Init(prefix), acts, s)
    requires ClientEnabled(s, ApplyElapsed(k, hit))
    ensures hit.Some? ==>
              && s.store[hit.value].origin == Some(s.notes[k].msg.origin)
              && s.store[hit.value].origin.value in s.handlers
              && ApplyClient(s, ApplyElapsed(k, hit)).store[hit.value].elapsed
                 == Some(s.handlers[s.store[hit.value].origin.value].elapsed)
  {
    InitHasInv(prefix);
    CleanRunKeepsAttributed(Init(prefix), acts, s);
    if hit.Some? { HitIsOwn(s, k, hit.value); }
  }

  /** And a record that is in the store under its server id is found: its time is stored. */
  lemma OwnRecordIsFound(prefix: string, acts: seq<Action>, s: State, k: TaskId, hit: Option<StoreSlot>, n: StoreSlot)
    requires CleanRuns(Init(prefix), acts, s)
    requires ClientEnabled(s, ApplyElapsed(k, hit))
    requires n in s.store && s.store[n].origin == Some(s.notes[k].msg.origin)
    requires s.store[n].client == s.streams[s.notes[k].stream].client && s.store[n].serverId != ""
    ensures hit == Some(n)
  {
    InitHasInv(prefix);
    CleanRunKeepsAttributed(Init(prefix), acts, s);
    OwnIdIsTheMessages(s, k, n);
    if hit.Some? {
      ServerIdsDistinct(prefix, acts, s, hit.value, n);
    }
  }

  lemma OwnIdIsTheMessages(s: State, k: TaskId, n: StoreSlot)
    requires Inv(s) && Attributed(s) && k in s.notes
    requires n in s.store && s.store[n].origin == Some(s.notes[k].msg.origin) && s.store[n].serverId != ""
    ensures s.store[n].serverId == s.notes[k].msg.id
  {
    var h := s.notes[k].msg.origin;
    assert RecordOk(s, n);
    assert At(s, Post(h), AtNote(k));
    assert PlaceOk(s, Post(h), AtNote(k));
  }

  /** And every stored time is the time the server measured for that record's request. */
  lemma StoredTimesAreOwn(prefix: string, acts: seq<Action>, s: State, n: StoreSlot)
    requires CleanRuns(Init(prefix), acts, s) && n in s.store && s.store[n].elapsed.Some?
    ensures s.store[n].origin.Some? && s.store[n].origin.value in s.handlers
    ensures s.store[n].elapsed.value == s.handlers[s.store[n].origin.value].elapsed
  {
    InitHasInv(prefix);
    CleanRunKeepsAttributed(Init(prefix), acts, s);
    assert RecordOk(s, n);
  }

  /** A task that straddles a reconnect to another session stores a record whose server id belongs
      to the old session. */
  lemma StraddlingRecordIsForeign(prefix: string, acts: seq<Action>, s: State, k: TaskId, t: StreamId, sid: SessionId, n: StoreSlot)
    requires Reached(prefix, acts, s)
    requires k in s.tasks && s.tasks[k].replied && s.tasks[k].stream in s.streams && n !in s.store
    requires t !in s.streams && sid in s.sessions && sid != s.streams[s.tasks[k].stream].session
    ensures var open := OpenStream(t, sid, s.streams[s.tasks[k].stream].client);
            && Enabled(s, open) && Straddles(s, open)
            && var s1 := Apply(s, open);
            && ClientEnabled(s1, SaveRecord(k, n))
            && var s2 := ApplyClient(s1, SaveRecord(k, n));
            && s2.store[n].serverId != "" && s2.store[n].origin.value in s2.handlers
            && s2.handlers[s2.store[n].origin.value].session != s2.streams[s2.current[s2.store[n].client]].session
  {
    ReachedHasInv(prefix, acts, s);
    TaskFact(s, k);
    var h := s.tasks[k].msg.origin;
    assert HandlerOk(s, h);
    DecimalIsCanonical(s.handlers[h].number);
  }
}
