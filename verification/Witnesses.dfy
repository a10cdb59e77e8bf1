/** Runs from the empty system that reach the two exceptional situations of the tunnel: a handler
    overtaken by its late reply, and two stored records with one server id. */
module Witnesses {
  import opened Messages
  import opened Prelude
  import opened Sequence
  import opened SessionTable
  import opened Protocol
  import opened ProtocolInvariant
  import opened ProtocolTheorems
  import opened EndToEnd

  /** A new session with a client on its first stream. */
  lemma Connect(s: State, q: Cast) returns (acts: seq<Action>, s': State)
    requires q.prefix == s.prefix && q.sid !in s.sessions && q.t !in s.streams
    requires q.h !in s.handlers && q.k !in s.tasks && q.k !in s.notes && q.n !in s.store && q.m != q.n
    ensures Runs(s, acts, s') && acts == [OpenSession(q.sid), OpenStream(q.t, q.sid, q.c)]
    ensures s' == Apply(Apply(s, OpenSession(q.sid)), OpenStream(q.t, q.sid, q.c))
    ensures Quiet(s', q) && s'.sessions[q.sid] == NewTable() && s'.tasks == s.tasks
  {
    var s1 := Apply(s, OpenSession(q.sid));
    s' := Apply(s1, OpenStream(q.t, q.sid, q.c));
    OneStep(s, OpenSession(q.sid));
    OneStep(s1, OpenStream(q.t, q.sid, q.c));
    RunsConcat(s, [OpenSession(q.sid)], s1, [OpenStream(q.t, q.sid, q.c)], s');
    acts := [OpenSession(q.sid), OpenStream(q.t, q.sid, q.c)];
    assert [OpenSession(q.sid)] + [OpenStream(q.t, q.sid, q.c)] == acts;
  }

  /** What the cast sees when its first request has been replied to. */
  function FirstReply(q: Cast, request: Request, response: Response, other: Option<StoredRecord>): Scene {
    var stream := Stream(q.sid, q.c, true, false, None, [], [], Idle);
    Replied(Sent(Scene(NewTable(), NewHandler(q.sid, request), stream, None, None, None, other), q), q, response)
  }

  lemma ConnectAndReply(s: State, q: Cast, request: Request, response: Response) returns (acts: seq<Action>, s': State)
    requires Quiet(s, q) && s.sessions[q.sid] == NewTable()
    ensures Runs(s, acts, s') && Sees(s', q, FirstReply(q, request, response, Entry(s.store, q.m)))
  {
    var stream := Stream(q.sid, q.c, true, false, None, [], [], Idle);
    var sent := Sent(Scene(NewTable(), NewHandler(q.sid, request), stream, None, None, None, Entry(s.store, q.m)), q);
    var first, s1 := ToSent(s, q, request);
    assert sent.table.channel == [Pointer(q.h)];
    var second;
    second, s' := ToReply(s1, q, sent, response);
    acts := Concat(s, first, s1, second, s');
  }

  // ----- the raced timeout

  /** The receiver finds the record; then the handler stops waiting and unlists it. */
  lemma GiveUp(s: State, q: Cast, e: Scene, m: Up) returns (acts: seq<Action>, s': State)
    requires Sees(s, q, e) && e.stream.up == [m] && e.stream.receiver.Idle? && Lookup(e.table, m.id) == Some(q.h)
    requires e.r.pc.Waiting?
    ensures Runs(s, acts, s')
    ensures Sees(s', q, e.(table := Put(e.table, e.r.id, None), r := e.r.(pc := Removed(ByTimeout)),
                           stream := e.stream.(up := [], receiver := Found(q.h, m))))
  {
    var find, s1 := Find(s, q, e, m);
    var e1 := e.(stream := e.stream.(up := [], receiver := Found(q.h, m)));
    var wake, s2 := HandlerActs(s1, q, e1, Wake(ByTimeout));
    var e2 := e1.(r := e.r.(pc := Woken(ByTimeout)));
    var remove;
    remove, s' := HandlerActs(s2, q, e2, RemoveRecord);
    acts := Concat(s, find, s1, wake, s2);
    acts := Concat(s, acts, s2, remove, s');
  }

  lemma HeldAfterGivingUp(s: State, q: Cast, e: Scene, millis: int)
    requires Sees(s, q, e) && e.r.pc == Removed(ByTimeout) && e.stream.receiver.Found? && e.stream.receiver.record == q.h
    ensures HandlerEnabled(s, q.h, WriteTimeout(millis)) && ReceiverHolds(s, q.h) && s.handlers[q.h] == e.r
  {
    assert q.t in s.streams && s.streams[q.t].receiver.Found?;
  }

  /** The receiver has found the record when the handler gives up and removes it. */
  lemma RacedTimeoutHappens(prefix: string, q: Cast, request: Request, response: Response, millis: int)
    returns (acts: seq<Action>, s: State)
    requires q.prefix == prefix && q.m != q.n
    ensures Reached(prefix, acts, s)
    ensures HandlerEnabled(s, q.h, WriteTimeout(millis)) && ReceiverHolds(s, q.h)
    ensures s.handlers[q.h].request == request && s.handlers[q.h].computed == Some(Computation(request, response))
  {
    var connect, s1 := Connect(Init(prefix), q);
    var reply, s2 := ConnectAndReply(s1, q, request, response);
    var e := FirstReply(q, request, response, Entry(s1.store, q.m));
    var m := Up(q.h, e.r.id, response);
    var giveUp;
    giveUp, s := GiveUp(s2, q, e, m);
    HeldAfterGivingUp(s, q, e.(table := Put(e.table, e.r.id, None), r := e.r.(pc := Removed(ByTimeout)),
                               stream := e.stream.(up := [], receiver := Found(q.h, m))), millis);
    acts := Concat(Init(prefix), connect, s1, reply, s2);
    acts := Concat(Init(prefix), acts, s2, giveUp, s);
  }

  /** So a whole run from the empty system ends with an answer made of two responses. */
  lemma MixedAnswerHappens(prefix: string, q: Cast, request: Request, response: Response)
    returns (acts: seq<Action>, s: State)
    requires q.prefix == prefix && q.m != q.n
    ensures Reached(prefix, acts, s) && q.h in s.handlers
    ensures s.handlers[q.h].answer == HttpAnswer(Some(""), Some(response.code), Some(response.body))
  {
    var before, s1 := RacedTimeoutHappens(prefix, q, request, response, 0);
    TimeoutAnswerExactly(prefix, before, s1, q.h, 0);
    var s2 := ApplyHandler(s1, q.h, WriteTimeout(0));
    var more, s' :| Runs(s2, more, s') && q.h in s'.handlers
                    && s'.handlers[q.h].answer == HttpAnswer(Some(""), Some(response.code), Some(response.body));
    OneStep(s1, Handle(q.h, WriteTimeout(0)));
    acts := Concat(Init(prefix), before, s1, [Handle(q.h, WriteTimeout(0))], s2);
    acts := Concat(Init(prefix), acts, s2, more, s');
    s := s';
  }

  lemma StopsWaiting(s: State, h: HandlerId, cause: Cause) returns (s2: State)
    requires h in s.handlers && s.handlers[h].session in s.sessions && s.handlers[h].pc.Waiting? && cause != ByResponse
    ensures Runs(s, [Handle(h, Wake(cause)), Handle(h, RemoveRecord)], s2)
    ensures h in s2.handlers && s2.handlers[h] == s.handlers[h].(pc := Removed(cause)) && s2.handlers[h].session in s2.sessions
  {
    var s1 := ApplyHandler(s, h, Wake(cause));
    s2 := ApplyHandler(s1, h, RemoveRecord);
    assert Runs(s2, [], s2);
    RunsTwo(s, Handle(h, Wake(cause)), Handle(h, RemoveRecord), [], s2);
  }

  lemma WritesAndReads(s: State, h: HandlerId, cause: Cause, millis: int) returns (s': State)
    requires h in s.handlers && s.handlers[h].session in s.sessions && s.handlers[h].pc == Removed(cause) && cause != ByResponse
    requires NothingRead(s.handlers[h].answer)
    ensures Runs(s, [Handle(h, WriteTimeout(millis)), Handle(h, ReadHeader), Handle(h, ReadCode), Handle(h, ReadBody)], s')
    ensures h in s'.handlers && s'.handlers[h].pc.Finished?
    ensures s'.handlers[h].answer == HttpAnswer(Some(""), Some(504), Some("Gateway Timeout"))
  {
    var s1 := ApplyHandler(s, h, WriteTimeout(millis));
    var s2 := ApplyHandler(s1, h, ReadHeader);
    s' := ReadRest(s2, h);
    RunsTwo(s, Handle(h, WriteTimeout(millis)), Handle(h, ReadHeader), [Handle(h, ReadCode), Handle(h, ReadBody)], s');
  }

  /** The select is free: a waiting handler may give up at any time, even with its reply already
      there, and if it is not interrupted it then answers the 504. */
  lemma WaitingMayGiveUp(prefix: string, acts: seq<Action>, s: State, h: HandlerId, cause: Cause, millis: int) returns (s': State)
    requires Reached(prefix, acts, s) && h in s.handlers && s.handlers[h].pc.Waiting? && cause != ByResponse
    ensures Runs(s, [Handle(h, Wake(cause)), Handle(h, RemoveRecord)]
                    + [Handle(h, WriteTimeout(millis)), Handle(h, ReadHeader), Handle(h, ReadCode), Handle(h, ReadBody)], s')
    ensures h in s'.handlers && s'.handlers[h].pc.Finished?
    ensures s'.handlers[h].answer == HttpAnswer(Some(""), Some(504), Some("Gateway Timeout"))
  {
    ReachedHasInv(prefix, acts, s);
    assert HandlerOk(s, h);
    var s2 := StopsWaiting(s, h, cause);
    s' := WritesAndReads(s2, h, cause, millis);
    RunsConcat(s, [Handle(h, Wake(cause)), Handle(h, RemoveRecord)], s2,
               [Handle(h, WriteTimeout(millis)), Handle(h, ReadHeader), Handle(h, ReadCode), Handle(h, ReadBody)], s');
  }

  // ----- two records with one server id

  /** A first session's request has been replied to and not yet stored. */
  lemma RepliedUnstored(prefix: string, request: Request, response: Response) returns (acts: seq<Action>, s: State, p: Cast, task: Task)
    ensures Reached(prefix, acts, s) && p.prefix == s.prefix == prefix
    ensures Entry(s.tasks, p.k) == Some(task) && task.replied && task.msg.origin == p.h && p.h in s.handlers
    ensures task.msg.id == NextId(NewTable<Queued, HandlerId>(), prefix)
    ensures task.stream == p.t && p.t in s.streams && s.streams[p.t].client == p.c && p.n !in s.store
  {
    p := Cast(prefix, 0, 0, 0, 0, 0, 0, 1);
    var connect, s1 := Connect(Init(prefix), p);
    var reply;
    reply, s := ConnectAndReply(s1, p, request, response);
    task := FirstReply(p, request, response, Entry(s1.store, p.m)).task.value;
    acts := Concat(Init(prefix), connect, s1, reply, s);
  }

  /** The client connects to a second session, and the request is stored then. */
  lemma StoredLate(prefix: string, request: Request, response: Response) returns (acts: seq<Action>, s: State, q: Cast)
    ensures Reached(prefix, acts, s) && Quiet(s, q) && q.prefix == prefix && s.sessions[q.sid] == NewTable()
    ensures q.m in s.store && s.store[q.m].client == q.c && s.store[q.m].serverId == NextId(NewTable<Queued, HandlerId>(), prefix)
    ensures s.store[q.m].origin.Some? && s.store[q.m].origin.value in s.handlers
  {
    var reply, s1, p, task := RepliedUnstored(prefix, request, response);
    q := NextCast(s1, p);
    var again, s2 := Connect(s1, q);
    var late;
    late, s := SaveLate(s2, p.k, q, task);
    acts := Concat(Init(prefix), reply, s1, again, s2);
    acts := Concat(Init(prefix), acts, s2, late, s);
  }

  /** The same client, on a stream of a session nobody has used. */
  lemma NextCast(s: State, p: Cast) returns (q: Cast)
    ensures q.prefix == p.prefix && q.c == p.c && q.m == p.n && q.n !in s.store && q.m != q.n
    ensures q.sid !in s.sessions && q.t !in s.streams && q.h !in s.handlers && q.k !in s.tasks && q.k !in s.notes
    ensures q.t != p.t && q.sid != p.sid && q.k != p.k && q.h != p.h
  {
    var sid := Unused(s.sessions.Keys + {p.sid});
    var t := Unused(s.streams.Keys + {p.t});
    var h := Unused(s.handlers.Keys + {p.h});
    var k := Unused(s.tasks.Keys + s.notes.Keys + {p.k});
    var n := Unused(s.store.Keys + {p.n});
    q := Cast(p.prefix, sid, h, t, p.c, k, n, p.n);
  }

  /** A finished task of another stream stores its record in the cast's other slot. */
  lemma SaveLate(s: State, k: TaskId, q: Cast, task: Task) returns (acts: seq<Action>, s': State)
    requires Quiet(s, q) && k != q.k && Entry(s.tasks, k) == Some(task) && task.replied && q.m !in s.store
    requires task.stream in s.streams && s.streams[task.stream].client == q.c
    ensures Runs(s, acts, s') && Quiet(s', q) && s'.sessions == s.sessions && s'.handlers == s.handlers
    ensures q.m in s'.store && s'.store[q.m] == StoredRecord(q.c, task.msg.id, Some(task.msg.origin), None)
  {
    s' := ApplyClient(s, SaveRecord(k, q.m));
    OneStep(s, Deliver(SaveRecord(k, q.m)));
    acts := [Deliver(SaveRecord(k, q.m))];
  }

  /** Its first request answered, and the time queued for the client. */
  predicate TimeQueued(q: Cast, e: Scene, other: Option<StoredRecord>, millis: int) {
    && e.task.Some? && e.task.value.replied && e.task.value.stream == q.t
    && e.task.value.msg.origin == q.h && e.task.value.msg.id == NextId(NewTable<Queued, HandlerId>(), q.prefix)
    && e.stored.None? && e.note.None? && e.other == other
    && e.stream.down == [] && e.stream.hand.None? && !e.stream.senderEnded
    && e.table.channel == [Elapsed(q.h, e.task.value.msg.id, millis)]
  }

  /** What the receiver and the handler need to see of a first reply. */
  lemma FirstReplyFacts(q: Cast, request: Request, response: Response, other: Option<StoredRecord>)
    ensures var e := FirstReply(q, request, response, other);
            && e.stream == Stream(q.sid, q.c, true, false, None, [], [Up(q.h, e.r.id, response)], Idle)
            && Lookup(e.table, e.r.id) == Some(q.h) && e.table.channel == [] && !e.table.closed
            && e.r.pc.Waiting? && e.r.answer == HttpAnswer(None, None, None)
            && e.r.id == NextId(NewTable<Queued, HandlerId>(), q.prefix)
            && e.task == Some(Task(q.t, Down(q.h, e.r.id, REQUEST, request, 0), Some(response), true))
            && e.note.None? && e.stored.None? && e.other == other
  {
  }

  lemma AnsweredQueuesTime(q: Cast, e: Scene, response: Response, millis: int)
    requires e.stream == Stream(q.sid, q.c, true, false, None, [], [Up(q.h, e.r.id, response)], Idle)
    requires e.table.channel == [] && e.r.id == NextId(NewTable<Queued, HandlerId>(), q.prefix)
    requires e.task.Some? && e.task.value.replied && e.task.value.stream == q.t
    requires e.task.value.msg.origin == q.h && e.task.value.msg.id == e.r.id && e.note.None? && e.stored.None?
    ensures TimeQueued(q, Answered(e, q, response, millis), e.other, millis)
  {
  }

  lemma ToTimeQueued(s: State, q: Cast, request: Request, response: Response, other: Option<StoredRecord>, millis: int)
    returns (acts: seq<Action>, s': State, e: Scene)
    requires Sees(s, q, FirstReply(q, request, response, other))
    ensures Runs(s, acts, s') && Sees(s', q, e) && TimeQueued(q, e, other, millis)
  {
    var replied := FirstReply(q, request, response, other);
    FirstReplyFacts(q, request, response, other);
    acts, s' := ToAnswer(s, q, replied, Up(q.h, replied.r.id, response), millis);
    AnsweredQueuesTime(q, replied, response, millis);
    e := Answered(replied, q, response, millis);
  }

  lemma ReplyToNote(s: State, q: Cast, request: Request, response: Response, other: Option<StoredRecord>, millis: int)
    returns (acts: seq<Action>, s': State)
    requires Sees(s, q, FirstReply(q, request, response, other))
    ensures Runs(s, acts, s')
    ensures var id := NextId(NewTable<Queued, HandlerId>(), q.prefix);
            && q.t in s'.streams && s'.streams[q.t].client == q.c && q.m != q.n
            && Entry(s'.notes, q.k) == Some(Note(q.t, Down(q.h, id, POST_RESPONSE, Request("", "", ""), millis)))
            && Entry(s'.store, q.n) == Some(StoredRecord(q.c, id, Some(q.h), None)) && Entry(s'.store, q.m) == other
  {
    var answer, s1, e := ToTimeQueued(s, q, request, response, other, millis);
    var note;
    note, s' := ToNote(s1, q, e, millis);
    acts := Concat(s, answer, s1, note, s');
  }

  /** A request that straddles a change of session can take another request's time: two records
      of one client have the same server id, the search may return either, and one is wrong. */
  lemma ConfusedHitHappens(prefix: string, request: Request, response: Response, millis: int)
    returns (acts: seq<Action>, s: State, k: TaskId, m: StoreSlot, n: StoreSlot)
    ensures Reached(prefix, acts, s)
    ensures m != n && m in s.store && n in s.store && s.store[m].client == s.store[n].client
    ensures s.store[m].serverId == s.store[n].serverId != ""
    ensures ClientEnabled(s, ApplyElapsed(k, Some(n))) && s.store[n].origin == Some(s.notes[k].msg.origin)
    ensures ClientEnabled(s, ApplyElapsed(k, Some(m))) && s.store[m].origin != Some(s.notes[k].msg.origin)
    ensures ApplyClient(s, ApplyElapsed(k, Some(m))).store[m].elapsed == Some(millis)
  {
    var before, s1, q := StoredLate(prefix, request, response);
    var other := Entry(s1.store, q.m);
    var reply, s2 := ConnectAndReply(s1, q, request, response);
    var note;
    note, s := ReplyToNote(s2, q, request, response, other, millis);
    acts := Concat(Init(prefix), before, s1, reply, s2);
    acts := Concat(Init(prefix), acts, s2, note, s);
    k, m, n := q.k, q.m, q.n;
    assert s.store[m] == other.value;
    DecimalIsCanonical(After(1));
  }
}
