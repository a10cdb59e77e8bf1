/** The tunnel works: from any state in which a client is connected and idle, a run of single
    steps takes a new request to its own answer, stores it at the client and dates it there. */
module EndToEnd {
  import opened Messages
  import opened Prelude
  import opened Sequence
  import opened SessionTable
  import opened Protocol

  /** Who takes part; `m` is a slot of the store that has no part in it. */
  datatype Cast = Cast(
    prefix: string, sid: SessionId, h: HandlerId, t: StreamId, c: ClientId, k: TaskId, n: StoreSlot, m: StoreSlot)

  /** The part of a state they touch. */
  datatype Scene = Scene(
    table: Table<Queued, HandlerId>,
    r: Handler,
    stream: Stream,
    task: Option<Task>,
    note: Option<Note>,
    stored: Option<StoredRecord>,
    other: Option<StoredRecord>)

  function Entry<K, V>(m: map<K, V>, key: K): Option<V> {
    if key in m then Some(m[key]) else None
  }

  predicate Sees(s: State, q: Cast, e: Scene) {
    && s.prefix == q.prefix
    && Entry(s.sessions, q.sid) == Some(e.table)
    && Entry(s.handlers, q.h) == Some(e.r) && e.r.session == q.sid
    && Entry(s.streams, q.t) == Some(e.stream) && e.stream.session == q.sid && e.stream.client == q.c && e.stream.connected
    && Entry(s.current, q.c) == Some(q.t)
    && Entry(s.tasks, q.k) == e.task && Entry(s.notes, q.k) == e.note
    && Entry(s.store, q.n) == e.stored && Entry(s.store, q.m) == e.other && q.m != q.n
  }

  lemma {:induction false} RunsConcat(s: State, first: seq<Action>, mid: State, second: seq<Action>, s': State)
    requires Runs(s, first, mid) && Runs(mid, second, s')
    ensures Runs(s, first + second, s')
    decreases |first|
  {
    if first == [] {
      assert first + second == second;
    } else {
      RunsConcat(Apply(s, first[0]), first[1..], mid, second, s');
      assert (first + second)[1..] == first[1..] + second;
    }
  }

  lemma OneStep(s: State, a: Action)
    requires Enabled(s, a)
    ensures Runs(s, [a], Apply(s, a))
  {
    assert [a][1..] == [];
    assert Runs(Apply(s, a), [], Apply(s, a));
  }

  lemma Concat(s: State, first: seq<Action>, mid: State, second: seq<Action>, s': State) returns (acts: seq<Action>)
    requires Runs(s, first, mid) && Runs(mid, second, s')
    ensures Runs(s, acts, s')
  {
    RunsConcat(s, first, mid, second, s');
    acts := first + second;
  }

  // ----- the acts

  function NewHandler(sid: SessionId, request: Request): Handler {
    Handler(sid, request, 0, "", Accepted, REQUEST, None, false, 0, HttpAnswer(None, None, None), None, false)
  }

  /** One step of the handler, seen by the cast. */
  lemma HandlerActs(s: State, q: Cast, e: Scene, step: HandlerStep) returns (acts: seq<Action>, s': State)
    requires Sees(s, q, e) && HandlerEnabled(s, q.h, step)
    ensures Runs(s, acts, s')
    ensures Sees(s', q, e.(table := TableAfter(s, q.h, step), r := HandlerAfter(s, q.h, step)))
  {
    acts, s' := [Handle(q.h, step)], ApplyHandler(s, q.h, step);
    OneStep(s, Handle(q.h, step));
    assert HandlerAfter(s, q.h, step).session == e.r.session;
  }

  lemma NumberAndList(s: State, q: Cast, e: Scene) returns (acts: seq<Action>, s': State)
    requires Sees(s, q, e) && e.r.pc.Accepted? && e.table.issued + 1 < UINT32_RANGE && CanSend(e.table)
    ensures Runs(s, acts, s')
    ensures var id := NextId(e.table, q.prefix);
            Sees(s', q, e.(table := Send(Put(Number(e.table), id, Some(q.h)), Pointer(q.h)),
                           r := e.r.(number := After(e.table.issued + 1), id := id, pc := Waiting)))
  {
    var id := NextId(e.table, q.prefix);
    var take, s1 := HandlerActs(s, q, e, TakeNumber);
    var e1 := e.(table := Number(e.table), r := e.r.(number := After(e.table.issued + 1), id := id, pc := Numbered));
    var list, s2 := HandlerActs(s1, q, e1, StoreRecord);
    var e2 := e1.(table := Put(e1.table, id, Some(q.h)), r := e1.r.(pc := Stored));
    var send;
    send, s' := HandlerActs(s2, q, e2, Publish);
    acts := Concat(s, take, s1, list, s2);
    acts := Concat(s, acts, s2, send, s');
  }

  /** The sender takes the front of the channel and puts it on the wire. */
  lemma Transport(s: State, q: Cast, e: Scene) returns (acts: seq<Action>, s': State)
    requires Sees(s, q, e) && !e.stream.senderEnded && e.stream.hand.None? && e.stream.down == []
    requires e.table.channel != [] && e.table.channel[0].record == q.h
    ensures Runs(s, acts, s')
    ensures Sees(s', q, e.(table := Drain(e.table), stream := e.stream.(down := [MarshalOne(e.r, e.table.channel[0])])))
  {
    var s1 := ApplyStream(s, q.t, Dequeue);
    assert Sees(s1, q, e.(table := Drain(e.table), stream := e.stream.(hand := Some(e.table.channel[0]))));
    s' := ApplyStream(s1, q.t, Transmit);
    assert e.stream.down + [MarshalOne(e.r, e.table.channel[0])] == [MarshalOne(e.r, e.table.channel[0])];
    OneStep(s, Carry(q.t, Dequeue));
    OneStep(s1, Carry(q.t, Transmit));
    RunsConcat(s, [Carry(q.t, Dequeue)], s1, [Carry(q.t, Transmit)], s');
    assert [Carry(q.t, Dequeue)] + [Carry(q.t, Transmit)] == [Carry(q.t, Dequeue), Carry(q.t, Transmit)];
    acts := [Carry(q.t, Dequeue), Carry(q.t, Transmit)];
  }

  function MarshalOne(r: Handler, m: Queued): Down {
    match m
    case Pointer(h) => Down(h, r.id, r.step, r.request, 0)
    case Elapsed(h, id, millis) => Down(h, id, POST_RESPONSE, Request("", "", ""), millis)
  }

  lemma TakeRequest(s: State, q: Cast, e: Scene, msg: Down) returns (acts: seq<Action>, s': State)
    requires Sees(s, q, e) && e.stream.down == [msg] && msg.step == REQUEST && e.task.None?
    ensures Runs(s, acts, s') && Sees(s', q, e.(stream := e.stream.(down := []), task := Some(Task(q.t, msg, None, false))))
  {
    assert e.stream.down[1..] == [];
    s' := ApplyClient(s, DeliverRequest(q.t, q.k));
    OneStep(s, Deliver(DeliverRequest(q.t, q.k)));
    acts := [Deliver(DeliverRequest(q.t, q.k))];
  }

  lemma Proxy(s: State, q: Cast, e: Scene, msg: Down, response: Response) returns (acts: seq<Action>, s': State)
    requires Sees(s, q, e) && e.task == Some(Task(q.t, msg, None, false)) && msg.origin == q.h
    ensures Runs(s, acts, s')
    ensures Sees(s', q, e.(r := e.r.(computed := Some(Computation(msg.request, response))),
                           task := Some(Task(q.t, msg, Some(response), false))))
  {
    s' := ApplyClient(s, Compute(q.k, response));
    OneStep(s, Deliver(Compute(q.k, response)));
    acts := [Deliver(Compute(q.k, response))];
  }

  lemma Reply(s: State, q: Cast, e: Scene, msg: Down, response: Response) returns (acts: seq<Action>, s': State)
    requires Sees(s, q, e) && e.task == Some(Task(q.t, msg, Some(response), false)) && e.stream.up == []
    ensures Runs(s, acts, s')
    ensures Sees(s', q, e.(stream := e.stream.(up := [Up(msg.origin, msg.id, response)]),
                           task := Some(Task(q.t, msg, Some(response), true))))
  {
    s' := ApplyClient(s, SendReply(q.k));
    assert e.stream.up + [Up(msg.origin, msg.id, response)] == [Up(msg.origin, msg.id, response)];
    OneStep(s, Deliver(SendReply(q.k)));
    acts := [Deliver(SendReply(q.k))];
  }

  /** The client takes the request, proxies it and replies. */
  lemma Serve(s: State, q: Cast, e: Scene, msg: Down, response: Response) returns (acts: seq<Action>, s': State)
    requires Sees(s, q, e) && e.stream.down == [msg] && msg.step == REQUEST && msg.origin == q.h && e.task.None? && e.stream.up == []
    ensures Runs(s, acts, s')
    ensures Sees(s', q, e.(r := e.r.(computed := Some(Computation(msg.request, response))),
                           stream := e.stream.(down := [], up := [Up(q.h, msg.id, response)]),
                           task := Some(Task(q.t, msg, Some(response), true))))
  {
    var take, s1 := TakeRequest(s, q, e, msg);
    var e1 := e.(stream := e.stream.(down := []), task := Some(Task(q.t, msg, None, false)));
    var proxy, s2 := Proxy(s1, q, e1, msg, response);
    var e2 := e1.(r := e.r.(computed := Some(Computation(msg.request, response))), task := Some(Task(q.t, msg, Some(response), false)));
    var reply;
    reply, s' := Reply(s2, q, e2, msg, response);
    acts := Concat(s, take, s1, proxy, s2);
    acts := Concat(s, acts, s2, reply, s');
  }

  /** The receiver takes the reply and finds the record. */
  lemma Find(s: State, q: Cast, e: Scene, m: Up) returns (acts: seq<Action>, s': State)
    requires Sees(s, q, e) && e.stream.up == [m] && e.stream.receiver.Idle? && Lookup(e.table, m.id) == Some(q.h)
    ensures Runs(s, acts, s')
    ensures Sees(s', q, e.(stream := e.stream.(up := [], receiver := Found(q.h, m))))
  {
    assert e.stream.up[1..] == [];
    var s1 := ApplyReceiver(s, q.t, Receive);
    assert Sees(s1, q, e.(stream := e.stream.(up := [], receiver := Got(m))));
    s' := ApplyReceiver(s1, q.t, LookUp);
    OneStep(s, Answer(q.t, Receive));
    OneStep(s1, Answer(q.t, LookUp));
    RunsConcat(s, [Answer(q.t, Receive)], s1, [Answer(q.t, LookUp)], s');
    assert [Answer(q.t, Receive)] + [Answer(q.t, LookUp)] == [Answer(q.t, Receive), Answer(q.t, LookUp)];
    acts := [Answer(q.t, Receive), Answer(q.t, LookUp)];
  }

  lemma Fill(s: State, q: Cast, e: Scene, m: Up) returns (acts: seq<Action>, s': State)
    requires Sees(s, q, e) && e.stream.receiver == Found(q.h, m)
    ensures Runs(s, acts, s')
    ensures Sees(s', q, e.(r := e.r.(step := RESPONSE, response := Some(m.response)), stream := e.stream.(receiver := Assigned(q.h, m))))
  {
    s' := ApplyReceiver(s, q.t, Assign);
    OneStep(s, Answer(q.t, Assign));
    acts := [Answer(q.t, Assign)];
  }

  lemma CloseSignal(s: State, q: Cast, e: Scene, m: Up) returns (acts: seq<Action>, s': State)
    requires Sees(s, q, e) && e.stream.receiver == Assigned(q.h, m)
    ensures Runs(s, acts, s') && Sees(s', q, e.(r := e.r.(signalled := true), stream := e.stream.(receiver := Idle)))
  {
    s' := ApplyReceiver(s, q.t, SignalResponse);
    OneStep(s, Answer(q.t, SignalResponse));
    acts := [Answer(q.t, SignalResponse)];
  }

  /** The receiver fills the record and closes the signal; the handler wakes up. */
  lemma AssignAndWake(s: State, q: Cast, e: Scene, m: Up) returns (acts: seq<Action>, s': State)
    requires Sees(s, q, e) && e.stream.receiver == Found(q.h, m) && e.r.pc.Waiting?
    ensures Runs(s, acts, s')
    ensures Sees(s', q, e.(r := e.r.(step := RESPONSE, response := Some(m.response), signalled := true, pc := Woken(ByResponse)),
                           stream := e.stream.(receiver := Idle)))
  {
    var fill, s1 := Fill(s, q, e, m);
    var e1 := e.(r := e.r.(step := RESPONSE, response := Some(m.response)), stream := e.stream.(receiver := Assigned(q.h, m)));
    var close, s2 := CloseSignal(s1, q, e1, m);
    var e2 := e1.(r := e1.r.(signalled := true), stream := e.stream.(receiver := Idle));
    var wake;
    wake, s' := HandlerActs(s2, q, e2, Wake(ByResponse));
    acts := Concat(s, fill, s1, close, s2);
    acts := Concat(s, acts, s2, wake, s');
  }

  /** The handler unlists the record, dates it and sends the time to the client. */
  lemma Settle(s: State, q: Cast, e: Scene, millis: int) returns (acts: seq<Action>, s': State)
    requires Sees(s, q, e) && e.r.pc == Woken(ByResponse) && e.r.response.Some? && CanSend(e.table)
    ensures Runs(s, acts, s')
    ensures Sees(s', q, e.(table := Send(Put(e.table, e.r.id, None), Elapsed(q.h, e.r.id, millis)),
                           r := e.r.(elapsed := millis, pc := Answering(ByResponse))))
  {
    var remove, s1 := HandlerActs(s, q, e, RemoveRecord);
    var e1 := e.(table := Put(e.table, e.r.id, None), r := e.r.(pc := Removed(ByResponse)));
    var date, s2 := HandlerActs(s1, q, e1, WriteElapsed(millis));
    var e2 := e1.(r := e.r.(elapsed := millis, pc := Posting));
    var post;
    post, s' := HandlerActs(s2, q, e2, PostElapsed);
    acts := Concat(s, remove, s1, date, s2);
    acts := Concat(s, acts, s2, post, s');
  }

  lemma WriteAnswer(s: State, q: Cast, e: Scene) returns (acts: seq<Action>, s': State)
    requires Sees(s, q, e) && e.r.pc.Answering? && e.r.response.Some? && e.r.answer == HttpAnswer(None, None, None)
    ensures Runs(s, acts, s')
    ensures var p := e.r.response.value;
            Sees(s', q, e.(r := e.r.(pc := Finished(e.r.pc.cause), answer := HttpAnswer(Some(p.header), Some(p.code), Some(p.body)))))
  {
    var p := e.r.response.value;
    var header, s1 := HandlerActs(s, q, e, ReadHeader);
    var e1 := e.(r := e.r.(answer := HttpAnswer(Some(p.header), None, None)));
    var code, s2 := HandlerActs(s1, q, e1, ReadCode);
    var e2 := e.(r := e.r.(answer := HttpAnswer(Some(p.header), Some(p.code), None)));
    var body;
    body, s' := HandlerActs(s2, q, e2, ReadBody);
    acts := Concat(s, header, s1, code, s2);
    acts := Concat(s, acts, s2, body, s');
  }

  lemma Save(s: State, q: Cast, e: Scene) returns (acts: seq<Action>, s': State)
    requires Sees(s, q, e) && e.task.Some? && e.task.value.replied && e.task.value.stream == q.t && e.stored.None?
    ensures Runs(s, acts, s')
    ensures var m := e.task.value.msg;
            Sees(s', q, e.(task := None, stored := Some(StoredRecord(q.c, m.id, Some(m.origin), None))))
  {
    s' := ApplyClient(s, SaveRecord(q.k, q.n));
    OneStep(s, Deliver(SaveRecord(q.k, q.n)));
    acts := [Deliver(SaveRecord(q.k, q.n))];
  }

  /** The client takes the time. */
  lemma TakeNote(s: State, q: Cast, e: Scene, msg: Down) returns (acts: seq<Action>, s': State)
    requires Sees(s, q, e) && e.stream.down == [msg] && msg.step == POST_RESPONSE && e.note.None?
    ensures Runs(s, acts, s')
    ensures Sees(s', q, e.(stream := e.stream.(down := []), note := Some(Note(q.t, msg))))
  {
    assert e.stream.down[1..] == [];
    s' := ApplyClient(s, DeliverElapsed(q.t, q.k));
    OneStep(s, Deliver(DeliverElapsed(q.t, q.k)));
    acts := [Deliver(DeliverElapsed(q.t, q.k))];
  }

  /** And dates the stored record. */
  lemma Date(s: State, q: Cast, e: Scene, msg: Down) returns (acts: seq<Action>, s': State)
    requires Sees(s, q, e) && e.note == Some(Note(q.t, msg))
    requires e.stored.Some? && e.stored.value.client == q.c && e.stored.value.serverId == msg.id
    ensures Runs(s, acts, s')
    ensures Sees(s', q, e.(note := None, stored := Some(e.stored.value.(elapsed := Some(msg.millis)))))
  {
    s' := ApplyClient(s, ApplyElapsed(q.k, Some(q.n)));
    OneStep(s, Deliver(ApplyElapsed(q.k, Some(q.n))));
    acts := [Deliver(ApplyElapsed(q.k, Some(q.n)))];
  }

  // ----- the whole play

  /** The session has room, and the client waits on a quiet stream. */
  predicate Quiet(s: State, q: Cast) {
    && s.prefix == q.prefix
    && q.sid in s.sessions && s.sessions[q.sid].channel == [] && !s.sessions[q.sid].closed
    && s.sessions[q.sid].issued + 1 < UINT32_RANGE
    && q.t in s.streams && s.streams[q.t] == Stream(q.sid, q.c, true, false, None, [], [], Idle)
    && Entry(s.current, q.c) == Some(q.t)
    && q.h !in s.handlers && q.k !in s.tasks && q.k !in s.notes && q.n !in s.store && q.m != q.n
  }

  /** A further request of the same client, below the bound on ids. */
  predicate Follows(s: State, q: Cast, next: Cast) {
    && next == q.(h := next.h, k := next.k, n := next.n)
    && q.sid in s.sessions && s.sessions[q.sid].issued + 1 < UINT32_RANGE
    && next.h !in s.handlers && next.k !in s.tasks && next.k !in s.notes && next.n !in s.store && next.m != next.n
  }

  lemma Open(s: State, q: Cast, request: Request) returns (acts: seq<Action>, s': State)
    requires Quiet(s, q)
    ensures Runs(s, acts, s')
    ensures Sees(s', q, Scene(s.sessions[q.sid], NewHandler(q.sid, request), s.streams[q.t], None, None, None, Entry(s.store, q.m)))
  {
    s' := Apply(s, Accept(q.h, q.sid, request));
    OneStep(s, Accept(q.h, q.sid, request));
    acts := [Accept(q.h, q.sid, request)];
  }

  /** The handler waits, and its record has just been listed and queued. */
  function Sent(e: Scene, q: Cast): Scene {
    var id := NextId(e.table, q.prefix);
    e.(table := Send(Put(Number(e.table), id, Some(q.h)), Pointer(q.h)),
       r := e.r.(number := After(e.table.issued + 1), id := id, pc := Waiting))
  }

  /** The request has been taken, proxied and replied to. */
  function Replied(e: Scene, q: Cast, response: Response): Scene {
    e.(table := e.table.(channel := []),
       r := e.r.(computed := Some(Computation(e.r.request, response))),
       stream := e.stream.(up := [Up(q.h, e.r.id, response)]),
       task := Some(Task(q.t, Down(q.h, e.r.id, REQUEST, e.r.request, 0), Some(response), true)))
  }

  /** The handler has answered, and its time has just been queued. */
  function Answered(e: Scene, q: Cast, p: Response, millis: int): Scene {
    e.(table := Send(Put(e.table, e.r.id, None), Elapsed(q.h, e.r.id, millis)),
       r := e.r.(step := RESPONSE, response := Some(p), signalled := true, elapsed := millis,
                 pc := Finished(ByResponse), answer := HttpAnswer(Some(p.header), Some(p.code), Some(p.body))),
       stream := e.stream.(up := []))
  }

  /** The request on the wire. */
  function Wired(e: Scene, q: Cast): Scene {
    e.(table := e.table.(channel := []), stream := e.stream.(down := [Down(q.h, e.r.id, REQUEST, e.r.request, 0)]))
  }

  lemma ToWire(s: State, q: Cast, e: Scene) returns (acts: seq<Action>, s': State)
    requires Sees(s, q, e) && e.table.channel == [Pointer(q.h)] && e.r.step == REQUEST
    requires e.stream.hand.None? && e.stream.down == [] && !e.stream.senderEnded
    ensures Runs(s, acts, s') && Sees(s', q, Wired(e, q))
  {
    acts, s' := Transport(s, q, e);
    assert e.table.channel[1..] == [];
  }

  lemma ToReply(s: State, q: Cast, e: Scene, response: Response) returns (acts: seq<Action>, s': State)
    requires Sees(s, q, e) && e.table.channel == [Pointer(q.h)] && e.task.None? && e.r.step == REQUEST
    requires e.stream == Stream(q.sid, q.c, true, false, None, [], [], Idle)
    ensures Runs(s, acts, s') && Sees(s', q, Replied(e, q, response))
  {
    var first, s1 := ToWire(s, q, e);
    var second;
    second, s' := Serve(s1, q, Wired(e, q), Wired(e, q).stream.down[0], response);
    acts := Concat(s, first, s1, second, s');
  }

  lemma ToAnswer(s: State, q: Cast, e: Scene, m: Up, millis: int) returns (acts: seq<Action>, s': State)
    requires Sees(s, q, e) && e.stream.up == [m] && e.stream.receiver.Idle? && Lookup(e.table, m.id) == Some(q.h)
    requires e.r.pc.Waiting? && e.r.answer == HttpAnswer(None, None, None) && e.table.channel == [] && !e.table.closed
    ensures Runs(s, acts, s') && Sees(s', q, Answered(e, q, m.response, millis))
  {
    var find, s1 := Find(s, q, e, m);
    var e1 := e.(stream := e.stream.(up := [], receiver := Found(q.h, m)));
    var wake, s2 := AssignAndWake(s1, q, e1, m);
    var e2 := e1.(r := e.r.(step := RESPONSE, response := Some(m.response), signalled := true, pc := Woken(ByResponse)),
                  stream := e.stream.(up := [], receiver := Idle));
    var settle, s3 := Settle(s2, q, e2, millis);
    var e3 := e2.(table := Send(Put(e.table, e.r.id, None), Elapsed(q.h, e.r.id, millis)),
                  r := e2.r.(elapsed := millis, pc := Answering(ByResponse)));
    var write;
    write, s' := WriteAnswer(s3, q, e3);
    acts := Concat(s, find, s1, wake, s2);
    acts := Concat(s, acts, s2, settle, s3);
    acts := Concat(s, acts, s3, write, s');
  }

  /** The record stored, the time taken and not yet handled. */
  function Noted(e: Scene, q: Cast, msg: Down, millis: int): Scene {
    e.(table := e.table.(channel := []), task := None, stored := Some(StoredRecord(q.c, msg.id, Some(msg.origin), None)),
       note := Some(Note(q.t, Down(q.h, msg.id, POST_RESPONSE, Request("", "", ""), millis))))
  }

  /** The time goes over the wire, and a client goroutine takes it. */
  lemma CarryTime(s: State, q: Cast, e: Scene, id: string, millis: int) returns (acts: seq<Action>, s': State)
    requires Sees(s, q, e) && e.note.None? && e.stream.down == [] && e.stream.hand.None? && !e.stream.senderEnded
    requires e.table.channel == [Elapsed(q.h, id, millis)]
    ensures Runs(s, acts, s')
    ensures Sees(s', q, e.(table := e.table.(channel := []),
                           note := Some(Note(q.t, Down(q.h, id, POST_RESPONSE, Request("", "", ""), millis)))))
  {
    var note := Down(q.h, id, POST_RESPONSE, Request("", "", ""), millis);
    var carry, s1 := Transport(s, q, e);
    assert e.table.channel[1..] == [];
    var take;
    take, s' := TakeNote(s1, q, e.(table := e.table.(channel := []), stream := e.stream.(down := [note])), note);
    acts := Concat(s, carry, s1, take, s');
  }

  lemma ToNote(s: State, q: Cast, e: Scene, millis: int) returns (acts: seq<Action>, s': State)
    requires Sees(s, q, e) && e.task.Some? && e.task.value.replied && e.task.value.stream == q.t
    requires e.stored.None? && e.note.None? && e.stream.down == [] && e.stream.hand.None? && !e.stream.senderEnded
    requires e.table.channel == [Elapsed(q.h, e.task.value.msg.id, millis)]
    ensures Runs(s, acts, s') && Sees(s', q, Noted(e, q, e.task.value.msg, millis))
  {
    var m := e.task.value.msg;
    var save, s1 := Save(s, q, e);
    var e1 := e.(task := None, stored := Some(StoredRecord(q.c, m.id, Some(m.origin), None)));
    var carry;
    carry, s' := CarryTime(s1, q, e1, m.id, millis);
    acts := Concat(s, save, s1, carry, s');
  }

  /** The client stores the record and dates it. */
  lemma ToDate(s: State, q: Cast, e: Scene, millis: int) returns (acts: seq<Action>, s': State)
    requires Sees(s, q, e) && e.task.Some? && e.task.value.replied && e.task.value.stream == q.t
    requires e.stored.None? && e.note.None? && e.stream.down == [] && e.stream.hand.None? && !e.stream.senderEnded
    requires e.table.channel == [Elapsed(q.h, e.task.value.msg.id, millis)]
    ensures Runs(s, acts, s')
    ensures var m := e.task.value.msg;
            Sees(s', q, e.(table := e.table.(channel := []), task := None,
                           stored := Some(StoredRecord(q.c, m.id, Some(m.origin), Some(millis)))))
  {
    var m := e.task.value.msg;
    var note, s1 := ToNote(s, q, e, millis);
    var date;
    date, s' := Date(s1, q, Noted(e, q, m, millis), Down(q.h, m.id, POST_RESPONSE, Request("", "", ""), millis));
    acts := Concat(s, note, s1, date, s');
  }

  lemma ToSent(s: State, q: Cast, request: Request) returns (acts: seq<Action>, s': State)
    requires Quiet(s, q)
    ensures Runs(s, acts, s')
    ensures Sees(s', q, Sent(Scene(s.sessions[q.sid], NewHandler(q.sid, request), s.streams[q.t], None, None, None, Entry(s.store, q.m)), q))
  {
    var open, s1 := Open(s, q, request);
    var send;
    send, s' := NumberAndList(s1, q, Scene(s.sessions[q.sid], NewHandler(q.sid, request), s.streams[q.t], None, None, None, Entry(s.store, q.m)));
    acts := Concat(s, open, s1, send, s');
  }

  /** How the scene ends: the answer given, the record stored and dated, the session quiet. */
  lemma FinalScene(q: Cast, start: Scene, response: Response, millis: int) returns (sent: Scene, replied: Scene, answered: Scene)
    requires start.table.channel == []
    ensures sent == Sent(start, q) && replied == Replied(sent, q, response) && answered == Answered(replied, q, response, millis)
    ensures sent.table.channel == [Pointer(q.h)] && answered.table.channel == [Elapsed(q.h, NextId(start.table, q.prefix), millis)]
    ensures answered.table.(channel := []) == Put(Number(start.table), NextId(start.table, q.prefix), None)
    ensures Lookup(replied.table, NextId(start.table, q.prefix)) == Some(q.h)
  {
    sent := Sent(start, q);
    replied := Replied(sent, q, response);
    answered := Answered(replied, q, response, millis);
    var id := NextId(start.table, q.prefix);
    assert replied.table.records[id := None] == start.table.records[id := None];
  }

  /** Whenever a client waits on a quiet stream, every request, response and time can go all the
      way: the handler answers with the client's response, the client holds the record under the
      server's id with the server's time, and the session is as quiet as before, one id further,
      ready for the next request. */
  lemma RequestIsServed(s: State, q: Cast, request: Request, response: Response, millis: int)
    returns (acts: seq<Action>, s': State)
    requires Quiet(s, q)
    ensures Runs(s, acts, s')
    ensures q.h in s'.handlers && q.n in s'.store && q.sid in s'.sessions && q.t in s'.streams
    ensures s'.handlers[q.h].session == q.sid && s'.handlers[q.h].request == request
    ensures s'.handlers[q.h].pc == Finished(ByResponse)
    ensures s'.handlers[q.h].answer == HttpAnswer(Some(response.header), Some(response.code), Some(response.body))
    ensures s'.store[q.n] == StoredRecord(q.c, NextId(s.sessions[q.sid], q.prefix), Some(q.h), Some(millis))
    ensures s'.sessions[q.sid] == Put(Number(s.sessions[q.sid]), NextId(s.sessions[q.sid], q.prefix), None)
    ensures s'.streams[q.t] == s.streams[q.t] && q.k !in s'.tasks && q.k !in s'.notes
    ensures Entry(s'.store, q.m) == Entry(s.store, q.m)
    ensures forall next :: Follows(s', q, next) ==> Quiet(s', next)
  {
    var id := NextId(s.sessions[q.sid], q.prefix);
    var start := Scene(s.sessions[q.sid], NewHandler(q.sid, request), s.streams[q.t], None, None, None, Entry(s.store, q.m));
    var sent, replied, answered := FinalScene(q, start, response, millis);
    var first, s1 := ToSent(s, q, request);
    var second, s2 := ToReply(s1, q, sent, response);
    var third, s3 := ToAnswer(s2, q, replied, Up(q.h, id, response), millis);
    var fourth;
    fourth, s' := ToDate(s3, q, answered, millis);
    acts := Concat(s, first, s1, second, s2);
    acts := Concat(s, acts, s2, third, s3);
    acts := Concat(s, acts, s3, fourth, s');
  }
}
