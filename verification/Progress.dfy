/** The tunnel never gets stuck: from every reached state in which a client is connected and its
    stream's goroutines are alive, what is under way can be worked off, and then any request can
    be served. */
module Progress {
  import opened Messages
  import opened Prelude
  import opened Protocol
  import opened ProtocolInvariant
  import opened ProtocolSteps
  import opened ProtocolTheorems
  import opened Sequence
  import opened EndToEnd

  /** The session is open and below the bound on ids, and the client reads from the stream. */
  predicate Alive(s: State, sid: SessionId, t: StreamId, c: ClientId) {
    && sid in s.sessions && !s.sessions[sid].closed && s.sessions[sid].issued + 1 < UINT32_RANGE
    && t in s.streams && s.streams[t].session == sid && s.streams[t].client == c
    && s.streams[t].connected && !s.streams[t].senderEnded && !s.streams[t].receiver.Ended?
    && Entry(s.current, c) == Some(t)
  }

  function Stage(rx: Receiver): nat {
    match rx
    case Got(_) => 3
    case Found(_, _) => 2
    case Assigned(_, _) => 1
    case _ => 0
  }

  /** What is still to be worked off, in this order of weight: channel, hand, wire, replies, receiver. */
  datatype Load = Load(queued: nat, held: nat, coming: nat, going: nat, stage: nat)

  function LoadOf(s: State, t: StreamId): Load
    requires t in s.streams && s.streams[t].session in s.sessions
  {
    var stream := s.streams[t];
    Load(|s.sessions[stream.session].channel|, if stream.hand.Some? then 1 else 0, |stream.down|, |stream.up|, Stage(stream.receiver))
  }

  predicate Lighter(a: Load, b: Load) {
    || a.queued < b.queued
    || (a.queued == b.queued
        && (|| a.held < b.held
            || (a.held == b.held
                && (|| a.coming < b.coming
                    || (a.coming == b.coming && (a.going < b.going || (a.going == b.going && a.stage < b.stage)))))))
  }

  /** The action works something off and keeps the stream alive. */
  predicate Helps(s: State, sid: SessionId, t: StreamId, c: ClientId, a: Action)
    requires Alive(s, sid, t, c)
  {
    Enabled(s, a) && Alive(Apply(s, a), sid, t, c) && Lighter(LoadOf(Apply(s, a), t), LoadOf(s, t)) && Apply(s, a).prefix == s.prefix
  }

  lemma LookUpHelps(s: State, sid: SessionId, t: StreamId, c: ClientId)
    requires Alive(s, sid, t, c) && s.streams[t].receiver.Got?
    ensures Helps(s, sid, t, c, Answer(t, LookUp))
  {
  }

  lemma AssignHelps(s: State, sid: SessionId, t: StreamId, c: ClientId)
    requires Inv(s) && Alive(s, sid, t, c) && s.streams[t].receiver.Found?
    ensures Helps(s, sid, t, c, Answer(t, Assign))
  {
    FoundFact(s, t);
  }

  lemma SignalHelps(s: State, sid: SessionId, t: StreamId, c: ClientId)
    requires Inv(s) && Alive(s, sid, t, c) && s.streams[t].receiver.Assigned?
    ensures Helps(s, sid, t, c, Answer(t, SignalResponse))
  {
    FoundFact(s, t);
  }

  lemma ReceiveHelps(s: State, sid: SessionId, t: StreamId, c: ClientId)
    requires Alive(s, sid, t, c) && s.streams[t].receiver.Idle? && s.streams[t].up != []
    ensures Helps(s, sid, t, c, Answer(t, Receive))
  {
  }

  lemma RequestHelps(s: State, sid: SessionId, t: StreamId, c: ClientId) returns (k: TaskId)
    requires Alive(s, sid, t, c) && s.streams[t].down != [] && s.streams[t].down[0].step == REQUEST
    ensures Helps(s, sid, t, c, Deliver(DeliverRequest(t, k)))
  {
    k := Unused(s.tasks.Keys);
  }

  lemma ElapsedHelps(s: State, sid: SessionId, t: StreamId, c: ClientId) returns (k: TaskId)
    requires Alive(s, sid, t, c) && s.streams[t].down != [] && s.streams[t].down[0].step == POST_RESPONSE
    ensures Helps(s, sid, t, c, Deliver(DeliverElapsed(t, k)))
  {
    k := Unused(s.notes.Keys);
  }

  lemma OtherHelps(s: State, sid: SessionId, t: StreamId, c: ClientId)
    requires Alive(s, sid, t, c) && s.streams[t].down != [] && s.streams[t].down[0].step == RESPONSE
    ensures Helps(s, sid, t, c, Deliver(DeliverOther(t)))
  {
  }

  lemma DeliverHelps(s: State, sid: SessionId, t: StreamId, c: ClientId) returns (a: Action)
    requires Alive(s, sid, t, c) && s.streams[t].down != []
    ensures Helps(s, sid, t, c, a)
  {
    match s.streams[t].down[0].step
    case REQUEST =>
      var k := RequestHelps(s, sid, t, c);
      a := Deliver(DeliverRequest(t, k));
    case POST_RESPONSE =>
      var k := ElapsedHelps(s, sid, t, c);
      a := Deliver(DeliverElapsed(t, k));
    case RESPONSE =>
      OtherHelps(s, sid, t, c);
      a := Deliver(DeliverOther(t));
  }

  lemma TransmitHelps(s: State, sid: SessionId, t: StreamId, c: ClientId)
    requires Inv(s) && Alive(s, sid, t, c) && s.streams[t].hand.Some?
    ensures Helps(s, sid, t, c, Carry(t, Transmit))
  {
    HandFact(s, t);
  }

  lemma DequeueHelps(s: State, sid: SessionId, t: StreamId, c: ClientId)
    requires Alive(s, sid, t, c) && s.streams[t].hand.None? && s.sessions[sid].channel != []
    ensures Helps(s, sid, t, c, Carry(t, Dequeue))
  {
  }

  predicate Idle(s: State, t: StreamId)
    requires t in s.streams && s.streams[t].session in s.sessions
  {
    LoadOf(s, t) == Load(0, 0, 0, 0, 0)
  }

  lemma SomethingHelps(s: State, sid: SessionId, t: StreamId, c: ClientId) returns (a: Action)
    requires Inv(s) && Alive(s, sid, t, c) && !Idle(s, t)
    ensures Helps(s, sid, t, c, a)
  {
    var stream := s.streams[t];
    if stream.receiver.Got? {
      LookUpHelps(s, sid, t, c);
      a := Answer(t, LookUp);
    } else if stream.receiver.Found? {
      AssignHelps(s, sid, t, c);
      a := Answer(t, Assign);
    } else if stream.receiver.Assigned? {
      SignalHelps(s, sid, t, c);
      a := Answer(t, SignalResponse);
    } else if stream.up != [] {
      ReceiveHelps(s, sid, t, c);
      a := Answer(t, Receive);
    } else if stream.down != [] {
      a := DeliverHelps(s, sid, t, c);
    } else if stream.hand.Some? {
      TransmitHelps(s, sid, t, c);
      a := Carry(t, Transmit);
    } else {
      DequeueHelps(s, sid, t, c);
      a := Carry(t, Dequeue);
    }
  }

  /** Everything under way on the stream can be worked off. */
  lemma {:induction false} ToIdle(s: State, sid: SessionId, t: StreamId, c: ClientId) returns (acts: seq<Action>, s': State)
    requires Inv(s) && Alive(s, sid, t, c)
    ensures Runs(s, acts, s') && Inv(s') && Alive(s', sid, t, c) && Idle(s', t) && s'.prefix == s.prefix
    decreases LoadOf(s, t).queued, LoadOf(s, t).held, LoadOf(s, t).coming, LoadOf(s, t).going, LoadOf(s, t).stage
  {
    if Idle(s, t) {
      acts, s' := [], s;
    } else {
      var a := SomethingHelps(s, sid, t, c);
      StepKeepsInv(s, a);
      var rest;
      rest, s' := ToIdle(Apply(s, a), sid, t, c);
      acts := [a] + rest;
      assert acts[1..] == rest;
    }
  }

  /** New names for a request of this client. */
  lemma NewCast(s: State, sid: SessionId, t: StreamId, c: ClientId, taken: set<HandlerId>) returns (q: Cast)
    requires Alive(s, sid, t, c) && Idle(s, t)
    ensures Quiet(s, q) && q.sid == sid && q.c == c && q.h !in taken
  {
    var h := Unused(s.handlers.Keys + taken);
    var k := Unused(s.tasks.Keys + s.notes.Keys);
    var n := Unused(s.store.Keys);
    q := Cast(s.prefix, sid, h, t, c, k, n, n + 1);
  }

  /** From an idle stream, a run serves any request under a name not in `taken`. */
  lemma ServedWhenIdle(s: State, sid: SessionId, t: StreamId, c: ClientId, taken: set<HandlerId>,
                       request: Request, response: Response, millis: int)
    returns (acts: seq<Action>, s': State, h: HandlerId, n: StoreSlot)
    requires Alive(s, sid, t, c) && Idle(s, t)
    ensures Runs(s, acts, s') && h !in taken && Served(s', sid, c, h, n, request, response, millis)
  {
    var q := NewCast(s, sid, t, c, taken);
    acts, s' := RequestIsServed(s, q, request, response, millis);
    h, n := q.h, q.n;
  }

  /** The handler answered its own request with the client's response, and the client stored that
      record and its elapsed time. */
  predicate Served(s: State, sid: SessionId, c: ClientId, h: HandlerId, n: StoreSlot,
                   request: Request, response: Response, millis: int) {
    && h in s.handlers && s.handlers[h].session == sid && s.handlers[h].request == request
    && s.handlers[h].pc == Finished(ByResponse)
    && s.handlers[h].answer == HttpAnswer(Some(response.header), Some(response.code), Some(response.body))
    && n in s.store && s.store[n].client == c && s.store[n].origin == Some(h) && s.store[n].elapsed == Some(millis)
  }

  /** In every reached state in which a client reads from a connected stream whose sender and
      receiver have not ended, whatever is queued, on the wire or in flight, a run takes any new
      request to its own response and stores it, dated, at the client. */
  lemma AlwaysServed(prefix: string, before: seq<Action>, s: State, sid: SessionId, t: StreamId, c: ClientId,
                     request: Request, response: Response, millis: int)
    returns (acts: seq<Action>, s': State, h: HandlerId, n: StoreSlot)
    requires Reached(prefix, before, s) && Alive(s, sid, t, c)
    ensures Runs(s, acts, s') && h !in s.handlers && Served(s', sid, c, h, n, request, response, millis)
  {
    ReachedHasInv(prefix, before, s);
    var work, s1 := ToIdle(s, sid, t, c);
    var serve;
    serve, s', h, n := ServedWhenIdle(s1, sid, t, c, s.handlers.Keys, request, response, millis);
    acts := Concat(s, work, s1, serve, s');
  }
}
