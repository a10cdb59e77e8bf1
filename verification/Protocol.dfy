/** The tunnel protocol as a state machine: every goroutine of the server and of its
    clients moves by single steps, in any interleaving.

    Server side: one HTTP handler per request (getRecordWhenReady), one sender and one
    receiver per stream (sendServerMessage, receiveClientMessage), all working on the
    table and the channel of a session. Client side: one task per delivered request
    (handleServerRequest), one note per delivered elapsed-time message (handleServerElapsed),
    and the record store both write to. A stream may break at any time; its sender may still
    sit on the session channel afterwards. */
module Protocol {
  import opened Messages
  import opened Prelude
  import opened Sequence
  import opened SessionTable

  type SessionId = nat
  type HandlerId = nat
  type StreamId = nat
  type TaskId = nat
  type ClientId = nat
  type StoreSlot = nat

  /** What the session channel holds: a pointer to a live record, or a thin clone made by
      SendServerElapsed. A pointer is marshalled only when it is sent. */
  datatype Queued =
    | Pointer(record: HandlerId)
    | Elapsed(record: HandlerId, id: string, millis: int)

  /** A message from server to client. `origin` is history: it only
      names the handler whose history a computation is written to. */
  datatype Down = Down(origin: HandlerId, id: string, step: WireStep, request: Request, millis: int)

  /** A message from client to server, always marked RESPONSE by this client. */
  datatype Up = Up(origin: HandlerId, id: string, response: Response)

  datatype Cause = ByResponse | ByTimeout | ByCancel

  /** Where an HTTP handler is. */
  datatype Pc =
    | Accepted
    | Numbered
    | Stored
    | Waiting
    | Woken(cause: Cause)
    | Removed(cause: Cause)
    | Posting
    | Answering(cause: Cause)
    | Finished(cause: Cause)

  /** The three reads of record.Response that build the HTTP answer. */
  datatype HttpAnswer = HttpAnswer(header: Option<string>, code: Option<int>, body: Option<string>)

  /** History: which request a client worked on and what it got from its proxy. */
  datatype Computation = Computation(request: Request, response: Response)

  /** A handler together with its server record. `computed` and `raced` are history. */
  datatype Handler = Handler(
    session: SessionId,
    request: Request,
    number: nat,
    id: string,
    pc: Pc,
    step: WireStep,
    response: Option<Response>,
    signalled: bool,
    elapsed: int,
    answer: HttpAnswer,
    computed: Option<Computation>,
    raced: bool)

  /** SetRecordResponse as three steps: look the record up, assign to it, close its signal. */
  datatype Receiver =
    | Idle
    | Got(msg: Up)
    | Found(record: HandlerId, msg: Up)
    | Assigned(record: HandlerId, msg: Up)
    | Ended

  datatype Stream = Stream(
    session: SessionId,
    client: ClientId,
    connected: bool,
    senderEnded: bool,
    hand: Option<Queued>,
    down: seq<Down>,
    up: seq<Up>,
    receiver: Receiver)

  /** A client goroutine serving one request. */
  datatype Task = Task(stream: StreamId, msg: Down, computed: Option<Response>, replied: bool)

  /** A client goroutine about to handle an elapsed-time message. */
  datatype Note = Note(stream: StreamId, msg: Down)

  /** A record of a client's store. `origin` is history, None for a replay. */
  datatype StoredRecord = StoredRecord(client: ClientId, serverId: string, origin: Option<HandlerId>, elapsed: Option<int>)

  /** `current` gives the stream a client is reading from; `fault` records a Go panic
      (nil dereference or second close) inside a modelled step. */
  datatype State = State(
    prefix: string,
    sessions: map<SessionId, Table<Queued, HandlerId>>,
    handlers: map<HandlerId, Handler>,
    streams: map<StreamId, Stream>,
    tasks: map<TaskId, Task>,
    notes: map<TaskId, Note>,
    store: map<StoreSlot, StoredRecord>,
    current: map<ClientId, StreamId>,
    fault: bool)

  function Init(prefix: string): State {
    State(prefix, map[], map[], map[], map[], map[], map[], map[], false)
  }

  datatype HandlerStep =
    | TakeNumber
    | StoreRecord
    | Publish
    | Wake(cause: Cause)
    | RemoveRecord
    | WriteTimeout(millis: int)
    | WriteElapsed(millis: int)
    | PostElapsed
    | ReadHeader
    | ReadCode
    | ReadBody

  datatype StreamStep =
    | Break
    | LoseDown(kept: nat)
    | LoseUp(kept: nat)
    | Dequeue
    | Transmit
    | TransmitFails(fatal: bool)

  datatype ReceiverStep =
    | Receive
    | ReceiverEnds
    | LookUp
    | Assign
    | SignalResponse

  datatype ClientStep =
    | DeliverRequest(t: StreamId, k: TaskId)
    | DeliverElapsed(t: StreamId, k: TaskId)
    | ApplyElapsed(k: TaskId, hit: Option<StoreSlot>)
    | DeliverOther(t: StreamId)
    | Compute(k: TaskId, response: Response)
    | SendReply(k: TaskId)
    | SendReplyFails(k: TaskId)
    | SaveRecord(k: TaskId, n: StoreSlot)
    | Abandon(k: TaskId)
    | Replay(c: ClientId, n: StoreSlot)
    | Forget(n: StoreSlot)

  datatype Action =
    | OpenSession(sid: SessionId)
    | CloseSession(sid: SessionId)
    | Accept(h: HandlerId, sid: SessionId, request: Request)
    | OpenStream(t: StreamId, sid: SessionId, c: ClientId)
    | Handle(h: HandlerId, handlerStep: HandlerStep)
    | Carry(t: StreamId, streamStep: StreamStep)
    | Deliver(clientStep: ClientStep)
    | Answer(t: StreamId, receiverStep: ReceiverStep)

  // ----- guards

  predicate Live(pc: Pc) {
    pc.Stored? || pc.Waiting? || pc.Woken?
  }

  /** The handler has gone past its write of the 504. */
  predicate GaveUp(pc: Pc) {
    (pc.Answering? || pc.Finished?) && pc.cause != ByResponse
  }

  /** A client reads from the last stream it opened only. */
  predicate IsCurrent(s: State, t: StreamId)
    requires t in s.streams
  {
    s.streams[t].client in s.current && s.current[s.streams[t].client] == t
  }

  /** GetByServerId over a map in any order: some record with that id, or none if there is none. */
  predicate Finds(s: State, c: ClientId, id: string, hit: Option<StoreSlot>) {
    match hit
    case None => forall n <- s.store :: s.store[n].client == c ==> s.store[n].serverId != id
    case Some(n) => n in s.store && s.store[n].client == c && s.store[n].serverId == id
  }

  /** Some receiver has looked the record up and not yet assigned to it. */
  predicate ReceiverHolds(s: State, h: HandlerId) {
    exists t <- s.streams :: s.streams[t].receiver.Found? && s.streams[t].receiver.record == h
  }

  predicate HandlerEnabled(s: State, h: HandlerId, step: HandlerStep) {
    && h in s.handlers
    && var r := s.handlers[h];
    && r.session in s.sessions
    && var table := s.sessions[r.session];
    match step
    case TakeNumber => r.pc.Accepted? && table.issued + 1 < UINT32_RANGE
    case StoreRecord => r.pc.Numbered?
    case Publish => r.pc.Stored? && CanSend(table)
    case Wake(cause) => r.pc.Waiting? && (cause == ByResponse ==> r.signalled)
    case RemoveRecord => r.pc.Woken?
    case WriteTimeout(_) => r.pc.Removed? && r.pc.cause != ByResponse
    case WriteElapsed(_) => r.pc == Removed(ByResponse)
    case PostElapsed => r.pc.Posting? && CanSend(table)
    case ReadHeader => r.pc.Answering? && r.answer.header.None?
    case ReadCode => r.pc.Answering? && r.answer.header.Some? && r.answer.code.None?
    case ReadBody => r.pc.Answering? && r.answer.code.Some? && r.answer.body.None?
  }

  predicate StreamEnabled(s: State, t: StreamId, step: StreamStep) {
    && t in s.streams
    && var stream := s.streams[t];
    && stream.session in s.sessions
    && match step
       case Break => true
       case LoseDown(kept) => kept <= |stream.down|
       case LoseUp(kept) => kept <= |stream.up|
       case Dequeue => !stream.senderEnded && stream.hand.None? && s.sessions[stream.session].channel != []
       case Transmit => stream.connected && stream.hand.Some? && stream.hand.value.record in s.handlers
       case TransmitFails(_) => stream.hand.Some?
  }

  predicate ReceiverEnabled(s: State, t: StreamId, step: ReceiverStep) {
    && t in s.streams
    && var stream := s.streams[t];
    && stream.session in s.sessions
    && match step
       case Receive => stream.up != [] && stream.receiver.Idle?
       case ReceiverEnds => stream.receiver.Idle?
       case LookUp => stream.receiver.Got?
       case Assign => stream.receiver.Found? && stream.receiver.record in s.handlers
       case SignalResponse => stream.receiver.Assigned? && stream.receiver.record in s.handlers
  }

  predicate ClientEnabled(s: State, step: ClientStep) {
    match step
    case DeliverRequest(t, k) =>
      t in s.streams && s.streams[t].down != [] && s.streams[t].down[0].step == REQUEST && IsCurrent(s, t) && k !in s.tasks
    case DeliverElapsed(t, k) =>
      t in s.streams && s.streams[t].down != [] && s.streams[t].down[0].step == POST_RESPONSE && IsCurrent(s, t) && k !in s.notes
    case ApplyElapsed(k, hit) =>
      k in s.notes && s.notes[k].stream in s.streams
      && Finds(s, s.streams[s.notes[k].stream].client, s.notes[k].msg.id, hit)
    case DeliverOther(t) =>
      t in s.streams && s.streams[t].down != [] && s.streams[t].down[0].step == RESPONSE
    case Compute(k, _) => k in s.tasks && s.tasks[k].computed.None? && s.tasks[k].msg.origin in s.handlers
    case SendReply(k) =>
      k in s.tasks && s.tasks[k].computed.Some? && !s.tasks[k].replied
      && s.tasks[k].stream in s.streams && s.streams[s.tasks[k].stream].connected
    case SendReplyFails(k) => k in s.tasks && s.tasks[k].computed.Some? && !s.tasks[k].replied
    case SaveRecord(k, n) => k in s.tasks && s.tasks[k].replied && s.tasks[k].stream in s.streams && n !in s.store
    case Abandon(k) => k in s.tasks
    case Replay(_, n) => n !in s.store
    case Forget(n) => n in s.store
  }

  predicate Enabled(s: State, a: Action) {
    match a
    case OpenSession(sid) => sid !in s.sessions
    case CloseSession(sid) => sid in s.sessions
    case Accept(h, sid, _) => h !in s.handlers && sid in s.sessions
    case OpenStream(t, sid, _) => t !in s.streams && sid in s.sessions
    case Handle(h, step) => HandlerEnabled(s, h, step)
    case Carry(t, step) => StreamEnabled(s, t, step)
    case Deliver(step) => ClientEnabled(s, step)
    case Answer(t, step) => ReceiverEnabled(s, t, step)
  }

  // ----- effects

  function SetHandler(s: State, h: HandlerId, r: Handler): State {
    s.(handlers := s.handlers[h := r])
  }

  function SetStream(s: State, t: StreamId, r: Stream): State {
    s.(streams := s.streams[t := r])
  }

  function SetSession(s: State, sid: SessionId, r: Table<Queued, HandlerId>): State {
    s.(sessions := s.sessions[sid := r])
  }

  /** What a handler step does to the handler and its record. */
  function HandlerAfter(s: State, h: HandlerId, step: HandlerStep): Handler
    requires HandlerEnabled(s, h, step)
  {
    var r := s.handlers[h];
    var table := s.sessions[r.session];
    match step
    case TakeNumber => r.(number := After(table.issued + 1), id := NextId(table, s.prefix), pc := Numbered)
    case StoreRecord => r.(pc := Stored)
    case Publish => r.(pc := Waiting)
    case Wake(cause) => r.(pc := Woken(cause))
    case RemoveRecord => r.(pc := Removed(r.pc.cause))
    case WriteTimeout(millis) =>
      r.(pc := Answering(r.pc.cause), response := Some(GATEWAY_TIMEOUT), elapsed := millis, raced := ReceiverHolds(s, h))
    case WriteElapsed(millis) => r.(pc := Posting, elapsed := millis)
    case PostElapsed => r.(pc := Answering(ByResponse))
    case ReadHeader => if r.response.None? then r else r.(answer := r.answer.(header := Some(r.response.value.header)))
    case ReadCode => if r.response.None? then r else r.(answer := r.answer.(code := Some(r.response.value.code)))
    case ReadBody =>
      if r.response.None? then r
      else r.(answer := r.answer.(body := Some(r.response.value.body)), pc := Finished(r.pc.cause))
  }

  /** What a handler step does to the session's table. */
  function TableAfter(s: State, h: HandlerId, step: HandlerStep): Table<Queued, HandlerId>
    requires HandlerEnabled(s, h, step)
  {
    var r := s.handlers[h];
    var table := s.sessions[r.session];
    match step
    case TakeNumber => Number(table)
    case StoreRecord => Put(table, r.id, Some(h))
    case Publish => Send(table, Pointer(h))
    case RemoveRecord => Put(table, r.id, None)
    case PostElapsed => Send(table, Elapsed(h, r.id, r.elapsed))
    case _ => table
  }

  /** A nil record.Response is dereferenced. */
  predicate HandlerFaults(s: State, h: HandlerId, step: HandlerStep)
    requires HandlerEnabled(s, h, step)
  {
    s.handlers[h].response.None? && (step.WriteElapsed? || step.ReadHeader? || step.ReadCode? || step.ReadBody?)
  }

  function Marshal(s: State, q: Queued): Down
    requires q.record in s.handlers
  {
    match q
    case Pointer(h) => Down(h, s.handlers[h].id, s.handlers[h].step, s.handlers[h].request, 0)
    case Elapsed(h, id, millis) => Down(h, id, POST_RESPONSE, Request("", "", ""), millis)
  }

  function StreamAfter(s: State, t: StreamId, step: StreamStep): Stream
    requires StreamEnabled(s, t, step)
  {
    var stream := s.streams[t];
    match step
    case Break => stream.(connected := false)
    case LoseDown(kept) => stream.(down := stream.down[..kept])
    case LoseUp(kept) => stream.(up := stream.up[..kept])
    case Dequeue => stream.(hand := Some(s.sessions[stream.session].channel[0]))
    case Transmit => stream.(hand := None, down := stream.down + [Marshal(s, stream.hand.value)])
    case TransmitFails(fatal) => stream.(hand := None, senderEnded := stream.senderEnded || fatal)
  }

  function ReceiverAfter(s: State, t: StreamId, step: ReceiverStep): Stream
    requires ReceiverEnabled(s, t, step)
  {
    var stream := s.streams[t];
    match step
    case Receive => stream.(up := stream.up[1..], receiver := Got(stream.up[0]))
    case ReceiverEnds => stream.(receiver := Ended)
    case LookUp =>
      var found := Lookup(s.sessions[stream.session], stream.receiver.msg.id);
      stream.(receiver := if found.None? then Idle else Found(found.value, stream.receiver.msg))
    case Assign => stream.(receiver := Assigned(stream.receiver.record, stream.receiver.msg))
    case SignalResponse => stream.(receiver := Idle)
  }

  /** ResetServerIds on one client's store. */
  function ResetServerIds(store: map<StoreSlot, StoredRecord>, c: ClientId): map<StoreSlot, StoredRecord> {
    map n | n in store :: if store[n].client == c then store[n].(serverId := "") else store[n]
  }

  function TakeDown(s: State, t: StreamId): State
    requires t in s.streams && s.streams[t].down != []
  {
    SetStream(s, t, s.streams[t].(down := s.streams[t].down[1..]))
  }

  function ApplyClient(s: State, step: ClientStep): State
    requires ClientEnabled(s, step)
  {
    match step
    case DeliverRequest(t, k) =>
      TakeDown(s, t).(tasks := s.tasks[k := Task(t, s.streams[t].down[0], None, false)])
    case DeliverElapsed(t, k) =>
      TakeDown(s, t).(notes := s.notes[k := Note(t, s.streams[t].down[0])])
    case ApplyElapsed(k, hit) =>
      s.(notes := s.notes - {k},
         store := if hit.None? then s.store
                  else s.store[hit.value := s.store[hit.value].(elapsed := Some(s.notes[k].msg.millis))])
    case DeliverOther(t) => TakeDown(s, t)
    case Compute(k, response) =>
      var task := s.tasks[k];
      var h := task.msg.origin;
      SetHandler(s, h, s.handlers[h].(computed := Some(Computation(task.msg.request, response))))
      .(tasks := s.tasks[k := task.(computed := Some(response))])
    case SendReply(k) =>
      var task := s.tasks[k];
      var stream := s.streams[task.stream];
      SetStream(s, task.stream, stream.(up := stream.up + [Up(task.msg.origin, task.msg.id, task.computed.value)]))
      .(tasks := s.tasks[k := task.(replied := true)])
    case SendReplyFails(k) => s.(tasks := s.tasks[k := s.tasks[k].(replied := true)])
    case SaveRecord(k, n) =>
      var task := s.tasks[k];
      s.(tasks := s.tasks - {k},
         store := s.store[n := StoredRecord(s.streams[task.stream].client, task.msg.id, Some(task.msg.origin), None)])
    case Abandon(k) => s.(tasks := s.tasks - {k})
    case Replay(c, n) => s.(store := s.store[n := StoredRecord(c, "", None, None)])
    case Forget(n) => s.(store := s.store - {n})
  }

  function ApplyHandler(s: State, h: HandlerId, step: HandlerStep): State
    requires HandlerEnabled(s, h, step)
  {
    SetSession(SetHandler(s, h, HandlerAfter(s, h, step)), s.handlers[h].session, TableAfter(s, h, step))
    .(fault := s.fault || HandlerFaults(s, h, step))
  }

  function ApplyStream(s: State, t: StreamId, step: StreamStep): State
    requires StreamEnabled(s, t, step)
  {
    var next := SetStream(s, t, StreamAfter(s, t, step));
    var sid := s.streams[t].session;
    if step.Dequeue? then SetSession(next, sid, Drain(s.sessions[sid])) else next
  }

  /** Closing a signal that is already closed is a Go panic. */
  function ApplyReceiver(s: State, t: StreamId, step: ReceiverStep): State
    requires ReceiverEnabled(s, t, step)
  {
    var next := SetStream(s, t, ReceiverAfter(s, t, step));
    var rx := s.streams[t].receiver;
    match step
    case Assign => SetHandler(next, rx.record, s.handlers[rx.record].(step := RESPONSE, response := Some(rx.msg.response)))
    case SignalResponse =>
      SetHandler(next, rx.record, s.handlers[rx.record].(signalled := true))
      .(fault := s.fault || s.handlers[rx.record].signalled)
    case _ => next
  }

  function Apply(s: State, a: Action): State
    requires Enabled(s, a)
  {
    match a
    case OpenSession(sid) => SetSession(s, sid, NewTable())
    case CloseSession(sid) => SetSession(s, sid, Close(s.sessions[sid]))
    case Accept(h, sid, request) =>
      SetHandler(s, h, Handler(sid, request, 0, "", Accepted, REQUEST, None, false, 0,
                               HttpAnswer(None, None, None), None, false))
    case OpenStream(t, sid, c) =>
      SetStream(s, t, Stream(sid, c, true, false, None, [], [], Idle))
      .(current := s.current[c := t], store := ResetServerIds(s.store, c))
    case Handle(h, step) => ApplyHandler(s, h, step)
    case Carry(t, step) => ApplyStream(s, t, step)
    case Deliver(step) => ApplyClient(s, step)
    case Answer(t, step) => ApplyReceiver(s, t, step)
  }

  /** `acts` is a run from s to s'. */
  predicate Runs(s: State, acts: seq<Action>, s': State)
    decreases |acts|
  {
    if acts == [] then s' == s
    else Enabled(s, acts[0]) && Runs(Apply(s, acts[0]), acts[1..], s')
  }
}
