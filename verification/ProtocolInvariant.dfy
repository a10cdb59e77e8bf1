/** The conservation argument of the tunnel protocol: every request yields one reply token,
    one save token and one post token, each token sits in at most one place, and what is
    known about a message depends on the place of its token. */
module ProtocolInvariant {
  import opened Messages
  import opened Prelude
  import opened Sequence
  import opened SessionTable
  import opened Protocol

  /** Reply(h): the one answer h may get. Save(h): the one record a client may store for it.
      Post(h): the one elapsed-time message sent back for it. */
  datatype Token = Reply(h: HandlerId) | Save(h: HandlerId) | Post(h: HandlerId)

  datatype Place =
    | Unsent
    | Slot(sid: SessionId, i: nat)
    | Hand(t: StreamId)
    | DownSlot(t: StreamId, i: nat)
    | AtTask(k: TaskId)
    | AtNote(k: TaskId)
    | UpSlot(t: StreamId, i: nat)
    | AtReceiver(t: StreamId)
    | Applied
    | Kept(n: StoreSlot)

  predicate Carries(q: Queued, tok: Token) {
    q.record == tok.h && (q.Elapsed? <==> tok.Post?)
  }

  predicate CarriesDown(m: Down, tok: Token) {
    m.origin == tok.h && (m.step == POST_RESPONSE <==> tok.Post?)
  }

  /** The request has not been put on the channel yet. */
  predicate Unpublished(pc: Pc) {
    pc.Accepted? || pc.Numbered? || pc.Stored?
  }

  /** SendServerElapsed has not been called yet and still may be. */
  predicate Unposted(pc: Pc) {
    !pc.Answering? && !pc.Finished?
  }

  /** Token `tok` sits in place `p`. */
  predicate At(s: State, tok: Token, p: Place) {
    match p
    case Unsent => tok.h in s.handlers && if tok.Post? then Unposted(s.handlers[tok.h].pc) else Unpublished(s.handlers[tok.h].pc)
    case Slot(sid, i) => sid in s.sessions && i < |s.sessions[sid].channel| && Carries(s.sessions[sid].channel[i], tok)
    case Hand(t) => t in s.streams && s.streams[t].hand.Some? && Carries(s.streams[t].hand.value, tok)
    case DownSlot(t, i) => t in s.streams && i < |s.streams[t].down| && CarriesDown(s.streams[t].down[i], tok)
    case AtTask(k) => k in s.tasks && s.tasks[k].msg.origin == tok.h && (tok.Save? || (tok.Reply? && !s.tasks[k].replied))
    case AtNote(k) => tok.Post? && k in s.notes && s.notes[k].msg.origin == tok.h
    case UpSlot(t, i) => tok.Reply? && t in s.streams && i < |s.streams[t].up| && s.streams[t].up[i].origin == tok.h
    case AtReceiver(t) => tok.Reply? && t in s.streams && Busy(s.streams[t].receiver) && s.streams[t].receiver.msg.origin == tok.h
    case Applied => tok.Reply? && tok.h in s.handlers && s.handlers[tok.h].signalled
    case Kept(n) => tok.Save? && n in s.store && s.store[n].origin == Some(tok.h)
  }

  predicate Busy(rx: Receiver) {
    rx.Got? || rx.Found? || rx.Assigned?
  }

  /** No token is in two places. */
  ghost predicate Unique(s: State) {
    forall tok, p, q :: At(s, tok, p) && At(s, tok, q) ==> p == q
  }

  /** Nothing has been computed for the record and nobody has assigned to it. */
  predicate Fresh(r: Handler) {
    r.computed.None? && r.step == REQUEST
  }

  predicate ComputedIs(r: Handler, response: Response) {
    r.computed.Some? && r.computed.value.response == response
  }

  /** What holds about a message because of where its token is. */
  predicate PlaceOk(s: State, tok: Token, p: Place)
    requires At(s, tok, p)
  {
    && tok.h in s.handlers
    && var r := s.handlers[tok.h];
    match p
    case Unsent => tok.Post? || Fresh(r)
    case Slot(sid, i) => QueuedOk(r, sid, s.sessions[sid].channel[i])
    case Hand(t) => QueuedOk(r, s.streams[t].session, s.streams[t].hand.value)
    case DownSlot(t, i) => DownOk(r, s.streams[t].session, s.streams[t].down[i])
    case AtTask(k) => TaskOk(s, r, s.tasks[k])
    case AtNote(k) => NoteOk(s, r, s.notes[k])
    case UpSlot(t, i) => UpOk(r, s.streams[t].session, s.streams[t].up[i])
    case AtReceiver(t) => UpOk(r, s.streams[t].session, s.streams[t].receiver.msg) && ReceiverOk(r, tok.h, s.streams[t].receiver)
    case Applied => true
    case Kept(_) => true
  }

  predicate QueuedOk(r: Handler, sid: SessionId, q: Queued) {
    && r.session == sid
    && !Unpublished(r.pc)
    && match q
       case Pointer(_) => Fresh(r)
       case Elapsed(_, id, millis) => PostOk(r, id, millis)
  }

  predicate PostOk(r: Handler, id: string, millis: int) {
    id == r.id && millis == r.elapsed && (r.pc == Answering(ByResponse) || r.pc == Finished(ByResponse))
  }

  predicate DownOk(r: Handler, sid: SessionId, m: Down) {
    && r.session == sid
    && m.id == r.id
    && !Unpublished(r.pc)
    && if m.step == POST_RESPONSE then PostOk(r, m.id, m.millis)
       else m.step == REQUEST && m.request == r.request && Fresh(r)
  }

  predicate TaskOk(s: State, r: Handler, task: Task) {
    && task.stream in s.streams
    && s.streams[task.stream].session == r.session
    && task.msg.id == r.id
    && task.msg.request == r.request
    && !Unpublished(r.pc)
    && (task.replied ==> task.computed.Some?)
    && (!task.replied ==> r.step == REQUEST && if task.computed.None? then r.computed.None? else ComputedIs(r, task.computed.value))
  }

  predicate NoteOk(s: State, r: Handler, note: Note) {
    && note.stream in s.streams
    && s.streams[note.stream].session == r.session
    && PostOk(r, note.msg.id, note.msg.millis)
  }

  predicate UpOk(r: Handler, sid: SessionId, m: Up) {
    r.session == sid && m.id == r.id && !Unpublished(r.pc) && ComputedIs(r, m.response)
  }

  predicate ReceiverOk(r: Handler, h: HandlerId, rx: Receiver) {
    match rx
    case Found(record, _) => record == h && (GaveUp(r.pc) ==> r.raced)
    case Assigned(record, _) => record == h && r.response.Some?
    case _ => true
  }

  /** Every part of an answer that has been read satisfies `from`. */
  predicate PartsFrom(a: HttpAnswer, r: Response) {
    && (a.header.Some? ==> a.header.value == r.header)
    && (a.code.Some? ==> a.code.value == r.code)
    && (a.body.Some? ==> a.body.value == r.body)
  }

  /** Every part read comes from one of the two responses. */
  predicate PartsFromEither(a: HttpAnswer, r: Response, q: Response) {
    && (a.header.Some? ==> a.header.value == r.header || a.header.value == q.header)
    && (a.code.Some? ==> a.code.value == r.code || a.code.value == q.code)
    && (a.body.Some? ==> a.body.value == r.body || a.body.value == q.body)
  }

  predicate NothingRead(a: HttpAnswer) {
    a.header.None? && a.code.None? && a.body.None?
  }

  predicate EverythingRead(a: HttpAnswer) {
    a.header.Some? && a.code.Some? && a.body.Some?
  }

  function CauseOf(pc: Pc): Option<Cause> {
    match pc
    case Woken(c) => Some(c)
    case Removed(c) => Some(c)
    case Posting => Some(ByResponse)
    case Answering(c) => Some(c)
    case Finished(c) => Some(c)
    case _ => None
  }

  predicate HandlerOk(s: State, h: HandlerId)
    requires h in s.handlers
  {
    var r := s.handlers[h];
    && r.session in s.sessions
    && (!r.pc.Accepted? ==> 1 <= r.number <= s.sessions[r.session].issued && r.id == s.prefix + Decimal(r.number))
    && (r.computed.Some? ==> r.computed.value.request == r.request)
    && (r.step == RESPONSE || r.signalled ==> r.computed.Some?)
    && r.step != POST_RESPONSE
    && ResponseOk(r)
    && AnswerOk(r)
  }

  predicate ResponseOk(r: Handler) {
    && (r.response.Some? ==> ComputedIs(r, r.response.value) || (GaveUp(r.pc) && r.response.value == GATEWAY_TIMEOUT))
    && (r.signalled ==> r.response.Some?)
    && (GaveUp(r.pc) ==> r.response.Some?)
    && (GaveUp(r.pc) && !r.raced ==> r.response == Some(GATEWAY_TIMEOUT))
    && (CauseOf(r.pc) == Some(ByResponse) ==> r.signalled)
  }

  predicate AnswerOk(r: Handler) {
    && (!r.pc.Answering? && !r.pc.Finished? ==> NothingRead(r.answer))
    && (r.pc.Finished? ==> EverythingRead(r.answer))
    && (r.answer.code.Some? ==> r.answer.header.Some?)
    && (CauseOf(r.pc) == Some(ByResponse) && r.response.Some? ==> PartsFrom(r.answer, r.response.value))
    && (GaveUp(r.pc) && !r.raced ==> PartsFrom(r.answer, GATEWAY_TIMEOUT))
    && (GaveUp(r.pc) && r.computed.None? ==> PartsFrom(r.answer, GATEWAY_TIMEOUT))
    && (GaveUp(r.pc) && r.computed.Some? ==> PartsFromEither(r.answer, GATEWAY_TIMEOUT, r.computed.value.response))
  }

  /** The table holds exactly the handlers between put and remove, each under its own id. */
  ghost predicate TableOk(s: State) {
    && (forall sid, id :: sid in s.sessions && id in s.sessions[sid].records && s.sessions[sid].records[id].Some? ==>
          EntryOk(s, sid, id, s.sessions[sid].records[id].value))
    && (forall h :: h in s.handlers ==> Listed(s, h))
  }

  predicate Listed(s: State, h: HandlerId) {
    && h in s.handlers
    && var r := s.handlers[h];
    Live(r.pc) ==> r.session in s.sessions && Lookup(s.sessions[r.session], r.id) == Some(h)
  }

  predicate EntryOk(s: State, sid: SessionId, id: string, h: HandlerId) {
    h in s.handlers && s.handlers[h].session == sid && s.handlers[h].id == id && Live(s.handlers[h].pc)
  }

  /** Two numbered handlers of one session have different numbers. */
  predicate Distinct(r: Handler, q: Handler) {
    r.session == q.session && !r.pc.Accepted? && !q.pc.Accepted? ==> r.number != q.number
  }

  ghost predicate NumbersOk(s: State) {
    && (forall h, g :: h in s.handlers && g in s.handlers && h != g ==> Distinct(s.handlers[h], s.handlers[g]))
    && (forall sid :: sid in s.sessions ==> s.sessions[sid].issued < UINT32_RANGE)
  }

  ghost predicate Inv(s: State) {
    && Unique(s)
    && (forall tok, p :: At(s, tok, p) ==> PlaceOk(s, tok, p))
    && (forall h :: h in s.handlers ==> HandlerOk(s, h))
    && TableOk(s)
    && NumbersOk(s)
    && !s.fault
  }

  // ----- conservation

  /** Where a token found in `p` after the action was before it. */
  function Before(s: State, a: Action, tok: Token, p: Place): Place
    requires Enabled(s, a)
  {
    match a
    case Handle(h, step) => BeforeHandler(s, h, step, tok, p)
    case Carry(t, step) => BeforeStream(s, t, step, p)
    case Deliver(step) => BeforeClient(s, step, p)
    case Answer(t, step) => BeforeReceiver(s, t, step, tok, p)
    case _ => p
  }

  function BeforeHandler(s: State, h: HandlerId, step: HandlerStep, tok: Token, p: Place): Place
    requires HandlerEnabled(s, h, step)
  {
    var sid := s.handlers[h].session;
    if (step.Publish? || step.PostElapsed?) && p == Slot(sid, |s.sessions[sid].channel|) then Unsent else p
  }

  function BeforeStream(s: State, t: StreamId, step: StreamStep, p: Place): Place
    requires StreamEnabled(s, t, step)
  {
    match step
    case Dequeue =>
      if p == Hand(t) then Slot(s.streams[t].session, 0)
      else if p.Slot? && p.sid == s.streams[t].session then Slot(p.sid, p.i + 1) else p
    case Transmit => if p == DownSlot(t, |s.streams[t].down|) then Hand(t) else p
    case _ => p
  }

  function BeforeReceiver(s: State, t: StreamId, step: ReceiverStep, tok: Token, p: Place): Place
    requires ReceiverEnabled(s, t, step)
  {
    match step
    case Receive =>
      if p == AtReceiver(t) then UpSlot(t, 0)
      else if p.UpSlot? && p.t == t then UpSlot(t, p.i + 1) else p
    case SignalResponse => if p.Applied? && s.streams[t].receiver.record == tok.h then AtReceiver(t) else p
    case _ => p
  }

  function BeforeClient(s: State, step: ClientStep, p: Place): Place
    requires ClientEnabled(s, step)
  {
    match step
    case DeliverRequest(t, k) =>
      if p == AtTask(k) then DownSlot(t, 0)
      else if p.DownSlot? && p.t == t then DownSlot(t, p.i + 1) else p
    case DeliverElapsed(t, k) =>
      if p == AtNote(k) then DownSlot(t, 0)
      else if p.DownSlot? && p.t == t then DownSlot(t, p.i + 1) else p
    case DeliverOther(t) => if p.DownSlot? && p.t == t then DownSlot(t, p.i + 1) else p
    case SendReply(k) =>
      var t := s.tasks[k].stream;
      if p == UpSlot(t, |s.streams[t].up|) then AtTask(k) else p
    case SaveRecord(k, n) => if p == Kept(n) then AtTask(k) else p
    case _ => p
  }

  predicate IsNew(a: Action, tok: Token) {
    a.Accept? && a.h == tok.h
  }

  lemma BackwardHandler(s: State, h: HandlerId, step: HandlerStep, tok: Token, p: Place)
    requires HandlerEnabled(s, h, step)
    requires At(ApplyHandler(s, h, step), tok, p)
    ensures At(s, tok, BeforeHandler(s, h, step, tok, p))
  {
  }

  /** A pointer in a sender's hand is marshalled with step REQUEST. */
  predicate HandIsOrdinary(s: State, t: StreamId)
    requires t in s.streams
  {
    s.streams[t].hand.Some? ==>
      var q := s.streams[t].hand.value;
      q.record in s.handlers && (q.Pointer? ==> s.handlers[q.record].step == REQUEST)
  }

  lemma HandFact(s: State, t: StreamId)
    requires Inv(s) && t in s.streams
    ensures HandIsOrdinary(s, t)
  {
    if s.streams[t].hand.Some? {
      var q := s.streams[t].hand.value;
      var tok := if q.Pointer? then Reply(q.record) else Post(q.record);
      assert At(s, tok, Hand(t));
      assert PlaceOk(s, tok, Hand(t));
    }
  }

  /** The record a receiver found by id is the record the message is about. */
  predicate FoundIsOrigin(s: State, t: StreamId)
    requires t in s.streams
  {
    var rx := s.streams[t].receiver;
    Busy(rx) ==> rx.msg.origin in s.handlers && (!rx.Got? ==> rx.record == rx.msg.origin)
  }

  lemma FoundFact(s: State, t: StreamId)
    requires Inv(s) && t in s.streams
    ensures FoundIsOrigin(s, t)
  {
    if Busy(s.streams[t].receiver) {
      var tok := Reply(s.streams[t].receiver.msg.origin);
      assert At(s, tok, AtReceiver(t));
      assert PlaceOk(s, tok, AtReceiver(t));
    }
  }

  lemma BackwardStream(s: State, t: StreamId, step: StreamStep, tok: Token, p: Place)
    requires StreamEnabled(s, t, step) && HandIsOrdinary(s, t)
    requires At(ApplyStream(s, t, step), tok, p)
    ensures At(s, tok, BeforeStream(s, t, step, p))
  {
  }

  lemma BackwardReceiver(s: State, t: StreamId, step: ReceiverStep, tok: Token, p: Place)
    requires ReceiverEnabled(s, t, step) && FoundIsOrigin(s, t)
    requires At(ApplyReceiver(s, t, step), tok, p)
    ensures At(s, tok, BeforeReceiver(s, t, step, tok, p))
  {
  }

  lemma BackwardClient(s: State, step: ClientStep, tok: Token, p: Place)
    requires ClientEnabled(s, step)
    requires At(ApplyClient(s, step), tok, p)
    ensures At(s, tok, BeforeClient(s, step, p))
  {
    match step
    case DeliverRequest(t, k) => BackwardDeliver(s, t, k, tok, p);
    case Compute(_, _) => BackwardCompute(s, step, tok, p);
    case SendReply(_) => BackwardReply(s, step, tok, p);
    case SaveRecord(_, _) => BackwardSave(s, step, tok, p);
    case DeliverElapsed(_, _) => BackwardElapsed(s, step, tok, p);
    case ApplyElapsed(_, _) => BackwardApply(s, step, tok, p);
    case _ => BackwardRest(s, step, tok, p);
  }

  lemma BackwardDeliver(s: State, t: StreamId, k: TaskId, tok: Token, p: Place)
    requires ClientEnabled(s, DeliverRequest(t, k))
    requires At(ApplyClient(s, DeliverRequest(t, k)), tok, p)
    ensures At(s, tok, BeforeClient(s, DeliverRequest(t, k), p))
  {
  }

  lemma BackwardCompute(s: State, step: ClientStep, tok: Token, p: Place)
    requires step.Compute? && ClientEnabled(s, step)
    requires At(ApplyClient(s, step), tok, p)
    ensures At(s, tok, p)
  {
  }

  lemma BackwardReply(s: State, step: ClientStep, tok: Token, p: Place)
    requires step.SendReply? && ClientEnabled(s, step)
    requires At(ApplyClient(s, step), tok, p)
    ensures At(s, tok, BeforeClient(s, step, p))
  {
  }

  lemma BackwardSave(s: State, step: ClientStep, tok: Token, p: Place)
    requires step.SaveRecord? && ClientEnabled(s, step)
    requires At(ApplyClient(s, step), tok, p)
    ensures At(s, tok, BeforeClient(s, step, p))
  {
  }

  lemma BackwardElapsed(s: State, step: ClientStep, tok: Token, p: Place)
    requires step.DeliverElapsed? && ClientEnabled(s, step)
    requires At(ApplyClient(s, step), tok, p)
    ensures At(s, tok, BeforeClient(s, step, p))
  {
    if p != AtNote(step.k) {
      assert At(TakeDown(s, step.t), tok, p);
      BackwardTakeDown(s, step.t, tok, p);
    }
  }

  lemma BackwardApply(s: State, step: ClientStep, tok: Token, p: Place)
    requires step.ApplyElapsed? && ClientEnabled(s, step)
    requires At(ApplyClient(s, step), tok, p)
    ensures At(s, tok, p)
  {
  }

  lemma BackwardTakeDown(s: State, t: StreamId, tok: Token, p: Place)
    requires t in s.streams && s.streams[t].down != []
    ensures At(TakeDown(s, t), tok, p) ==> At(s, tok, if p.DownSlot? && p.t == t then DownSlot(t, p.i + 1) else p)
  {
  }

  lemma BackwardRest(s: State, step: ClientStep, tok: Token, p: Place)
    requires step.DeliverOther? || step.SendReplyFails? || step.Abandon? || step.Replay? || step.Forget?
    requires ClientEnabled(s, step)
    requires At(ApplyClient(s, step), tok, p)
    ensures At(s, tok, BeforeClient(s, step, p))
  {
  }

  lemma BackwardOpen(s: State, a: Action, tok: Token, p: Place)
    requires a.OpenSession? || a.CloseSession? || a.Accept? || a.OpenStream?
    requires Enabled(s, a) && !IsNew(a, tok)
    requires At(Apply(s, a), tok, p)
    ensures At(s, tok, p)
  {
  }

  /** Every token other than a new request's was somewhere before the action. */
  lemma Backward(s: State, a: Action, tok: Token, p: Place)
    requires Inv(s) && Enabled(s, a) && !IsNew(a, tok)
    requires At(Apply(s, a), tok, p)
    ensures At(s, tok, Before(s, a, tok, p))
  {
    match a
    case Handle(h, step) => BackwardHandler(s, h, step, tok, p);
    case Carry(t, step) => HandFact(s, t); BackwardStream(s, t, step, tok, p);
    case Deliver(step) => BackwardClient(s, step, tok, p);
    case Answer(t, step) => FoundFact(s, t); BackwardReceiver(s, t, step, tok, p);
    case _ => BackwardOpen(s, a, tok, p);
  }

  /** Two places a token is in after the action come from two places before it. */
  lemma BeforeInjective(s: State, a: Action, tok: Token, p: Place, q: Place)
    requires Enabled(s, a)
    requires At(Apply(s, a), tok, p) && At(Apply(s, a), tok, q)
    requires Before(s, a, tok, p) == Before(s, a, tok, q)
    ensures p == q
  {
    match a
    case Handle(h, step) => InjectiveHandler(s, h, step, tok, p, q);
    case Carry(t, step) => InjectiveStream(s, t, step, tok, p, q);
    case Deliver(step) => InjectiveClient(s, step, tok, p, q);
    case Answer(t, step) => InjectiveReceiver(s, t, step, tok, p, q);
    case _ =>
  }

  lemma InjectiveHandler(s: State, h: HandlerId, step: HandlerStep, tok: Token, p: Place, q: Place)
    requires HandlerEnabled(s, h, step)
    requires At(ApplyHandler(s, h, step), tok, p) && At(ApplyHandler(s, h, step), tok, q)
    requires BeforeHandler(s, h, step, tok, p) == BeforeHandler(s, h, step, tok, q)
    ensures p == q
  {
  }

  lemma InjectiveStream(s: State, t: StreamId, step: StreamStep, tok: Token, p: Place, q: Place)
    requires StreamEnabled(s, t, step)
    requires At(ApplyStream(s, t, step), tok, p) && At(ApplyStream(s, t, step), tok, q)
    requires BeforeStream(s, t, step, p) == BeforeStream(s, t, step, q)
    ensures p == q
  {
    match step
    case Dequeue => InjectiveDequeue(s, t, tok, p, q);
    case Transmit => InjectiveTransmit(s, t, tok, p, q);
    case _ =>
  }

  lemma InjectiveDequeue(s: State, t: StreamId, tok: Token, p: Place, q: Place)
    requires StreamEnabled(s, t, Dequeue)
    requires At(ApplyStream(s, t, Dequeue), tok, p) && At(ApplyStream(s, t, Dequeue), tok, q)
    requires BeforeStream(s, t, Dequeue, p) == BeforeStream(s, t, Dequeue, q)
    ensures p == q
  {
  }

  lemma InjectiveTransmit(s: State, t: StreamId, tok: Token, p: Place, q: Place)
    requires StreamEnabled(s, t, Transmit)
    requires At(ApplyStream(s, t, Transmit), tok, p) && At(ApplyStream(s, t, Transmit), tok, q)
    requires BeforeStream(s, t, Transmit, p) == BeforeStream(s, t, Transmit, q)
    ensures p == q
  {
  }

  lemma InjectiveReceiver(s: State, t: StreamId, step: ReceiverStep, tok: Token, p: Place, q: Place)
    requires ReceiverEnabled(s, t, step)
    requires At(ApplyReceiver(s, t, step), tok, p) && At(ApplyReceiver(s, t, step), tok, q)
    requires BeforeReceiver(s, t, step, tok, p) == BeforeReceiver(s, t, step, tok, q)
    ensures p == q
  {
    match step
    case Receive => InjectiveReceive(s, t, tok, p, q);
    case SignalResponse => InjectiveSignal(s, t, tok, p, q);
    case _ =>
  }

  lemma InjectiveReceive(s: State, t: StreamId, tok: Token, p: Place, q: Place)
    requires ReceiverEnabled(s, t, Receive)
    requires At(ApplyReceiver(s, t, Receive), tok, p) && At(ApplyReceiver(s, t, Receive), tok, q)
    requires BeforeReceiver(s, t, Receive, tok, p) == BeforeReceiver(s, t, Receive, tok, q)
    ensures p == q
  {
  }

  lemma InjectiveSignal(s: State, t: StreamId, tok: Token, p: Place, q: Place)
    requires ReceiverEnabled(s, t, SignalResponse)
    requires At(ApplyReceiver(s, t, SignalResponse), tok, p) && At(ApplyReceiver(s, t, SignalResponse), tok, q)
    requires BeforeReceiver(s, t, SignalResponse, tok, p) == BeforeReceiver(s, t, SignalResponse, tok, q)
    ensures p == q
  {
  }

  lemma InjectiveClient(s: State, step: ClientStep, tok: Token, p: Place, q: Place)
    requires ClientEnabled(s, step)
    requires At(ApplyClient(s, step), tok, p) && At(ApplyClient(s, step), tok, q)
    requires BeforeClient(s, step, p) == BeforeClient(s, step, q)
    ensures p == q
  {
    match step
    case DeliverRequest(_, _) => InjectiveDeliver(s, step, tok, p, q);
    case DeliverElapsed(_, _) => InjectiveElapsed(s, step, tok, p, q);
    case SendReply(_) => InjectiveReply(s, step, tok, p, q);
    case SaveRecord(_, _) => InjectiveSave(s, step, tok, p, q);
    case _ =>
  }

  lemma InjectiveDeliver(s: State, step: ClientStep, tok: Token, p: Place, q: Place)
    requires ClientEnabled(s, step) && step.DeliverRequest?
    requires At(ApplyClient(s, step), tok, p) && At(ApplyClient(s, step), tok, q)
    requires BeforeClient(s, step, p) == BeforeClient(s, step, q)
    ensures p == q
  {
  }

  lemma InjectiveElapsed(s: State, step: ClientStep, tok: Token, p: Place, q: Place)
    requires ClientEnabled(s, step) && step.DeliverElapsed?
    requires At(ApplyClient(s, step), tok, p) && At(ApplyClient(s, step), tok, q)
    requires BeforeClient(s, step, p) == BeforeClient(s, step, q)
    ensures p == q
  {
  }

  lemma InjectiveReply(s: State, step: ClientStep, tok: Token, p: Place, q: Place)
    requires ClientEnabled(s, step) && step.SendReply?
    requires At(ApplyClient(s, step), tok, p) && At(ApplyClient(s, step), tok, q)
    requires BeforeClient(s, step, p) == BeforeClient(s, step, q)
    ensures p == q
  {
  }

  lemma InjectiveSave(s: State, step: ClientStep, tok: Token, p: Place, q: Place)
    requires ClientEnabled(s, step) && step.SaveRecord?
    requires At(ApplyClient(s, step), tok, p) && At(ApplyClient(s, step), tok, q)
    requires BeforeClient(s, step, p) == BeforeClient(s, step, q)
    ensures p == q
  {
  }

  lemma UniqueKept(s: State, a: Action)
    requires Inv(s) && Enabled(s, a)
    ensures Unique(Apply(s, a))
  {
    forall tok, p, q | At(Apply(s, a), tok, p) && At(Apply(s, a), tok, q)
      ensures p == q
    {
      if IsNew(a, tok) {
        NewIsUnsent(s, a, tok, p);
        NewIsUnsent(s, a, tok, q);
      } else {
        Backward(s, a, tok, p);
        Backward(s, a, tok, q);
        BeforeInjective(s, a, tok, p, q);
      }
    }
  }

  /** A handler that does not exist yet has no token anywhere. */
  lemma NewIsUnsent(s: State, a: Action, tok: Token, p: Place)
    requires Inv(s) && Enabled(s, a) && IsNew(a, tok)
    requires At(Apply(s, a), tok, p)
    ensures p == Unsent
  {
    if p != Unsent {
      assert At(s, tok, p);
      assert false;
    }
  }
}
