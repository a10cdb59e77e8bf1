/** Where messages get lost, and nowhere else: the other half of conservation, and what a loss means
    for the request. */
module Losses {
  import opened Prelude
  import opened Protocol
  import opened ProtocolInvariant
  import opened ProtocolSteps
  import opened ProtocolTheorems
  import opened SessionTable

  /** The steps that discard a token, and the place they discard it from: a send that fails, a wire
      that breaks, an abandoned or failed reply, a reply to a removed record, a message that has
      been dealt with, a forgotten record, and the time of a handler that gives up. */
  predicate Loses(s: State, a: Action, tok: Token, p: Place)
    requires Enabled(s, a)
  {
    match a
    case Handle(h, WriteTimeout(_)) => tok == Post(h) && p.Unsent?
    case Carry(t, TransmitFails(_)) => p == Hand(t)
    case Carry(t, LoseDown(kept)) => p.DownSlot? && p.t == t && p.i >= kept
    case Carry(t, LoseUp(kept)) => p.UpSlot? && p.t == t && p.i >= kept
    case Deliver(DeliverOther(t)) => p == DownSlot(t, 0)
    case Deliver(SendReplyFails(k)) => tok.Reply? && p == AtTask(k)
    case Deliver(Abandon(k)) => p == AtTask(k)
    case Deliver(ApplyElapsed(k, _)) => p == AtNote(k)
    case Deliver(Forget(n)) => p == Kept(n)
    case Answer(t, LookUp) => p == AtReceiver(t) && Lookup(s.sessions[s.streams[t].session], s.streams[t].receiver.msg.id).None?
    case _ => false
  }

  // ----- a token that is not lost

  ghost predicate Somewhere(s: State, tok: Token) {
    exists p :: At(s, tok, p)
  }

  lemma ForwardHandler(s: State, h: HandlerId, step: HandlerStep, tok: Token, p: Place)
    requires HandlerEnabled(s, h, step) && At(s, tok, p) && !(step.WriteTimeout? && tok == Post(h) && p.Unsent?)
    ensures Somewhere(ApplyHandler(s, h, step), tok)
  {
    var s' := ApplyHandler(s, h, step);
    var sid := s.handlers[h].session;
    if p.Unsent? && tok.h == h && (if tok.Post? then step.PostElapsed? else step.Publish?) {
      assert At(s', tok, Slot(sid, |s.sessions[sid].channel|));
    } else {
      assert At(s', tok, p);
    }
  }

  lemma ForwardDequeue(s: State, t: StreamId, tok: Token, p: Place)
    requires StreamEnabled(s, t, Dequeue) && At(s, tok, p)
    ensures Somewhere(ApplyStream(s, t, Dequeue), tok)
  {
    var s' := ApplyStream(s, t, Dequeue);
    if p.Slot? && p.sid == s.streams[t].session {
      assert At(s', tok, if p.i == 0 then Hand(t) else Slot(p.sid, p.i - 1));
    } else {
      assert At(s', tok, p);
    }
  }

  lemma ForwardTransmit(s: State, t: StreamId, tok: Token, p: Place)
    requires StreamEnabled(s, t, Transmit) && HandIsOrdinary(s, t) && At(s, tok, p)
    ensures Somewhere(ApplyStream(s, t, Transmit), tok)
  {
    assert At(ApplyStream(s, t, Transmit), tok, if p == Hand(t) then DownSlot(t, |s.streams[t].down|) else p);
  }

  lemma ForwardStream(s: State, t: StreamId, step: StreamStep, tok: Token, p: Place)
    requires StreamEnabled(s, t, step) && HandIsOrdinary(s, t) && At(s, tok, p) && !Loses(s, Carry(t, step), tok, p)
    ensures Somewhere(ApplyStream(s, t, step), tok)
  {
    match step
    case Dequeue => ForwardDequeue(s, t, tok, p);
    case Transmit => ForwardTransmit(s, t, tok, p);
    case _ => assert At(ApplyStream(s, t, step), tok, p);
  }

  lemma ForwardReceive(s: State, t: StreamId, tok: Token, p: Place)
    requires ReceiverEnabled(s, t, Receive) && At(s, tok, p)
    ensures Somewhere(ApplyReceiver(s, t, Receive), tok)
  {
    var s' := ApplyReceiver(s, t, Receive);
    if p.UpSlot? && p.t == t {
      assert At(s', tok, if p.i == 0 then AtReceiver(t) else UpSlot(t, p.i - 1));
    } else {
      assert At(s', tok, p);
    }
  }

  lemma ForwardSignal(s: State, t: StreamId, tok: Token, p: Place)
    requires ReceiverEnabled(s, t, SignalResponse) && FoundIsOrigin(s, t) && At(s, tok, p)
    ensures Somewhere(ApplyReceiver(s, t, SignalResponse), tok)
  {
    assert At(ApplyReceiver(s, t, SignalResponse), tok, if p == AtReceiver(t) then Applied else p);
  }

  lemma ForwardReceiver(s: State, t: StreamId, step: ReceiverStep, tok: Token, p: Place)
    requires ReceiverEnabled(s, t, step) && FoundIsOrigin(s, t) && At(s, tok, p) && !Loses(s, Answer(t, step), tok, p)
    ensures Somewhere(ApplyReceiver(s, t, step), tok)
  {
    match step
    case Receive => ForwardReceive(s, t, tok, p);
    case SignalResponse => ForwardSignal(s, t, tok, p);
    case _ => assert At(ApplyReceiver(s, t, step), tok, p);
  }

  lemma ForwardDeliver(s: State, step: ClientStep, tok: Token, p: Place)
    requires (step.DeliverRequest? || step.DeliverElapsed?) && ClientEnabled(s, step) && At(s, tok, p)
    ensures Somewhere(ApplyClient(s, step), tok)
  {
    var s' := ApplyClient(s, step);
    if p.DownSlot? && p.t == step.t {
      assert At(s', tok, if p.i > 0 then DownSlot(step.t, p.i - 1) else if step.DeliverRequest? then AtTask(step.k) else AtNote(step.k));
    } else {
      assert At(s', tok, p);
    }
  }

  lemma ForwardOther(s: State, t: StreamId, tok: Token, p: Place)
    requires ClientEnabled(s, DeliverOther(t)) && At(s, tok, p) && p != DownSlot(t, 0)
    ensures Somewhere(ApplyClient(s, DeliverOther(t)), tok)
  {
    assert At(ApplyClient(s, DeliverOther(t)), tok, if p.DownSlot? && p.t == t then DownSlot(t, p.i - 1) else p);
  }

  lemma ForwardReply(s: State, k: TaskId, tok: Token, p: Place)
    requires ClientEnabled(s, SendReply(k)) && At(s, tok, p)
    ensures Somewhere(ApplyClient(s, SendReply(k)), tok)
  {
    var t := s.tasks[k].stream;
    assert At(ApplyClient(s, SendReply(k)), tok, if p == AtTask(k) && tok.Reply? then UpSlot(t, |s.streams[t].up|) else p);
  }

  lemma ForwardSave(s: State, k: TaskId, n: StoreSlot, tok: Token, p: Place)
    requires ClientEnabled(s, SaveRecord(k, n)) && At(s, tok, p)
    ensures Somewhere(ApplyClient(s, SaveRecord(k, n)), tok)
  {
    assert At(ApplyClient(s, SaveRecord(k, n)), tok, if p == AtTask(k) then Kept(n) else p);
  }

  lemma ForwardCompute(s: State, step: ClientStep, tok: Token, p: Place)
    requires step.Compute? && ClientEnabled(s, step) && At(s, tok, p)
    ensures Somewhere(ApplyClient(s, step), tok)
  {
    assert At(ApplyClient(s, step), tok, p);
  }

  lemma ForwardRest(s: State, step: ClientStep, tok: Token, p: Place)
    requires step.ApplyElapsed? || step.SendReplyFails? || step.Abandon? || step.Replay? || step.Forget?
    requires ClientEnabled(s, step) && At(s, tok, p) && !Loses(s, Deliver(step), tok, p)
    ensures Somewhere(ApplyClient(s, step), tok)
  {
    assert At(ApplyClient(s, step), tok, p);
  }

  lemma ForwardClient(s: State, step: ClientStep, tok: Token, p: Place)
    requires ClientEnabled(s, step) && At(s, tok, p) && !Loses(s, Deliver(step), tok, p)
    ensures Somewhere(ApplyClient(s, step), tok)
  {
    match step
    case DeliverRequest(_, _) => ForwardDeliver(s, step, tok, p);
    case DeliverElapsed(_, _) => ForwardDeliver(s, step, tok, p);
    case DeliverOther(t) => ForwardOther(s, t, tok, p);
    case Compute(_, _) => ForwardCompute(s, step, tok, p);
    case SendReply(k) => ForwardReply(s, k, tok, p);
    case SaveRecord(k, n) => ForwardSave(s, k, n, tok, p);
    case _ => ForwardRest(s, step, tok, p);
  }

  lemma ForwardOpen(s: State, a: Action, tok: Token, p: Place)
    requires a.OpenSession? || a.CloseSession? || a.Accept? || a.OpenStream?
    requires Enabled(s, a) && At(s, tok, p)
    ensures Somewhere(Apply(s, a), tok)
  {
    assert At(Apply(s, a), tok, p);
  }

  lemma Forward(s: State, a: Action, tok: Token, p: Place)
    requires Inv(s) && Enabled(s, a) && At(s, tok, p) && !Loses(s, a, tok, p)
    ensures Somewhere(Apply(s, a), tok)
  {
    match a
    case Handle(h, step) => ForwardHandler(s, h, step, tok, p);
    case Carry(t, step) => HandFact(s, t); ForwardStream(s, t, step, tok, p);
    case Deliver(step) => ForwardClient(s, step, tok, p);
    case Answer(t, step) => FoundFact(s, t); ForwardReceiver(s, t, step, tok, p);
    case _ => ForwardOpen(s, a, tok, p);
  }

  // ----- a token that is lost

  lemma LostByHandler(s: State, h: HandlerId, step: HandlerStep, tok: Token, q: Place)
    requires HandlerEnabled(s, h, step) && step.WriteTimeout? && tok == Post(h) && At(s, tok, Unsent)
    requires BeforeHandler(s, h, step, tok, q) == Unsent
    ensures !At(ApplyHandler(s, h, step), tok, q)
  {
  }

  lemma LostByStream(s: State, t: StreamId, step: StreamStep, tok: Token, p: Place, q: Place)
    requires StreamEnabled(s, t, step) && At(s, tok, p) && Loses(s, Carry(t, step), tok, p)
    requires BeforeStream(s, t, step, q) == p
    ensures !At(ApplyStream(s, t, step), tok, q)
  {
  }

  lemma LostByClient(s: State, step: ClientStep, tok: Token, p: Place, q: Place)
    requires ClientEnabled(s, step) && At(s, tok, p) && Loses(s, Deliver(step), tok, p)
    requires BeforeClient(s, step, q) == p
    ensures !At(ApplyClient(s, step), tok, q)
  {
    match step
    case DeliverOther(_) =>
    case SendReplyFails(_) =>
    case Abandon(_) =>
    case ApplyElapsed(_, _) =>
    case Forget(_) =>
    case _ =>
  }

  lemma LostByReceiver(s: State, t: StreamId, tok: Token, q: Place)
    requires ReceiverEnabled(s, t, LookUp) && Loses(s, Answer(t, LookUp), tok, AtReceiver(t))
    requires BeforeReceiver(s, t, LookUp, tok, q) == AtReceiver(t)
    ensures !At(ApplyReceiver(s, t, LookUp), tok, q)
  {
  }

  lemma LostFrom(s: State, a: Action, tok: Token, p: Place, q: Place)
    requires Enabled(s, a) && At(s, tok, p) && Loses(s, a, tok, p) && Before(s, a, tok, q) == p
    ensures !At(Apply(s, a), tok, q)
  {
    match a
    case Handle(h, step) => LostByHandler(s, h, step, tok, q);
    case Carry(t, step) => LostByStream(s, t, step, tok, p, q);
    case Deliver(step) => LostByClient(s, step, tok, p, q);
    case Answer(t, step) => LostByReceiver(s, t, tok, q);
    case _ =>
  }

  lemma LostIsNowhere(s: State, a: Action, tok: Token, p: Place)
    requires Inv(s) && Enabled(s, a) && At(s, tok, p) && Loses(s, a, tok, p)
    ensures !Somewhere(Apply(s, a), tok)
  {
    assert PlaceOk(s, tok, p);
    forall q ensures !At(Apply(s, a), tok, q) {
      if At(Apply(s, a), tok, q) {
        Backward(s, a, tok, q);
        LostFrom(s, a, tok, p, q);
      }
    }
  }

  /** Conservation, both ways: in every reached state a step leaves a token in the system unless it
      is one of the losing steps and finds the token at the place it loses from. */
  lemma LostExactly(prefix: string, acts: seq<Action>, s: State, a: Action, tok: Token, p: Place)
    requires Reached(prefix, acts, s) && Enabled(s, a) && At(s, tok, p)
    ensures Somewhere(Apply(s, a), tok) <==> !Loses(s, a, tok, p)
  {
    ReachedHasInv(prefix, acts, s);
    if Loses(s, a, tok, p) {
      LostIsNowhere(s, a, tok, p);
    } else {
      Forward(s, a, tok, p);
    }
  }

  // ----- what a loss means

  lemma GoneStaysGone(s: State, a: Action, tok: Token)
    requires Inv(s) && Enabled(s, a) && tok.h in s.handlers && !Somewhere(s, tok)
    ensures !Somewhere(Apply(s, a), tok)
  {
    forall q ensures !At(Apply(s, a), tok, q) {
      if At(Apply(s, a), tok, q) {
        Backward(s, a, tok, q);
      }
    }
  }

  /** The handler is there, and was not overtaken if it gave up. */
  predicate Unraced(s: State, h: HandlerId) {
    h in s.handlers && (GaveUp(s.handlers[h].pc) ==> !s.handlers[h].raced)
  }

  lemma UnracedAfterHandler(s: State, g: HandlerId, step: HandlerStep, h: HandlerId)
    requires HandlerEnabled(s, g, step) && Unraced(s, h) && !ReceiverHolds(s, h)
    ensures Unraced(ApplyHandler(s, g, step), h)
  {
  }

  lemma UnracedAfterClient(s: State, step: ClientStep, h: HandlerId)
    requires ClientEnabled(s, step) && Unraced(s, h)
    ensures Unraced(ApplyClient(s, step), h)
  {
  }

  lemma UnracedAfterReceiver(s: State, t: StreamId, step: ReceiverStep, h: HandlerId)
    requires ReceiverEnabled(s, t, step) && Unraced(s, h)
    ensures Unraced(ApplyReceiver(s, t, step), h)
  {
  }

  lemma UnracedAfterStream(s: State, t: StreamId, step: StreamStep, h: HandlerId)
    requires StreamEnabled(s, t, step) && Unraced(s, h)
    ensures Unraced(ApplyStream(s, t, step), h)
  {
  }

  lemma UnracedAfter(s: State, a: Action, h: HandlerId)
    requires Enabled(s, a) && Unraced(s, h) && !ReceiverHolds(s, h)
    ensures Unraced(Apply(s, a), h)
  {
    match a
    case Handle(g, step) => UnracedAfterHandler(s, g, step, h);
    case Deliver(step) => UnracedAfterClient(s, step, h);
    case Answer(t, step) => UnracedAfterReceiver(s, t, step, h);
    case Carry(t, step) => UnracedAfterStream(s, t, step, h);
    case _ =>
  }

  /** The handler's reply is gone for good, and no receiver has overtaken the handler. */
  ghost predicate Doomed(s: State, h: HandlerId) {
    Inv(s) && Unraced(s, h) && !Somewhere(s, Token.Reply(h))
  }

  lemma NobodyHolds(s: State, h: HandlerId)
    requires Doomed(s, h)
    ensures !ReceiverHolds(s, h)
  {
    forall t | t in s.streams && s.streams[t].receiver.Found?
      ensures s.streams[t].receiver.record != h
    {
      FoundFact(s, t);
      assert s.streams[t].receiver.record == h ==> At(s, Token.Reply(h), AtReceiver(t));
    }
  }

  lemma {:induction false} StaysDoomed(s: State, acts: seq<Action>, s': State, h: HandlerId)
    requires Doomed(s, h) && Runs(s, acts, s')
    ensures Doomed(s', h)
    decreases |acts|
  {
    if acts != [] {
      NobodyHolds(s, h);
      UnracedAfter(s, acts[0], h);
      GoneStaysGone(s, acts[0], Token.Reply(h));
      StepKeepsInv(s, acts[0]);
      StaysDoomed(Apply(s, acts[0]), acts[1..], s', h);
    }
  }

  lemma DoomedAnswer(s: State, h: HandlerId)
    requires Doomed(s, h) && s.handlers[h].pc.Finished?
    ensures s.handlers[h].answer == HttpAnswer(Some(""), Some(504), Some("Gateway Timeout"))
  {
    assert HandlerOk(s, h);
    assert s.handlers[h].signalled ==> At(s, Token.Reply(h), Applied);
  }

  /** A request whose message, or whose reply, was lost is answered 504 and nothing else, whatever
      happens later: no step brings it back, and nobody sends it again. */
  lemma LostMeans504(prefix: string, acts: seq<Action>, s: State, h: HandlerId)
    requires Reached(prefix, acts, s) && h in s.handlers && !Somewhere(s, Token.Reply(h))
    requires !GaveUp(s.handlers[h].pc)
    ensures AlwaysAnswers(s, h, HttpAnswer(Some(""), Some(504), Some("Gateway Timeout")))
  {
    ReachedHasInv(prefix, acts, s);
    forall more, s' | Runs(s, more, s') && h in s'.handlers && s'.handlers[h].pc.Finished?
      ensures s'.handlers[h].answer == HttpAnswer(Some(""), Some(504), Some("Gateway Timeout"))
    {
      StaysDoomed(s, more, s', h);
      DoomedAnswer(s', h);
    }
  }

  // ----- streams and sessions that have ended

  /** The stream is broken, and what is on its wires was there when it broke. */
  predicate Silent(s: State, t: StreamId, down: seq<Down>, up: seq<Up>) {
    && t in s.streams && !s.streams[t].connected
    && (forall m :: m in s.streams[t].down ==> m in down)
    && (forall m :: m in s.streams[t].up ==> m in up)
  }

  lemma SilentStep(s: State, a: Action, t: StreamId, down: seq<Down>, up: seq<Up>)
    requires Enabled(s, a) && Silent(s, t, down, up)
    ensures Silent(Apply(s, a), t, down, up)
  {
    match a
    case Carry(_, step) => SilentCarry(s, a.t, step, t, down, up);
    case Deliver(step) => SilentDeliver(s, step, t, down, up);
    case Answer(u, step) => SilentAnswer(s, u, step, t, down, up);
    case _ =>
  }

  lemma SilentCarry(s: State, u: StreamId, step: StreamStep, t: StreamId, down: seq<Down>, up: seq<Up>)
    requires StreamEnabled(s, u, step) && Silent(s, t, down, up)
    ensures Silent(ApplyStream(s, u, step), t, down, up)
  {
  }

  lemma SilentDeliver(s: State, step: ClientStep, t: StreamId, down: seq<Down>, up: seq<Up>)
    requires ClientEnabled(s, step) && Silent(s, t, down, up)
    ensures Silent(ApplyClient(s, step), t, down, up)
  {
  }

  lemma SilentAnswer(s: State, u: StreamId, step: ReceiverStep, t: StreamId, down: seq<Down>, up: seq<Up>)
    requires ReceiverEnabled(s, u, step) && Silent(s, t, down, up)
    ensures Silent(ApplyReceiver(s, u, step), t, down, up)
  {
  }

  lemma {:induction false} SilentRun(s: State, acts: seq<Action>, s': State, t: StreamId, down: seq<Down>, up: seq<Up>)
    requires Silent(s, t, down, up) && Runs(s, acts, s')
    ensures Silent(s', t, down, up)
    decreases |acts|
  {
    if acts != [] {
      SilentStep(s, acts[0], t, down, up);
      SilentRun(Apply(s, acts[0]), acts[1..], s', t, down, up);
    }
  }

  /** A stream that breaks carries nothing new, in either direction, ever after. */
  lemma BrokenIsSilent(s: State, t: StreamId, acts: seq<Action>, s': State)
    requires Enabled(s, Carry(t, Break)) && Runs(Apply(s, Carry(t, Break)), acts, s')
    ensures Silent(s', t, s.streams[t].down, s.streams[t].up)
  {
    SilentRun(Apply(s, Carry(t, Break)), acts, s', t, s.streams[t].down, s.streams[t].up);
  }

  /** The sender has ended and holds nothing. */
  predicate SenderDone(s: State, t: StreamId) {
    t in s.streams && s.streams[t].senderEnded && s.streams[t].hand.None?
  }

  lemma DoneAfterCarry(s: State, u: StreamId, step: StreamStep, t: StreamId)
    requires StreamEnabled(s, u, step) && SenderDone(s, t)
    ensures SenderDone(ApplyStream(s, u, step), t) && !(u == t && (step.Dequeue? || step.Transmit?))
  {
  }

  lemma DoneAfter(s: State, a: Action, t: StreamId)
    requires Enabled(s, a) && SenderDone(s, t)
    ensures SenderDone(Apply(s, a), t) && !(a.Carry? && a.t == t && (a.streamStep.Dequeue? || a.streamStep.Transmit?))
  {
    match a
    case Carry(u, step) => DoneAfterCarry(s, u, step, t);
    case Deliver(step) => DoneAfterClient(s, step, t);
    case Answer(u, step) => DoneAfterReceiver(s, u, step, t);
    case _ =>
  }

  lemma DoneAfterClient(s: State, step: ClientStep, t: StreamId)
    requires ClientEnabled(s, step) && SenderDone(s, t)
    ensures SenderDone(ApplyClient(s, step), t)
  {
  }

  lemma DoneAfterReceiver(s: State, u: StreamId, step: ReceiverStep, t: StreamId)
    requires ReceiverEnabled(s, u, step) && SenderDone(s, t)
    ensures SenderDone(ApplyReceiver(s, u, step), t)
  {
  }

  lemma {:induction false} DoneForever(s: State, acts: seq<Action>, s': State, t: StreamId)
    requires SenderDone(s, t) && Runs(s, acts, s')
    ensures SenderDone(s', t)
    ensures Carry(t, Dequeue) !in acts && Carry(t, Transmit) !in acts
    decreases |acts|
  {
    if acts != [] {
      DoneAfter(s, acts[0], t);
      DoneForever(Apply(s, acts[0]), acts[1..], s', t);
    }
  }

  /** A send that breaks the stream ends its sender: it takes and sends nothing more, so that the
      rest of the channel is left to the next stream's sender. */
  lemma BrokenSendEndsSender(s: State, t: StreamId, acts: seq<Action>, s': State)
    requires Enabled(s, Carry(t, TransmitFails(true))) && Runs(Apply(s, Carry(t, TransmitFails(true))), acts, s')
    ensures Carry(t, Dequeue) !in acts && Carry(t, Transmit) !in acts
  {
    DoneForever(Apply(s, Carry(t, TransmitFails(true))), acts, s', t);
  }

  predicate Deaf(s: State, t: StreamId) {
    t in s.streams && s.streams[t].receiver.Ended?
  }

  lemma DeafAfter(s: State, a: Action, t: StreamId)
    requires Enabled(s, a) && Deaf(s, t)
    ensures Deaf(Apply(s, a), t) && !(a.Answer? && a.t == t)
  {
    match a
    case Answer(u, step) => DeafAfterReceiver(s, u, step, t);
    case Deliver(step) => DeafAfterClient(s, step, t);
    case _ =>
  }

  lemma DeafAfterReceiver(s: State, u: StreamId, step: ReceiverStep, t: StreamId)
    requires ReceiverEnabled(s, u, step) && Deaf(s, t)
    ensures Deaf(ApplyReceiver(s, u, step), t) && u != t
  {
  }

  lemma DeafAfterClient(s: State, step: ClientStep, t: StreamId)
    requires ClientEnabled(s, step) && Deaf(s, t)
    ensures Deaf(ApplyClient(s, step), t)
  {
  }

  lemma {:induction false} DeafForever(s: State, acts: seq<Action>, s': State, t: StreamId)
    requires Deaf(s, t) && Runs(s, acts, s')
    ensures forall a :: a in acts && a.Answer? ==> a.t != t
    decreases |acts|
  {
    if acts != [] {
      DeafAfter(s, acts[0], t);
      DeafForever(Apply(s, acts[0]), acts[1..], s', t);
    }
  }

  /** A receiver that ends takes no reply off its stream any more. */
  lemma EndedReceiverIsDeaf(s: State, t: StreamId, acts: seq<Action>, s': State)
    requires Enabled(s, Answer(t, ReceiverEnds)) && Runs(Apply(s, Answer(t, ReceiverEnds)), acts, s')
    ensures forall a :: a in acts && a.Answer? ==> a.t != t
  {
    DeafForever(Apply(s, Answer(t, ReceiverEnds)), acts, s', t);
  }
}
