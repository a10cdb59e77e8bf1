/** Every step of the tunnel protocol keeps the invariant. */
module ProtocolSteps {
  import opened Messages
  import opened Prelude
  import opened Sequence
  import opened SessionTable
  import opened Protocol
  import opened ProtocolInvariant

  // ----- what is known about a message in its place

  lemma PlaceSend(s: State, h: HandlerId, step: HandlerStep, tok: Token, p: Place)
    requires HandlerEnabled(s, h, step) && (step.Publish? || step.PostElapsed?)
    requires At(ApplyHandler(s, h, step), tok, p)
    requires At(s, tok, BeforeHandler(s, h, step, tok, p)) && PlaceOk(s, tok, BeforeHandler(s, h, step, tok, p))
    ensures PlaceOk(ApplyHandler(s, h, step), tok, p)
  {
  }

  /** A change of a handler that no message about it can notice. */
  predicate Unnoticed(r: Handler, r': Handler, held: bool) {
    && r'.session == r.session && r'.request == r.request && r'.computed == r.computed && r'.step == r.step
    && (r'.id == r.id || Unpublished(r.pc))
    && (Unpublished(r'.pc) ==> Unpublished(r.pc))
    && (PostOk(r, r.id, r.elapsed) ==> PostOk(r', r.id, r.elapsed))
    && (r.response.Some? ==> r'.response.Some?)
    && (GaveUp(r'.pc) ==> (GaveUp(r.pc) && r'.raced == r.raced) || (held ==> r'.raced))
  }

  lemma QuietIsUnnoticed(s: State, h: HandlerId, step: HandlerStep)
    requires HandlerEnabled(s, h, step) && !step.PostElapsed?
    ensures Unnoticed(s.handlers[h], HandlerAfter(s, h, step), ReceiverHolds(s, h))
  {
  }

  lemma PlaceFrame(s: State, s': State, h: HandlerId, tok: Token, p: Place)
    requires h in s.handlers && h in s'.handlers && s'.handlers == s.handlers[h := s'.handlers[h]]
    requires Unnoticed(s.handlers[h], s'.handlers[h], ReceiverHolds(s, h))
    requires s'.streams == s.streams && s'.tasks == s.tasks && s'.notes == s.notes
    requires p.Slot? ==> p.sid in s.sessions && p.sid in s'.sessions && s'.sessions[p.sid].channel == s.sessions[p.sid].channel
    requires At(s', tok, p) && At(s, tok, p) && PlaceOk(s, tok, p)
    ensures PlaceOk(s', tok, p)
  {
  }

  lemma PlaceQuiet(s: State, h: HandlerId, step: HandlerStep, tok: Token, p: Place)
    requires HandlerEnabled(s, h, step) && !step.Publish? && !step.PostElapsed?
    requires At(ApplyHandler(s, h, step), tok, p) && At(s, tok, p) && PlaceOk(s, tok, p)
    ensures PlaceOk(ApplyHandler(s, h, step), tok, p)
  {
    QuietIsUnnoticed(s, h, step);
    PlaceFrame(s, ApplyHandler(s, h, step), h, tok, p);
  }

  lemma PlaceHandler(s: State, h: HandlerId, step: HandlerStep, tok: Token, p: Place)
    requires HandlerEnabled(s, h, step)
    requires At(ApplyHandler(s, h, step), tok, p)
    requires At(s, tok, BeforeHandler(s, h, step, tok, p)) && PlaceOk(s, tok, BeforeHandler(s, h, step, tok, p))
    ensures PlaceOk(ApplyHandler(s, h, step), tok, p)
  {
    if step.Publish? || step.PostElapsed? {
      PlaceSend(s, h, step, tok, p);
    } else {
      PlaceQuiet(s, h, step, tok, p);
    }
  }

  lemma PlaceStream(s: State, t: StreamId, step: StreamStep, tok: Token, p: Place)
    requires StreamEnabled(s, t, step) && HandIsOrdinary(s, t)
    requires At(ApplyStream(s, t, step), tok, p)
    requires At(s, tok, BeforeStream(s, t, step, p)) && PlaceOk(s, tok, BeforeStream(s, t, step, p))
    ensures PlaceOk(ApplyStream(s, t, step), tok, p)
  {
    match step
    case Dequeue => PlaceDequeue(s, t, tok, p);
    case Transmit => PlaceTransmit(s, t, tok, p);
    case _ => PlaceLoss(s, t, step, tok, p);
  }

  lemma PlaceDequeue(s: State, t: StreamId, tok: Token, p: Place)
    requires StreamEnabled(s, t, Dequeue)
    requires At(ApplyStream(s, t, Dequeue), tok, p)
    requires var q := BeforeStream(s, t, Dequeue, p); At(s, tok, q) && PlaceOk(s, tok, q)
    ensures PlaceOk(ApplyStream(s, t, Dequeue), tok, p)
  {
  }

  lemma PlaceTransmit(s: State, t: StreamId, tok: Token, p: Place)
    requires StreamEnabled(s, t, Transmit) && HandIsOrdinary(s, t)
    requires At(ApplyStream(s, t, Transmit), tok, p)
    requires var q := BeforeStream(s, t, Transmit, p); At(s, tok, q) && PlaceOk(s, tok, q)
    ensures PlaceOk(ApplyStream(s, t, Transmit), tok, p)
  {
  }

  lemma PlaceLoss(s: State, t: StreamId, step: StreamStep, tok: Token, p: Place)
    requires StreamEnabled(s, t, step) && !step.Dequeue? && !step.Transmit?
    requires At(ApplyStream(s, t, step), tok, p) && At(s, tok, p) && PlaceOk(s, tok, p)
    ensures PlaceOk(ApplyStream(s, t, step), tok, p)
  {
  }

  lemma PlaceDeliver(s: State, step: ClientStep, tok: Token, p: Place)
    requires ClientEnabled(s, step) && step.DeliverRequest?
    requires At(ApplyClient(s, step), tok, p)
    requires At(s, tok, BeforeClient(s, step, p)) && PlaceOk(s, tok, BeforeClient(s, step, p))
    ensures PlaceOk(ApplyClient(s, step), tok, p)
  {
  }

  lemma PlaceReply(s: State, step: ClientStep, tok: Token, p: Place)
    requires ClientEnabled(s, step) && step.SendReply?
    requires At(ApplyClient(s, step), tok, p)
    requires At(s, tok, BeforeClient(s, step, p)) && PlaceOk(s, tok, BeforeClient(s, step, p))
    ensures PlaceOk(ApplyClient(s, step), tok, p)
  {
  }

  lemma PlaceTakeDown(s: State, t: StreamId, tok: Token, p: Place)
    requires t in s.streams && s.streams[t].down != []
    requires At(TakeDown(s, t), tok, p)
    requires var b := if p.DownSlot? && p.t == t then DownSlot(t, p.i + 1) else p; At(s, tok, b) && PlaceOk(s, tok, b)
    ensures PlaceOk(TakeDown(s, t), tok, p)
  {
  }

  lemma PlaceNoted(s: State, t: StreamId, k: TaskId, tok: Token)
    requires ClientEnabled(s, DeliverElapsed(t, k)) && At(s, tok, DownSlot(t, 0)) && PlaceOk(s, tok, DownSlot(t, 0))
    requires At(ApplyClient(s, DeliverElapsed(t, k)), tok, AtNote(k))
    ensures PlaceOk(ApplyClient(s, DeliverElapsed(t, k)), tok, AtNote(k))
  {
  }

  lemma PlaceTake(s: State, step: ClientStep, tok: Token, p: Place)
    requires ClientEnabled(s, step) && (step.DeliverElapsed? || step.DeliverOther?)
    requires At(ApplyClient(s, step), tok, p)
    requires At(s, tok, BeforeClient(s, step, p)) && PlaceOk(s, tok, BeforeClient(s, step, p))
    ensures PlaceOk(ApplyClient(s, step), tok, p)
  {
    if step.DeliverElapsed? && p == AtNote(step.k) {
      PlaceNoted(s, step.t, step.k, tok);
    } else {
      assert At(TakeDown(s, step.t), tok, p);
      PlaceTakeDown(s, step.t, tok, p);
    }
  }

  lemma PlaceTaskEnds(s: State, step: ClientStep, tok: Token, p: Place)
    requires ClientEnabled(s, step) && (step.SaveRecord? || step.Abandon? || step.SendReplyFails?)
    requires At(ApplyClient(s, step), tok, p)
    requires At(s, tok, BeforeClient(s, step, p)) && PlaceOk(s, tok, BeforeClient(s, step, p))
    ensures PlaceOk(ApplyClient(s, step), tok, p)
  {
  }

  lemma PlaceStore(s: State, step: ClientStep, tok: Token, p: Place)
    requires ClientEnabled(s, step) && (step.Replay? || step.Forget? || step.ApplyElapsed?)
    requires At(ApplyClient(s, step), tok, p)
    requires At(s, tok, BeforeClient(s, step, p)) && PlaceOk(s, tok, BeforeClient(s, step, p))
    ensures PlaceOk(ApplyClient(s, step), tok, p)
  {
  }

  lemma PlaceCompute(s: State, k: TaskId, response: Response, tok: Token, p: Place)
    requires ClientEnabled(s, Compute(k, response))
    requires At(ApplyClient(s, Compute(k, response)), tok, p) && At(s, tok, p) && PlaceOk(s, tok, p)
    requires tok.h != s.tasks[k].msg.origin || tok.Post? || p.Kept? || p == AtTask(k)
    ensures PlaceOk(ApplyClient(s, Compute(k, response)), tok, p)
  {
  }

  /** While a task has not computed, its request is in no other place. */
  lemma ComputeIsFirst(s: State, k: TaskId)
    requires Inv(s) && k in s.tasks && s.tasks[k].computed.None?
    ensures var h := s.tasks[k].msg.origin;
            h in s.handlers && At(s, Reply(h), AtTask(k)) && TaskOk(s, s.handlers[h], s.tasks[k]) && Fresh(s.handlers[h])
  {
    var h := s.tasks[k].msg.origin;
    assert At(s, Save(h), AtTask(k));
    assert PlaceOk(s, Save(h), AtTask(k));
    assert At(s, Reply(h), AtTask(k));
  }

  /** A token that shares its place with the reply token. */
  lemma SharedWithReply(s: State, tok: Token, p: Place)
    requires At(s, tok, p) && !tok.Post? && !p.Kept?
    requires p.AtTask? ==> !s.tasks[p.k].replied
    ensures At(s, Reply(tok.h), p)
  {
  }

  lemma ReplyElsewhere(s: State, home: Place, tok: Token, p: Place)
    requires Unique(s) && At(s, Reply(tok.h), home) && At(s, tok, p)
    requires home.AtTask? ==> At(s, Save(tok.h), home)
    ensures tok.Post? || p.Kept? || p == home || (p.AtTask? && s.tasks[p.k].replied)
    ensures home.AtTask? ==> tok.Post? || p.Kept? || p == home
  {
    if !tok.Post? && !p.Kept? && (p.AtTask? ==> !s.tasks[p.k].replied) {
      SharedWithReply(s, tok, p);
    }
  }

  /** What a lookup by id may return: the handler the message is about, still live, or nothing. */
  predicate LookupFindsOrigin(s: State, t: StreamId)
    requires t in s.streams
  {
    var stream := s.streams[t];
    stream.session in s.sessions && stream.receiver.Got? ==>
      var found := Lookup(s.sessions[stream.session], stream.receiver.msg.id);
      var h := stream.receiver.msg.origin;
      h in s.handlers && (found == Some(h) <==> Live(s.handlers[h].pc)) && (found.Some? ==> found.value == h)
  }

  /** Within a session an id belongs to one handler. */
  lemma IdsAreOwn(s: State, g: HandlerId, h: HandlerId)
    requires NumbersOk(s) && g in s.handlers && h in s.handlers && HandlerOk(s, g) && HandlerOk(s, h)
    requires s.handlers[g].session == s.handlers[h].session && s.handlers[g].id == s.handlers[h].id
    requires !s.handlers[g].pc.Accepted? && !s.handlers[h].pc.Accepted?
    ensures g == h
  {
    PrefixedInjective(s.prefix, s.handlers[g].number, s.handlers[h].number);
  }

  lemma LookupFact(s: State, t: StreamId)
    requires Inv(s) && t in s.streams
    ensures LookupFindsOrigin(s, t)
  {
    var stream := s.streams[t];
    if stream.session in s.sessions && stream.receiver.Got? {
      var msg := stream.receiver.msg;
      var h := msg.origin;
      assert At(s, Reply(h), AtReceiver(t));
      assert PlaceOk(s, Reply(h), AtReceiver(t));
      assert HandlerOk(s, h);
      var found := Lookup(s.sessions[stream.session], msg.id);
      if found.Some? {
        var g := found.value;
        assert EntryOk(s, stream.session, msg.id, g);
        IdsAreOwn(s, g, h);
      }
    }
  }

  lemma PlaceLookUp(s: State, t: StreamId, tok: Token, p: Place)
    requires ReceiverEnabled(s, t, LookUp) && LookupFindsOrigin(s, t)
    requires At(ApplyReceiver(s, t, LookUp), tok, p) && At(s, tok, p) && PlaceOk(s, tok, p)
    ensures PlaceOk(ApplyReceiver(s, t, LookUp), tok, p)
  {
  }

  lemma PlaceReceiver(s: State, t: StreamId, step: ReceiverStep, tok: Token, p: Place)
    requires ReceiverEnabled(s, t, step) && (step.Receive? || step.ReceiverEnds?)
    requires At(ApplyReceiver(s, t, step), tok, p)
    requires At(s, tok, BeforeReceiver(s, t, step, tok, p)) && PlaceOk(s, tok, BeforeReceiver(s, t, step, tok, p))
    ensures PlaceOk(ApplyReceiver(s, t, step), tok, p)
  {
  }

  lemma PlaceSignal(s: State, t: StreamId, tok: Token, p: Place)
    requires ReceiverEnabled(s, t, SignalResponse)
    requires At(ApplyReceiver(s, t, SignalResponse), tok, p)
    requires var q := BeforeReceiver(s, t, SignalResponse, tok, p); At(s, tok, q) && PlaceOk(s, tok, q)
    ensures PlaceOk(ApplyReceiver(s, t, SignalResponse), tok, p)
  {
  }

  /** Assigning to a record disturbs no other message about it, because there is none. */
  lemma PlaceAssign(s: State, t: StreamId, tok: Token, p: Place)
    requires ReceiverEnabled(s, t, Assign)
    requires At(ApplyReceiver(s, t, Assign), tok, p) && At(s, tok, p) && PlaceOk(s, tok, p)
    requires tok.h == s.streams[t].receiver.record ==>
               tok.Post? || p.Kept? || p == AtReceiver(t) || (p.AtTask? && s.tasks[p.k].replied)
    ensures PlaceOk(ApplyReceiver(s, t, Assign), tok, p)
  {
  }

  lemma PlaceAnyReceiver(s: State, t: StreamId, step: ReceiverStep, tok: Token, p: Place)
    requires ReceiverEnabled(s, t, step) && Inv(s)
    requires At(ApplyReceiver(s, t, step), tok, p)
    requires At(s, tok, BeforeReceiver(s, t, step, tok, p)) && PlaceOk(s, tok, BeforeReceiver(s, t, step, tok, p))
    ensures PlaceOk(ApplyReceiver(s, t, step), tok, p)
  {
    if step.Assign? {
      if tok.h == s.streams[t].receiver.record {
        FoundFact(s, t);
        ReplyElsewhere(s, AtReceiver(t), tok, p);
      }
      PlaceAssign(s, t, tok, p);
    } else if step.LookUp? {
      LookupFact(s, t);
      PlaceLookUp(s, t, tok, p);
    } else if step.SignalResponse? {
      PlaceSignal(s, t, tok, p);
    } else {
      PlaceReceiver(s, t, step, tok, p);
    }
  }

  lemma PlaceOpen(s: State, a: Action, tok: Token, p: Place)
    requires a.OpenSession? || a.CloseSession? || a.Accept? || a.OpenStream?
    requires Enabled(s, a) && !IsNew(a, tok)
    requires At(Apply(s, a), tok, p) && At(s, tok, p) && PlaceOk(s, tok, p)
    ensures PlaceOk(Apply(s, a), tok, p)
  {
  }

  lemma PlaceFirstCompute(s: State, k: TaskId, response: Response, tok: Token, p: Place)
    requires ClientEnabled(s, Compute(k, response)) && Inv(s)
    requires At(ApplyClient(s, Compute(k, response)), tok, p) && At(s, tok, p) && PlaceOk(s, tok, p)
    ensures PlaceOk(ApplyClient(s, Compute(k, response)), tok, p)
  {
    ComputeIsFirst(s, k);
    if tok.h == s.tasks[k].msg.origin {
      ReplyElsewhere(s, AtTask(k), tok, p);
    }
    PlaceCompute(s, k, response, tok, p);
  }

  lemma PlaceAnyClient(s: State, step: ClientStep, tok: Token, p: Place)
    requires ClientEnabled(s, step) && Inv(s)
    requires At(ApplyClient(s, step), tok, p)
    requires At(s, tok, BeforeClient(s, step, p)) && PlaceOk(s, tok, BeforeClient(s, step, p))
    ensures PlaceOk(ApplyClient(s, step), tok, p)
  {
    match step
    case DeliverRequest(_, _) => PlaceDeliver(s, step, tok, p);
    case SendReply(_) => PlaceReply(s, step, tok, p);
    case DeliverElapsed(_, _) => PlaceTake(s, step, tok, p);
    case DeliverOther(_) => PlaceTake(s, step, tok, p);
    case ApplyElapsed(_, _) => PlaceStore(s, step, tok, p);
    case Replay(_, _) => PlaceStore(s, step, tok, p);
    case Forget(_) => PlaceStore(s, step, tok, p);
    case Compute(k, response) => PlaceFirstCompute(s, k, response, tok, p);
    case _ => PlaceTaskEnds(s, step, tok, p);
  }

  lemma PlacesKept(s: State, a: Action, tok: Token, p: Place)
    requires Inv(s) && Enabled(s, a)
    requires At(Apply(s, a), tok, p)
    ensures PlaceOk(Apply(s, a), tok, p)
  {
    if IsNew(a, tok) {
      NewIsUnsent(s, a, tok, p);
    } else {
      Backward(s, a, tok, p);
      PlaceKept(s, a, tok, p);
    }
  }

  lemma PlaceKept(s: State, a: Action, tok: Token, p: Place)
    requires Inv(s) && Enabled(s, a) && !IsNew(a, tok)
    requires At(Apply(s, a), tok, p) && At(s, tok, Before(s, a, tok, p))
    ensures PlaceOk(Apply(s, a), tok, p)
  {
    match a
    case Handle(h, step) => PlaceHandler(s, h, step, tok, p);
    case Carry(t, step) => HandFact(s, t); PlaceStream(s, t, step, tok, p);
    case Deliver(step) => PlaceAnyClient(s, step, tok, p);
    case Answer(t, step) => PlaceAnyReceiver(s, t, step, tok, p);
    case _ => PlaceOpen(s, a, tok, p);
  }

  // ----- handlers

  lemma HandlerMoves(s: State, h: HandlerId, step: HandlerStep)
    requires !step.TakeNumber? && !step.ReadHeader? && !step.ReadCode? && !step.ReadBody?
    requires HandlerEnabled(s, h, step) && HandlerOk(s, h)
    ensures HandlerOk(ApplyHandler(s, h, step), h) && !HandlerFaults(s, h, step)
  {
  }

  lemma HandlerReads(s: State, h: HandlerId, step: HandlerStep)
    requires step.ReadHeader? || step.ReadCode? || step.ReadBody?
    requires HandlerEnabled(s, h, step) && HandlerOk(s, h)
    ensures HandlerOk(ApplyHandler(s, h, step), h) && !HandlerFaults(s, h, step)
  {
  }

  lemma HandlerNumbers(s: State, h: HandlerId)
    requires HandlerEnabled(s, h, TakeNumber) && HandlerOk(s, h)
    ensures HandlerOk(ApplyHandler(s, h, TakeNumber), h) && !HandlerFaults(s, h, TakeNumber)
  {
    NoRepeatBelowRange(s.sessions[s.handlers[h].session].issued + 1);
  }

  lemma HandlerOwnStep(s: State, h: HandlerId, step: HandlerStep)
    requires HandlerEnabled(s, h, step) && HandlerOk(s, h)
    ensures HandlerOk(ApplyHandler(s, h, step), h) && !HandlerFaults(s, h, step)
  {
    match step
    case TakeNumber => HandlerNumbers(s, h);
    case ReadHeader => HandlerReads(s, h, step);
    case ReadCode => HandlerReads(s, h, step);
    case ReadBody => HandlerReads(s, h, step);
    case _ => HandlerMoves(s, h, step);
  }

  lemma HandlerOtherStep(s: State, h: HandlerId, step: HandlerStep, g: HandlerId)
    requires HandlerEnabled(s, h, step) && g in s.handlers && g != h && HandlerOk(s, g)
    ensures HandlerOk(ApplyHandler(s, h, step), g)
  {
  }

  lemma HandlerReceiver(s: State, t: StreamId, step: ReceiverStep, h: HandlerId)
    requires ReceiverEnabled(s, t, step) && h in s.handlers && HandlerOk(s, h)
    requires (step.Assign? || step.SignalResponse?) && s.streams[t].receiver.record == h ==>
               UpOk(s.handlers[h], s.streams[t].session, s.streams[t].receiver.msg)
               && ReceiverOk(s.handlers[h], h, s.streams[t].receiver) && !s.handlers[h].signalled
    ensures HandlerOk(ApplyReceiver(s, t, step), h)
  {
  }

  lemma HandlerClient(s: State, step: ClientStep, h: HandlerId)
    requires ClientEnabled(s, step) && h in s.handlers && HandlerOk(s, h)
    requires step.Compute? && s.tasks[step.k].msg.origin == h ==>
               TaskOk(s, s.handlers[h], s.tasks[step.k]) && Fresh(s.handlers[h])
    ensures HandlerOk(ApplyClient(s, step), h)
  {
  }

  lemma NotYetSignalled(s: State, t: StreamId)
    requires Inv(s) && t in s.streams && Busy(s.streams[t].receiver)
    ensures var h := s.streams[t].receiver.msg.origin;
            h in s.handlers && !s.handlers[h].signalled
            && UpOk(s.handlers[h], s.streams[t].session, s.streams[t].receiver.msg)
            && ReceiverOk(s.handlers[h], h, s.streams[t].receiver)
  {
    var h := s.streams[t].receiver.msg.origin;
    assert At(s, Reply(h), AtReceiver(t));
    assert PlaceOk(s, Reply(h), AtReceiver(t));
    assert At(s, Reply(h), Applied) ==> AtReceiver(t) == Applied;
  }

  lemma HandlerOpen(s: State, a: Action, h: HandlerId)
    requires a.OpenSession? || a.CloseSession? || a.Accept? || a.OpenStream?
    requires Enabled(s, a) && h in Apply(s, a).handlers && (h in s.handlers ==> HandlerOk(s, h))
    ensures HandlerOk(Apply(s, a), h)
  {
  }

  lemma HandlerStream(s: State, t: StreamId, step: StreamStep, h: HandlerId)
    requires StreamEnabled(s, t, step) && h in s.handlers && HandlerOk(s, h)
    ensures HandlerOk(ApplyStream(s, t, step), h)
  {
  }

  lemma AnyHandlerStep(s: State, h: HandlerId, step: HandlerStep, g: HandlerId)
    requires HandlerEnabled(s, h, step) && g in s.handlers && HandlerOk(s, g)
    ensures HandlerOk(ApplyHandler(s, h, step), g)
  {
    if g == h { HandlerOwnStep(s, h, step); } else { HandlerOtherStep(s, h, step, g); }
  }

  // ----- the table

  lemma EntryAfter(s: State, h: HandlerId, step: HandlerStep, sid: SessionId, id: string)
    requires HandlerEnabled(s, h, step)
    requires sid in s.sessions && id in ApplyHandler(s, h, step).sessions[sid].records
    requires var e := Lookup(s.sessions[sid], id); e.Some? ==> EntryOk(s, sid, id, e.value)
    ensures var e := ApplyHandler(s, h, step).sessions[sid].records[id];
            e.Some? ==> EntryOk(ApplyHandler(s, h, step), sid, id, e.value)
  {
  }

  lemma ListedAfter(s: State, h: HandlerId, step: HandlerStep, g: HandlerId)
    requires HandlerEnabled(s, h, step) && g in s.handlers && Listed(s, g)
    requires g != h && s.handlers[g].session == s.handlers[h].session && !s.handlers[h].pc.Accepted? && Live(s.handlers[g].pc)
             ==> s.handlers[g].id != s.handlers[h].id
    ensures Listed(ApplyHandler(s, h, step), g)
  {
  }

  lemma TableHandler(s: State, h: HandlerId, step: HandlerStep)
    requires HandlerEnabled(s, h, step) && TableOk(s) && NumbersOk(s)
    requires forall g :: g in s.handlers ==> HandlerOk(s, g)
    ensures TableOk(ApplyHandler(s, h, step))
  {
    var s' := ApplyHandler(s, h, step);
    forall sid, id | sid in s'.sessions && id in s'.sessions[sid].records && s'.sessions[sid].records[id].Some?
      ensures EntryOk(s', sid, id, s'.sessions[sid].records[id].value)
    {
      EntryAfter(s, h, step, sid, id);
    }
    forall g | g in s'.handlers
      ensures Listed(s', g)
    {
      if g != h && s.handlers[g].session == s.handlers[h].session && s.handlers[g].id == s.handlers[h].id
         && !s.handlers[h].pc.Accepted? && Live(s.handlers[g].pc) {
        IdsAreOwn(s, g, h);
      }
      ListedAfter(s, h, step, g);
    }
  }

  lemma DistinctAfter(s: State, h: HandlerId, step: HandlerStep, g: HandlerId)
    requires HandlerEnabled(s, h, step) && g in s.handlers && g != h && HandlerOk(s, g)
    requires Distinct(s.handlers[h], s.handlers[g])
    ensures Distinct(HandlerAfter(s, h, step), s.handlers[g])
  {
    if step.TakeNumber? {
      NoRepeatBelowRange(s.sessions[s.handlers[h].session].issued + 1);
    }
  }

  lemma NumbersHandler(s: State, h: HandlerId, step: HandlerStep)
    requires HandlerEnabled(s, h, step) && NumbersOk(s)
    requires forall g :: g in s.handlers ==> HandlerOk(s, g)
    ensures NumbersOk(ApplyHandler(s, h, step))
  {
    var s' := ApplyHandler(s, h, step);
    forall f, g | f in s'.handlers && g in s'.handlers && f != g
      ensures Distinct(s'.handlers[f], s'.handlers[g])
    {
      if f == h { DistinctAfter(s, h, step, g); }
      if g == h { DistinctAfter(s, h, step, f); }
    }
  }

  // ----- the invariant, one kind of step at a time

  lemma TokensKept(s: State, a: Action)
    requires Inv(s) && Enabled(s, a)
    ensures Unique(Apply(s, a))
    ensures forall tok, p :: At(Apply(s, a), tok, p) ==> PlaceOk(Apply(s, a), tok, p)
  {
    UniqueKept(s, a);
    forall tok, p | At(Apply(s, a), tok, p)
      ensures PlaceOk(Apply(s, a), tok, p)
    {
      PlacesKept(s, a, tok, p);
    }
  }

  lemma InvHandler(s: State, h: HandlerId, step: HandlerStep)
    requires Inv(s) && HandlerEnabled(s, h, step)
    ensures Inv(ApplyHandler(s, h, step))
  {
    TokensKept(s, Handle(h, step));
    HandlerOwnStep(s, h, step);
    forall g | g in s.handlers ensures HandlerOk(ApplyHandler(s, h, step), g) {
      AnyHandlerStep(s, h, step, g);
    }
    TableHandler(s, h, step);
    NumbersHandler(s, h, step);
  }

  lemma TableStream(s: State, t: StreamId, step: StreamStep)
    requires StreamEnabled(s, t, step) && TableOk(s) && NumbersOk(s)
    ensures TableOk(ApplyStream(s, t, step)) && NumbersOk(ApplyStream(s, t, step))
  {
    var s' := ApplyStream(s, t, step);
    forall sid, id | sid in s'.sessions && id in s'.sessions[sid].records && s'.sessions[sid].records[id].Some?
      ensures EntryOk(s', sid, id, s'.sessions[sid].records[id].value)
    {
      assert EntryOk(s, sid, id, s.sessions[sid].records[id].value);
    }
  }

  lemma InvStream(s: State, t: StreamId, step: StreamStep)
    requires Inv(s) && StreamEnabled(s, t, step)
    ensures Inv(ApplyStream(s, t, step))
  {
    TokensKept(s, Carry(t, step));
    forall h | h in s.handlers ensures HandlerOk(ApplyStream(s, t, step), h) {
      HandlerStream(s, t, step, h);
    }
    TableStream(s, t, step);
  }

  ghost predicate SameTables(s: State, s': State) {
    && s'.sessions == s.sessions && s'.handlers.Keys == s.handlers.Keys
    && forall h :: h in s.handlers ==>
         var r, r' := s.handlers[h], s'.handlers[h];
         r'.session == r.session && r'.id == r.id && r'.pc == r.pc && r'.number == r.number
  }

  lemma ClientLeavesTables(s: State, step: ClientStep)
    requires ClientEnabled(s, step)
    ensures SameTables(s, ApplyClient(s, step)) && ApplyClient(s, step).fault == s.fault
  {
  }

  lemma ReceiverLeavesTables(s: State, t: StreamId, step: ReceiverStep)
    requires ReceiverEnabled(s, t, step)
    ensures SameTables(s, ApplyReceiver(s, t, step))
    ensures ApplyReceiver(s, t, step).fault ==>
              s.fault || (step.SignalResponse? && s.handlers[s.streams[t].receiver.record].signalled)
  {
  }

  /** The table only looks at the identity, the number and the progress of handlers. */
  lemma TableFrame(s: State, s': State)
    requires TableOk(s) && NumbersOk(s)
    requires SameTables(s, s')
    ensures TableOk(s') && NumbersOk(s')
  {
    forall sid, id | sid in s'.sessions && id in s'.sessions[sid].records && s'.sessions[sid].records[id].Some?
      ensures EntryOk(s', sid, id, s'.sessions[sid].records[id].value)
    {
      assert EntryOk(s, sid, id, s.sessions[sid].records[id].value);
    }
    forall h, g | h in s'.handlers && g in s'.handlers && h != g
      ensures Distinct(s'.handlers[h], s'.handlers[g])
    {
      assert Distinct(s.handlers[h], s.handlers[g]);
    }
  }

  lemma InvClient(s: State, step: ClientStep)
    requires Inv(s) && ClientEnabled(s, step)
    ensures Inv(ApplyClient(s, step))
  {
    var s' := ApplyClient(s, step);
    TokensKept(s, Deliver(step));
    ClientLeavesTables(s, step);
    if step.Compute? { ComputeIsFirst(s, step.k); }
    forall h | h in s'.handlers ensures HandlerOk(s', h) {
      HandlerClient(s, step, h);
    }
    TableFrame(s, s');
  }

  lemma InvReceiver(s: State, t: StreamId, step: ReceiverStep)
    requires Inv(s) && ReceiverEnabled(s, t, step)
    ensures Inv(ApplyReceiver(s, t, step))
  {
    var s' := ApplyReceiver(s, t, step);
    TokensKept(s, Answer(t, step));
    if step.Assign? || step.SignalResponse? { FoundFact(s, t); NotYetSignalled(s, t); }
    ReceiverLeavesTables(s, t, step);
    forall h | h in s'.handlers ensures HandlerOk(s', h) {
      HandlerReceiver(s, t, step, h);
    }
    TableFrame(s, s');
  }

  lemma EntryOpen(s: State, a: Action, sid: SessionId, id: string)
    requires a.OpenSession? || a.CloseSession? || a.Accept? || a.OpenStream?
    requires Enabled(s, a) && TableOk(s)
    requires sid in Apply(s, a).sessions && Lookup(Apply(s, a).sessions[sid], id).Some?
    ensures EntryOk(Apply(s, a), sid, id, Lookup(Apply(s, a).sessions[sid], id).value)
  {
    assert EntryOk(s, sid, id, s.sessions[sid].records[id].value);
  }

  lemma ListedOpen(s: State, a: Action, h: HandlerId)
    requires a.OpenSession? || a.CloseSession? || a.Accept? || a.OpenStream?
    requires Enabled(s, a) && h in Apply(s, a).handlers
    requires h in s.handlers ==> Listed(s, h)
    ensures Listed(Apply(s, a), h)
  {
  }

  lemma NumbersOpen(s: State, a: Action)
    requires a.OpenSession? || a.CloseSession? || a.Accept? || a.OpenStream?
    requires Enabled(s, a) && NumbersOk(s)
    ensures NumbersOk(Apply(s, a))
  {
  }

  lemma TableOpen(s: State, a: Action)
    requires a.OpenSession? || a.CloseSession? || a.Accept? || a.OpenStream?
    requires Enabled(s, a) && TableOk(s)
    ensures TableOk(Apply(s, a))
  {
    var s' := Apply(s, a);
    forall sid, id | sid in s'.sessions && id in s'.sessions[sid].records && s'.sessions[sid].records[id].Some?
      ensures EntryOk(s', sid, id, s'.sessions[sid].records[id].value)
    {
      EntryOpen(s, a, sid, id);
    }
    forall h | h in s'.handlers
      ensures Listed(s', h)
    {
      ListedOpen(s, a, h);
    }
  }

  lemma InvOpen(s: State, a: Action)
    requires a.OpenSession? || a.CloseSession? || a.Accept? || a.OpenStream?
    requires Inv(s) && Enabled(s, a)
    ensures Inv(Apply(s, a))
  {
    TokensKept(s, a);
    forall h | h in Apply(s, a).handlers ensures HandlerOk(Apply(s, a), h) {
      HandlerOpen(s, a, h);
    }
    TableOpen(s, a);
    NumbersOpen(s, a);
  }

  /** Every step of every goroutine keeps the invariant. */
  lemma StepKeepsInv(s: State, a: Action)
    requires Inv(s) && Enabled(s, a)
    ensures Inv(Apply(s, a))
  {
    match a
    case Handle(h, step) => InvHandler(s, h, step);
    case Carry(t, step) => InvStream(s, t, step);
    case Deliver(step) => InvClient(s, step);
    case Answer(t, step) => InvReceiver(s, t, step);
    case _ => InvOpen(s, a);
  }

  lemma InitHasInv(prefix: string)
    ensures Inv(Init(prefix))
  {
  }

  /** The invariant holds along every run. */
  lemma {:induction false} RunKeepsInv(s: State, acts: seq<Action>, s': State)
    requires Inv(s) && Runs(s, acts, s')
    ensures Inv(s')
    decreases |acts|
  {
    if acts != [] {
      StepKeepsInv(s, acts[0]);
      RunKeepsInv(Apply(s, acts[0]), acts[1..], s');
    }
  }
}
