/** What the tunnel protocol guarantees over every run. */
module ProtocolTheorems {
  import opened Messages
  import opened Prelude
  import opened SessionTable
  import opened Protocol
  import opened ProtocolInvariant
  import opened ProtocolSteps

  /** s is reached by some run from the empty system. */
  predicate Reached(prefix: string, acts: seq<Action>, s: State) {
    Runs(Init(prefix), acts, s)
  }

  lemma ReachedHasInv(prefix: string, acts: seq<Action>, s: State)
    requires Reached(prefix, acts, s)
    ensures Inv(s)
  {
    InitHasInv(prefix);
    RunKeepsInv(Init(prefix), acts, s);
  }

  /** At most once: a request, its stored record and its elapsed-time message are each in at
      most one of channel, sender's hand, wire, client task, reply wire, receiver, applied
      signal and client store. */
  lemma AtMostOnce(prefix: string, acts: seq<Action>, s: State, tok: Token, p: Place, q: Place)
    requires Reached(prefix, acts, s)
    requires At(s, tok, p) && At(s, tok, q)
    ensures p == q
  {
    ReachedHasInv(prefix, acts, s);
  }

  /** No signal is closed twice and no nil response is dereferenced. */
  lemma NeverFaults(prefix: string, acts: seq<Action>, s: State)
    requires Reached(prefix, acts, s)
    ensures !s.fault
    ensures forall t :: ReceiverEnabled(s, t, SignalResponse) ==> !s.handlers[s.streams[t].receiver.record].signalled
    ensures forall h, millis :: HandlerEnabled(s, h, WriteElapsed(millis)) ==> s.handlers[h].response.Some?
    ensures forall h :: h in s.handlers && s.handlers[h].pc.Answering? ==> s.handlers[h].response.Some?
  {
    ReachedHasInv(prefix, acts, s);
    forall t | ReceiverEnabled(s, t, SignalResponse) ensures !s.handlers[s.streams[t].receiver.record].signalled {
      FoundFact(s, t);
      NotYetSignalled(s, t);
    }
    forall h | h in s.handlers && (s.handlers[h].pc.Answering? || s.handlers[h].pc == Removed(ByResponse))
      ensures s.handlers[h].response.Some?
    {
      assert HandlerOk(s, h);
    }
  }

  /** Although a record is marshalled only when it is sent, a client never receives one that
      has already been answered: the wire carries REQUEST with the handler's own request,
      or POST_RESPONSE with the handler's own time. */
  lemma WireCarriesOwnRequest(prefix: string, acts: seq<Action>, s: State, t: StreamId, i: nat)
    requires Reached(prefix, acts, s)
    requires t in s.streams && i < |s.streams[t].down|
    ensures var m := s.streams[t].down[i];
            && m.origin in s.handlers
            && var r := s.handlers[m.origin];
            r.session == s.streams[t].session && m.id == r.id
            && ((m.step == REQUEST && m.request == r.request) || (m.step == POST_RESPONSE && m.millis == r.elapsed))
  {
    ReachedHasInv(prefix, acts, s);
    var m := s.streams[t].down[i];
    var tok := if m.step == POST_RESPONSE then Post(m.origin) else Token.Reply(m.origin);
    assert At(s, tok, DownSlot(t, i));
    assert PlaceOk(s, tok, DownSlot(t, i));
  }

  function Whole(r: Response): HttpAnswer {
    HttpAnswer(Some(r.header), Some(r.code), Some(r.body))
  }

  /** No cross-talk, in any interleaving: a finished handler that was woken answers with what
      a client computed from that very request; one that gave up answers with parts of the 504
      and of that same computed response only, and with the plain 504 unless a receiver was
      between lookup and assignment when the 504 was written. */
  lemma NoCrossTalk(prefix: string, acts: seq<Action>, s: State, h: HandlerId)
    requires Reached(prefix, acts, s)
    requires h in s.handlers && s.handlers[h].pc.Finished?
    ensures var r := s.handlers[h];
            && (r.computed.Some? ==> r.computed.value.request == r.request)
            && (r.pc.cause == ByResponse ==> r.computed.Some? && r.answer == Whole(r.computed.value.response))
            && (r.pc.cause != ByResponse ==>
                  && (r.computed.None? || !r.raced ==> r.answer == HttpAnswer(Some(""), Some(504), Some("Gateway Timeout")))
                  && (r.computed.Some? ==> PartsFromEither(r.answer, Response("", 504, "Gateway Timeout"), r.computed.value.response)))
  {
    ReachedHasInv(prefix, acts, s);
    assert HandlerOk(s, h);
  }

  /** The table holds a live record under an id exactly when that is the id of a handler
      between its put and its remove. */
  lemma TableIsLiveHandlers(prefix: string, acts: seq<Action>, s: State, sid: SessionId, id: string, h: HandlerId)
    requires Reached(prefix, acts, s) && sid in s.sessions
    ensures Lookup(s.sessions[sid], id) == Some(h)
            <==> h in s.handlers && s.handlers[h].session == sid && s.handlers[h].id == id && Live(s.handlers[h].pc)
  {
    ReachedHasInv(prefix, acts, s);
    if Lookup(s.sessions[sid], id) == Some(h) {
      assert EntryOk(s, sid, id, h);
    } else if h in s.handlers {
      assert Listed(s, h);
    }
  }

  /** A reply that is looked up after the handler removed its record changes nothing. */
  lemma LateReplyIgnored(prefix: string, acts: seq<Action>, s: State, t: StreamId)
    requires Reached(prefix, acts, s)
    requires t in s.streams && s.streams[t].receiver.Got?
    requires var h := s.streams[t].receiver.msg.origin; h in s.handlers && !Live(s.handlers[h].pc)
    ensures Enabled(s, Action.Answer(t, LookUp))
    ensures Apply(s, Action.Answer(t, LookUp)) == SetStream(s, t, s.streams[t].(receiver := Idle))
  {
    ReachedHasInv(prefix, acts, s);
    LookupFact(s, t);
    var h := s.streams[t].receiver.msg.origin;
    assert At(s, Token.Reply(h), AtReceiver(t));
    assert PlaceOk(s, Token.Reply(h), AtReceiver(t));
    assert HandlerOk(s, h);
  }

  /** A reply that reaches the receiver while its handler waits is found, assigned and
      signalled, after which the handler can take the response branch with its own response. */
  lemma LiveReplyWakes(prefix: string, acts: seq<Action>, s: State, t: StreamId)
    requires Reached(prefix, acts, s)
    requires t in s.streams && s.streams[t].receiver.Got?
    requires var h := s.streams[t].receiver.msg.origin; h in s.handlers && s.handlers[h].pc.Waiting?
    ensures var h := s.streams[t].receiver.msg.origin;
            && Enabled(s, Action.Answer(t, LookUp))
            && var s1 := Apply(s, Action.Answer(t, LookUp));
            && Enabled(s1, Action.Answer(t, Assign))
            && var s2 := Apply(s1, Action.Answer(t, Assign));
            && Enabled(s2, Action.Answer(t, SignalResponse))
            && var s3 := Apply(s2, Action.Answer(t, SignalResponse));
            && Enabled(s3, Handle(h, Wake(ByResponse)))
            && s3.handlers[h].computed == s.handlers[h].computed
            && s3.handlers[h].computed.Some?
            && s3.handlers[h].response == Some(s3.handlers[h].computed.value.response)
  {
    ReachedHasInv(prefix, acts, s);
    LookupFact(s, t);
    var h := s.streams[t].receiver.msg.origin;
    assert At(s, Token.Reply(h), AtReceiver(t));
    assert PlaceOk(s, Token.Reply(h), AtReceiver(t));
    assert HandlerOk(s, h);
  }

  // ----- exactly when a timed-out handler answers 504

  /** Given up, with `raced` as recorded when the 504 was written. */
  predicate GaveUpWith(s: State, h: HandlerId, raced: bool) {
    h in s.handlers && GaveUp(s.handlers[h].pc) && s.handlers[h].raced == raced
  }

  lemma RacedFixedByHandler(s: State, g: HandlerId, step: HandlerStep, h: HandlerId, raced: bool)
    requires HandlerEnabled(s, g, step) && GaveUpWith(s, h, raced)
    ensures GaveUpWith(ApplyHandler(s, g, step), h, raced)
  {
  }

  lemma RacedFixedByClient(s: State, step: ClientStep, h: HandlerId, raced: bool)
    requires ClientEnabled(s, step) && GaveUpWith(s, h, raced)
    ensures GaveUpWith(ApplyClient(s, step), h, raced)
  {
  }

  lemma RacedFixedByReceiver(s: State, t: StreamId, step: ReceiverStep, h: HandlerId, raced: bool)
    requires ReceiverEnabled(s, t, step) && GaveUpWith(s, h, raced)
    ensures GaveUpWith(ApplyReceiver(s, t, step), h, raced)
  {
  }

  lemma RacedFixedByStream(s: State, t: StreamId, step: StreamStep, h: HandlerId, raced: bool)
    requires StreamEnabled(s, t, step) && GaveUpWith(s, h, raced)
    ensures GaveUpWith(ApplyStream(s, t, step), h, raced)
  {
  }

  /** Once a handler has given up, no later step changes whether it was raced. */
  lemma RacedIsFixed(s: State, a: Action, h: HandlerId, raced: bool)
    requires Enabled(s, a) && GaveUpWith(s, h, raced)
    ensures GaveUpWith(Apply(s, a), h, raced)
  {
    match a
    case Handle(g, step) => RacedFixedByHandler(s, g, step, h, raced);
    case Deliver(step) => RacedFixedByClient(s, step, h, raced);
    case Answer(t, step) => RacedFixedByReceiver(s, t, step, h, raced);
    case Carry(t, step) => RacedFixedByStream(s, t, step, h, raced);
    case _ =>
  }

  lemma {:induction false} RacedIsFixedForever(s: State, acts: seq<Action>, s': State, h: HandlerId, raced: bool)
    requires Runs(s, acts, s') && GaveUpWith(s, h, raced)
    ensures GaveUpWith(s', h, raced)
    decreases |acts|
  {
    if acts != [] {
      RacedIsFixed(s, acts[0], h, raced);
      RacedIsFixedForever(Apply(s, acts[0]), acts[1..], s', h, raced);
    }
  }

  /** Whatever happens next, if the handler finishes then with this answer. */
  ghost predicate AlwaysAnswers(s: State, h: HandlerId, answer: HttpAnswer) {
    forall acts, s' :: Runs(s, acts, s') && h in s'.handlers && s'.handlers[h].pc.Finished? ==> s'.handlers[h].answer == answer
  }

  /** If no receiver is between lookup and assignment when the 504 is written, the answer is the 504. */
  lemma UnracedTimeoutAnswers504(prefix: string, acts: seq<Action>, s: State, h: HandlerId, millis: int)
    requires Reached(prefix, acts, s) && HandlerEnabled(s, h, WriteTimeout(millis))
    requires !ReceiverHolds(s, h)
    ensures ApplyHandler(s, h, WriteTimeout(millis)).handlers[h].elapsed == millis
    ensures AlwaysAnswers(ApplyHandler(s, h, WriteTimeout(millis)), h, HttpAnswer(Some(""), Some(504), Some("Gateway Timeout")))
  {
    ReachedHasInv(prefix, acts, s);
    var s0 := ApplyHandler(s, h, WriteTimeout(millis));
    InvHandler(s, h, WriteTimeout(millis));
    forall more, s' | Runs(s0, more, s') && h in s'.handlers && s'.handlers[h].pc.Finished?
      ensures s'.handlers[h].answer == Whole(GATEWAY_TIMEOUT)
    {
      RunKeepsInv(s0, more, s');
      RacedIsFixedForever(s0, more, s', h, false);
      assert HandlerOk(s', h);
    }
  }

  /** What a receiver holding the record is about to assign is the computed response. */
  lemma HeldIsComputed(s: State, h: HandlerId, t: StreamId)
    requires Inv(s) && t in s.streams && s.streams[t].receiver.Found? && s.streams[t].receiver.record == h
    ensures h in s.handlers && s.streams[t].session in s.sessions
    ensures ComputedIs(s.handlers[h], s.streams[t].receiver.msg.response)
  {
    FoundFact(s, t);
    NotYetSignalled(s, t);
    assert HandlerOk(s, h);
  }

  /** The handler has read nothing of its response yet, and a receiver is about to replace it. */
  predicate AboutToBeOvertaken(s: State, h: HandlerId, t: StreamId) {
    && h in s.handlers && s.handlers[h].session in s.sessions
    && s.handlers[h].pc.Answering? && NothingRead(s.handlers[h].answer) && s.handlers[h].response.Some?
    && t in s.streams && s.streams[t].session in s.sessions
    && s.streams[t].receiver.Found? && s.streams[t].receiver.record == h
  }

  /** The handler reads the header before or after the receiver assigns, code and body after. */
  function ReadAround(h: HandlerId, t: StreamId, headerFirst: bool): seq<Action> {
    if headerFirst then [Handle(h, ReadHeader), Action.Answer(t, Assign), Handle(h, ReadCode), Handle(h, ReadBody)]
    else [Action.Answer(t, Assign), Handle(h, ReadHeader), Handle(h, ReadCode), Handle(h, ReadBody)]
  }

  lemma ReadRest(s: State, h: HandlerId) returns (s': State)
    requires h in s.handlers && s.handlers[h].session in s.sessions && s.handlers[h].pc.Answering? && s.handlers[h].response.Some?
    requires var a := s.handlers[h].answer; a.header.Some? && a.code.None? && a.body.None?
    ensures Runs(s, [Handle(h, ReadCode), Handle(h, ReadBody)], s')
    ensures h in s'.handlers && s'.handlers[h].pc.Finished?
    ensures var r := s.handlers[h].response.value;
            s'.handlers[h].answer == HttpAnswer(s.handlers[h].answer.header, Some(r.code), Some(r.body))
  {
    var s1 := ApplyHandler(s, h, ReadCode);
    s' := ApplyHandler(s1, h, ReadBody);
    assert Runs(s', [], s');
    assert [Handle(h, ReadBody)][1..] == [];
    assert Runs(s1, [Handle(h, ReadBody)], s');
    assert [Handle(h, ReadCode), Handle(h, ReadBody)][1..] == [Handle(h, ReadBody)];
  }

  lemma RunsTwo(s: State, a: Action, b: Action, rest: seq<Action>, s': State)
    requires Enabled(s, a) && Enabled(Apply(s, a), b) && Runs(Apply(Apply(s, a), b), rest, s')
    ensures Runs(s, [a, b] + rest, s')
  {
    assert ([a, b] + rest)[1..] == [b] + rest;
    assert ([b] + rest)[1..] == rest;
    assert Runs(Apply(s, a), [b] + rest, s');
  }

  /** The late response is in place, and the handler has read `header` and nothing else. */
  predicate HeaderRead(s: State, h: HandlerId, late: Response, header: string) {
    && h in s.handlers && s.handlers[h].session in s.sessions
    && s.handlers[h].pc.Answering? && s.handlers[h].response == Some(late)
    && s.handlers[h].answer == HttpAnswer(Some(header), None, None)
  }

  lemma HeaderThenAssign(s: State, h: HandlerId, t: StreamId) returns (s2: State)
    requires AboutToBeOvertaken(s, h, t)
    ensures Enabled(s, Handle(h, ReadHeader)) && Enabled(Apply(s, Handle(h, ReadHeader)), Action.Answer(t, Assign))
    ensures s2 == Apply(Apply(s, Handle(h, ReadHeader)), Action.Answer(t, Assign))
    ensures HeaderRead(s2, h, s.streams[t].receiver.msg.response, s.handlers[h].response.value.header)
  {
    s2 := ApplyReceiver(ApplyHandler(s, h, ReadHeader), t, Assign);
  }

  lemma AssignThenHeader(s: State, h: HandlerId, t: StreamId) returns (s2: State)
    requires AboutToBeOvertaken(s, h, t)
    ensures Enabled(s, Action.Answer(t, Assign)) && Enabled(Apply(s, Action.Answer(t, Assign)), Handle(h, ReadHeader))
    ensures s2 == Apply(Apply(s, Action.Answer(t, Assign)), Handle(h, ReadHeader))
    ensures var late := s.streams[t].receiver.msg.response; HeaderRead(s2, h, late, late.header)
  {
    s2 := ApplyHandler(ApplyReceiver(s, t, Assign), h, ReadHeader);
  }

  lemma ReadAfter(s: State, a: Action, b: Action, s2: State, h: HandlerId, late: Response, header: string) returns (s': State)
    requires Enabled(s, a) && Enabled(Apply(s, a), b) && s2 == Apply(Apply(s, a), b)
    requires HeaderRead(s2, h, late, header)
    ensures Runs(s, [a, b, Handle(h, ReadCode), Handle(h, ReadBody)], s')
    ensures h in s'.handlers && s'.handlers[h].pc.Finished?
    ensures s'.handlers[h].answer == HttpAnswer(Some(header), Some(late.code), Some(late.body))
  {
    s' := ReadRest(s2, h);
    RunsTwo(s, a, b, [Handle(h, ReadCode), Handle(h, ReadBody)], s');
    assert [a, b] + [Handle(h, ReadCode), Handle(h, ReadBody)] == [a, b, Handle(h, ReadCode), Handle(h, ReadBody)];
  }

  lemma OvertakenRun(s: State, h: HandlerId, t: StreamId, headerFirst: bool) returns (s': State)
    requires AboutToBeOvertaken(s, h, t)
    ensures Runs(s, ReadAround(h, t, headerFirst), s')
    ensures h in s'.handlers && s'.handlers[h].pc.Finished?
    ensures var late := s.streams[t].receiver.msg.response;
            s'.handlers[h].answer
            == HttpAnswer(Some(if headerFirst then s.handlers[h].response.value.header else late.header), Some(late.code), Some(late.body))
  {
    var late := s.streams[t].receiver.msg.response;
    if headerFirst {
      var s2 := HeaderThenAssign(s, h, t);
      s' := ReadAfter(s, Handle(h, ReadHeader), Action.Answer(t, Assign), s2, h, late, s.handlers[h].response.value.header);
    } else {
      var s2 := AssignThenHeader(s, h, t);
      s' := ReadAfter(s, Action.Answer(t, Assign), Handle(h, ReadHeader), s2, h, late, late.header);
    }
  }

  /** Exactly when a handler that stops waiting answers 504: in every continuation if no receiver
      is between lookup and assignment at the write; otherwise some continuation answers with the
      late response, and another one mixes the 504's header with the late code and body. */
  lemma TimeoutAnswerExactly(prefix: string, acts: seq<Action>, s: State, h: HandlerId, millis: int)
    requires Reached(prefix, acts, s) && HandlerEnabled(s, h, WriteTimeout(millis))
    ensures !ReceiverHolds(s, h) ==>
              AlwaysAnswers(ApplyHandler(s, h, WriteTimeout(millis)), h, HttpAnswer(Some(""), Some(504), Some("Gateway Timeout")))
    ensures ReceiverHolds(s, h) ==>
              && s.handlers[h].computed.Some?
              && var late := s.handlers[h].computed.value.response;
              && (late != Response("", 504, "Gateway Timeout") ==>
                    !AlwaysAnswers(ApplyHandler(s, h, WriteTimeout(millis)), h, HttpAnswer(Some(""), Some(504), Some("Gateway Timeout"))))
              && exists more, s' :: Runs(ApplyHandler(s, h, WriteTimeout(millis)), more, s') && h in s'.handlers
                                    && s'.handlers[h].answer == HttpAnswer(Some(""), Some(late.code), Some(late.body))
  {
    ReachedHasInv(prefix, acts, s);
    if ReceiverHolds(s, h) {
      var t :| t in s.streams && s.streams[t].receiver.Found? && s.streams[t].receiver.record == h;
      HeldIsComputed(s, h, t);
      assert HandlerOk(s, h);
      var s0 := ApplyHandler(s, h, WriteTimeout(millis));
      assert AboutToBeOvertaken(s0, h, t);
      var late := OvertakenRun(s0, h, t, false);
      var mixed := OvertakenRun(s0, h, t, true);
    } else {
      UnracedTimeoutAnswers504(prefix, acts, s, h, millis);
    }
  }
}
