/** The session channel in every run: a bounded queue from which nothing is lost or reordered,
    however many handlers send on it and however many senders, stale ones included, take from it. */
module Channels {
  import opened Protocol
  import opened SessionTable

  function ChannelOf(s: State, sid: SessionId): seq<Queued> {
    if sid in s.sessions then s.sessions[sid].channel else []
  }

  /** What a handler step sends: the record first, its time later. */
  function HandlerSends(s: State, h: HandlerId, step: HandlerStep): seq<Queued>
    requires HandlerEnabled(s, h, step)
  {
    match step
    case Publish => [Pointer(h)]
    case PostElapsed => [Elapsed(h, s.handlers[h].id, s.handlers[h].elapsed)]
    case _ => []
  }

  /** What a sender step takes: what it has in hand then. */
  function SenderTakes(s: State, t: StreamId, step: StreamStep): seq<Queued>
    requires StreamEnabled(s, t, step)
  {
    if step.Dequeue? then [StreamAfter(s, t, step).hand.value] else []
  }

  function Sent(s: State, a: Action, sid: SessionId): seq<Queued>
    requires Enabled(s, a)
  {
    if a.Handle? && s.handlers[a.h].session == sid then HandlerSends(s, a.h, a.handlerStep) else []
  }

  function Taken(s: State, a: Action, sid: SessionId): seq<Queued>
    requires Enabled(s, a)
  {
    if a.Carry? && s.streams[a.t].session == sid then SenderTakes(s, a.t, a.streamStep) else []
  }

  function AllSent(s: State, acts: seq<Action>, sid: SessionId): seq<Queued>
    decreases |acts|
  {
    if acts == [] || !Enabled(s, acts[0]) then [] else Sent(s, acts[0], sid) + AllSent(Apply(s, acts[0]), acts[1..], sid)
  }

  function AllTaken(s: State, acts: seq<Action>, sid: SessionId): seq<Queued>
    decreases |acts|
  {
    if acts == [] || !Enabled(s, acts[0]) then [] else Taken(s, acts[0], sid) + AllTaken(Apply(s, acts[0]), acts[1..], sid)
  }

  lemma TableSends(s: State, h: HandlerId, step: HandlerStep)
    requires HandlerEnabled(s, h, step)
    ensures TableAfter(s, h, step).channel == s.sessions[s.handlers[h].session].channel + HandlerSends(s, h, step)
    ensures HandlerSends(s, h, step) != [] ==> |s.sessions[s.handlers[h].session].channel| < 32
  {
  }

  lemma HandlerChannel(s: State, h: HandlerId, step: HandlerStep, sid: SessionId)
    requires HandlerEnabled(s, h, step)
    ensures ChannelOf(ApplyHandler(s, h, step), sid)
            == ChannelOf(s, sid) + if s.handlers[h].session == sid then HandlerSends(s, h, step) else []
    ensures |ChannelOf(s, sid)| <= 32 ==> |ChannelOf(ApplyHandler(s, h, step), sid)| <= 32
  {
    TableSends(s, h, step);
    assert ApplyHandler(s, h, step).sessions == s.sessions[s.handlers[h].session := TableAfter(s, h, step)];
  }

  lemma StreamChannel(s: State, t: StreamId, step: StreamStep, sid: SessionId)
    requires StreamEnabled(s, t, step)
    ensures ChannelOf(s, sid)
            == (if s.streams[t].session == sid then SenderTakes(s, t, step) else []) + ChannelOf(ApplyStream(s, t, step), sid)
  {
    var own := s.streams[t].session;
    if step.Dequeue? {
      var channel := s.sessions[own].channel;
      assert channel == [channel[0]] + channel[1..];
      assert ApplyStream(s, t, step).sessions == s.sessions[own := Drain(s.sessions[own])];
    } else {
      assert ApplyStream(s, t, step).sessions == s.sessions;
    }
  }

  lemma ClientChannel(s: State, step: ClientStep)
    requires ClientEnabled(s, step)
    ensures ApplyClient(s, step).sessions == s.sessions
  {
  }

  lemma ReceiverChannel(s: State, t: StreamId, step: ReceiverStep)
    requires ReceiverEnabled(s, t, step)
    ensures ApplyReceiver(s, t, step).sessions == s.sessions
  {
  }

  lemma StepIsFifo(s: State, a: Action, sid: SessionId)
    requires Enabled(s, a)
    ensures ChannelOf(s, sid) + Sent(s, a, sid) == Taken(s, a, sid) + ChannelOf(Apply(s, a), sid)
    ensures |ChannelOf(s, sid)| <= 32 ==> |ChannelOf(Apply(s, a), sid)| <= 32
  {
    match a
    case Handle(h, step) => HandlerChannel(s, h, step, sid);
    case Carry(t, step) => StreamChannel(s, t, step, sid);
    case Deliver(step) => ClientChannel(s, step);
    case Answer(t, step) => ReceiverChannel(s, t, step);
    case _ =>
  }

  lemma Regroup(a: seq<Queued>, b: seq<Queued>, c: seq<Queued>, d: seq<Queued>, e: seq<Queued>, f: seq<Queued>, g: seq<Queued>)
    requires a + b == c + d && d + e == f + g
    ensures a + (b + e) == (c + f) + g
  {
    assert a + (b + e) == (a + b) + e;
    assert (c + d) + e == c + (d + e);
    assert c + (f + g) == (c + f) + g;
  }

  lemma {:induction false} RunIsFifo(s: State, acts: seq<Action>, s': State, sid: SessionId)
    requires Runs(s, acts, s')
    ensures ChannelOf(s, sid) + AllSent(s, acts, sid) == AllTaken(s, acts, sid) + ChannelOf(s', sid)
    ensures |ChannelOf(s, sid)| <= 32 ==> |ChannelOf(s', sid)| <= 32
    decreases |acts|
  {
    if acts != [] {
      var next := Apply(s, acts[0]);
      StepIsFifo(s, acts[0], sid);
      RunIsFifo(next, acts[1..], s', sid);
      Regroup(ChannelOf(s, sid), Sent(s, acts[0], sid), Taken(s, acts[0], sid), ChannelOf(next, sid),
              AllSent(next, acts[1..], sid), AllTaken(next, acts[1..], sid), ChannelOf(s', sid));
    }
  }

  /** In every run, what senders have taken from a session's channel and what still waits in it is
      all that handlers sent, in the order they sent it, and at most 32 messages wait. */
  lemma ChannelIsFifo(prefix: string, acts: seq<Action>, s: State, sid: SessionId)
    requires Runs(Init(prefix), acts, s)
    ensures AllSent(Init(prefix), acts, sid) == AllTaken(Init(prefix), acts, sid) + ChannelOf(s, sid)
    ensures |ChannelOf(s, sid)| <= 32
    ensures forall h :: h in s.handlers && s.handlers[h].session == sid && sid in s.sessions && s.handlers[h].pc.Stored? ==>
              (HandlerEnabled(s, h, Publish) <==> !s.sessions[sid].closed && |ChannelOf(s, sid)| < 32)
  {
    RunIsFifo(Init(prefix), acts, s, sid);
    assert [] + AllSent(Init(prefix), acts, sid) == AllSent(Init(prefix), acts, sid);
  }

  predicate Closed(s: State, sid: SessionId) {
    sid in s.sessions && s.sessions[sid].closed
  }

  lemma ClosedAfterHandler(s: State, h: HandlerId, step: HandlerStep, sid: SessionId)
    requires HandlerEnabled(s, h, step) && Closed(s, sid)
    ensures Closed(ApplyHandler(s, h, step), sid)
    ensures s.handlers[h].session == sid ==> HandlerSends(s, h, step) == []
  {
    assert ApplyHandler(s, h, step).sessions == s.sessions[s.handlers[h].session := TableAfter(s, h, step)];
  }

  lemma ClosedAfter(s: State, a: Action, sid: SessionId)
    requires Enabled(s, a) && Closed(s, sid)
    ensures Closed(Apply(s, a), sid) && Sent(s, a, sid) == []
  {
    match a
    case Handle(h, step) => ClosedAfterHandler(s, h, step, sid);
    case Carry(t, step) => assert ApplyStream(s, t, step).sessions
                                  == if step.Dequeue? then s.sessions[s.streams[t].session := Drain(s.sessions[s.streams[t].session])] else s.sessions;
    case Deliver(step) => ClientChannel(s, step);
    case Answer(t, step) => ReceiverChannel(s, t, step);
    case _ =>
  }

  lemma {:induction false} ClosedForever(s: State, acts: seq<Action>, s': State, sid: SessionId)
    requires Closed(s, sid) && Runs(s, acts, s')
    ensures Closed(s', sid) && AllSent(s, acts, sid) == []
    decreases |acts|
  {
    if acts != [] {
      ClosedAfter(s, acts[0], sid);
      ClosedForever(Apply(s, acts[0]), acts[1..], s', sid);
    }
  }

  /** After a session is closed no handler sends on its channel; what waits in it is still taken,
      in order. */
  lemma ClosedIsDrained(s: State, sid: SessionId, acts: seq<Action>, s': State)
    requires Enabled(s, CloseSession(sid)) && Runs(Apply(s, CloseSession(sid)), acts, s')
    ensures AllSent(Apply(s, CloseSession(sid)), acts, sid) == []
    ensures ChannelOf(s, sid) == AllTaken(Apply(s, CloseSession(sid)), acts, sid) + ChannelOf(s', sid)
  {
    var closed := Apply(s, CloseSession(sid));
    ClosedForever(closed, acts, s', sid);
    RunIsFifo(closed, acts, s', sid);
    assert ChannelOf(closed, sid) + [] == ChannelOf(closed, sid) == ChannelOf(s, sid);
  }
}
