/** What server sessions guarantee over every orderly run, and why each of the three
    conditions on runs is needed. */
module LifecycleTheorems {
  import opened Lifecycle
  import opened Prelude
  import opened Sequence
  import opened SessionManager
  import opened SessionTable

  lemma ReachedHasInv(prefix: string, acts: seq<Action>, s: State)
    requires OrderlyRuns(Init(prefix), acts, s)
    ensures Inv(s)
  {
    RunKeeps(Init(prefix), acts, s);
  }

  /** An unclosed session occupies its own slot and its timer runs exactly while it is idle; a
      connected session is neither idle nor reaped; Close runs once, and only for a closed session. */
  ghost predicate Healthy(s: State, sid: SessionId)
    requires sid in s.sessions
  {
    var r := s.sessions[sid];
    && (!r.work.closed <==> Occupant(s.clients, r.id) == Some(sid))
    && (!r.work.closed ==> (r.timerArmed <==> r.isIdle))
    && (!r.work.closed && !InUse(s, sid) ==> r.timerArmed)
    && r.closes == (if r.work.closed then 1 else 0)
    && forall t :: t in s.links && s.links[t] == Connected(sid) ==> !r.isIdle && !r.timerArmed && !r.work.closed
  }

  /** What is promised of every session; nothing here speaks of streams that have only claimed one. */
  ghost predicate Promised(s: State) {
    !s.fault && forall sid :: sid in s.sessions ==> Healthy(s, sid)
  }

  lemma InvIsPromised(s: State)
    requires Inv(s)
    ensures Promised(s)
  {
    forall sid | sid in s.sessions
      ensures Healthy(s, sid)
    {
      var r := s.sessions[sid];
      assert SessionOk(s, sid);
      if Occupant(s.clients, r.id) == Some(sid) { assert SlotOk(s, r.id); }
      forall t | t in s.links && s.links[t] == Connected(sid)
        ensures !r.isIdle && !r.timerArmed && !r.work.closed
      {
        assert LinkOk(s, t);
      }
    }
  }

  /** Every orderly run keeps the promise. */
  lemma SessionLife(prefix: string, acts: seq<Action>, s: State)
    requires OrderlyRuns(Init(prefix), acts, s)
    ensures Promised(s)
  {
    ReachedHasInv(prefix, acts, s);
    InvIsPromised(s);
  }

  /** In an orderly run the reaper closes and unlists the session whose timer fired, no other. */
  lemma ReaperIsExact(prefix: string, acts: seq<Action>, s: State, sid: SessionId)
    requires OrderlyRuns(Init(prefix), acts, s) && Enabled(s, Fire(sid))
    ensures var s' := Apply(s, Fire(sid));
            && s'.sessions[sid].work.closed && s'.sessions[sid].closes == 1
            && (forall x :: x in s.sessions && x != sid ==> s'.sessions[x] == s.sessions[x])
            && s'.clients == s.clients[s.sessions[sid].id := None] && s'.links == s.links && !s'.fault
  {
    ReachedHasInv(prefix, acts, s);
    FireIsExact(s, sid);
  }

  /** Whatever orderly steps follow. */
  ghost predicate StaysPromised(s: State) {
    forall more, s' :: OrderlyRuns(s, more, s') ==> Promised(s')
  }

  /** The conditions are exact: every orderly continuation of a step keeps the promise if and only
      if the step does not end a stream beside a connected one, fire a timer after its session was
      claimed again, or register over an occupied slot. */
  lemma OrderlyIsExact(s: State, a: Action)
    requires Inv(s) && Enabled(s, a)
    ensures StaysPromised(Apply(s, a)) <==> Orderly(s, a)
  {
    if Orderly(s, a) {
      StepKeeps(s, a);
      forall more, s' | OrderlyRuns(Apply(s, a), more, s') ensures Promised(s') {
        RunKeeps(Apply(s, a), more, s');
        InvIsPromised(s');
      }
    } else if FiresLate(s, a) {
      LateFireBreaks(s, a.sid);
    } else if Overlaps(s, a) {
      OverlapBreaks(s, a.t);
    } else {
      CollisionBreaks(s, a);
    }
  }

  lemma OverlapBreaks(s: State, t: StreamId)
    requires Inv(s) && Enabled(s, Disconnect(t)) && Overlaps(s, Disconnect(t))
    ensures !StaysPromised(Apply(s, Disconnect(t)))
  {
    var s' := Apply(s, Disconnect(t));
    var sid := s.links[t].session;
    var u :| u in s.links && u != t && s.links[u] == s.links[t];
    assert s'.links[u] == Connected(sid) && s'.sessions[sid].isIdle;
    assert !Healthy(s', sid);
    assert OrderlyRuns(s', [], s');
  }

  lemma CollisionBreaks(s: State, a: Action)
    requires Inv(s) && Enabled(s, a) && Collides(s, a)
    ensures !StaysPromised(Apply(s, a))
  {
    var s' := Apply(s, a);
    var id := Answer(s, a).clientId;
    var sid := Occupant(s.clients, id).value;
    assert SlotOk(s, id);
    assert !Healthy(s', sid);
    assert OrderlyRuns(s', [], s');
  }

  /** The stream that claimed the session goes on to connect to it. */
  lemma LateFireBreaks(s: State, sid: SessionId)
    requires Inv(s) && Enabled(s, Fire(sid)) && FiresLate(s, Fire(sid))
    ensures !StaysPromised(Apply(s, Fire(sid)))
  {
    var t :| t in s.links && Active(s, t, sid);
    assert LinkOk(s, t) && SessionOk(s, sid);
    var s1 := Apply(s, Fire(sid));
    FireIsExact(s, sid);
    var s2 := Apply(s1, Attach(t));
    assert s2.links[t] == Connected(sid) && s2.sessions[sid].work.closed;
    assert !Healthy(s2, sid);
    assert OrderlyRuns(s1, [], s1);
    OrderlySnoc(s1, [], s1, Attach(t));
  }

  lemma {:induction false} OrderlySnoc(s: State, acts: seq<Action>, mid: State, a: Action)
    requires OrderlyRuns(s, acts, mid) && Enabled(mid, a) && Orderly(mid, a)
    ensures OrderlyRuns(s, acts + [a], Apply(mid, a))
    decreases |acts|
  {
    if acts == [] {
      assert [a][1..] == [] && [] + [a] == [a];
      assert OrderlyRuns(Apply(mid, a), [], Apply(mid, a));
    } else {
      OrderlySnoc(Apply(s, acts[0]), acts[1..], mid, a);
      assert (acts + [a])[1..] == acts[1..] + [a];
    }
  }

  // ----- each of the three situations arises in an orderly run

  /** A client registers under its id and connects. */
  lemma FirstConnection(prefix: string, id: string, bearer: string, t: StreamId, sid: SessionId) returns (acts: seq<Action>, s: State)
    requires id != "" && bearer != ""
    ensures OrderlyRuns(Init(prefix), acts, s)
    ensures s == State(prefix, map[id := Some(sid)], map[sid := Record(id, bearer, false, false, 0, NewTable())],
                       map[t := Connected(sid)], false)
  {
    var hs := Action.Handshake(t, id, "", bearer, "", sid);
    var s1 := Apply(Init(prefix), hs);
    s := Apply(s1, Attach(t));
    assert OrderlyRuns(Init(prefix), [], Init(prefix));
    OrderlySnoc(Init(prefix), [], Init(prefix), hs);
    OrderlySnoc(Init(prefix), [] + [hs], s1, Attach(t));
    acts := [] + [hs] + [Attach(t)];
  }

  /** It opens a second stream before the first one has ended: both are connected. */
  lemma OverlapHappens(prefix: string, id: string, bearer: string, t: StreamId, u: StreamId, sid: SessionId)
    returns (acts: seq<Action>, s: State)
    requires id != "" && bearer != "" && t != u
    ensures OrderlyRuns(Init(prefix), acts, s)
    ensures Enabled(s, Disconnect(t)) && Overlaps(s, Disconnect(t))
    ensures t in s.links && u in s.links && s.links[t] == s.links[u] == Connected(sid)
  {
    var first, s1 := FirstConnection(prefix, id, bearer, t, sid);
    var hs := Action.Handshake(u, id, bearer, bearer, "", sid + 1);
    assert Answer(s1, hs) == Recovered(sid);
    var s2 := Apply(s1, hs);
    OrderlySnoc(Init(prefix), first, s1, hs);
    OrderlySnoc(Init(prefix), first + [hs], s2, Attach(u));
    acts, s := first + [hs] + [Attach(u)], Apply(s2, Attach(u));
    assert u in s.links && u != t && s.links[u] == s.links[t];
  }

  /** It comes back after its stream has ended: the session is claimed and its timer still runs. */
  lemma LateFireHappens(prefix: string, id: string, bearer: string, t: StreamId, u: StreamId, sid: SessionId)
    returns (acts: seq<Action>, s: State)
    requires id != "" && bearer != "" && t != u
    ensures OrderlyRuns(Init(prefix), acts, s)
    ensures Enabled(s, Fire(sid)) && FiresLate(s, Fire(sid)) && u in s.links && s.links[u] == Claimed(sid)
  {
    var first, s1 := FirstConnection(prefix, id, bearer, t, sid);
    var s2 := Apply(s1, Disconnect(t));
    assert s1.links.Keys == {t};
    OrderlySnoc(Init(prefix), first, s1, Disconnect(t));
    var hs := Action.Handshake(u, id, bearer, bearer, "", sid + 1);
    assert Answer(s2, hs) == Recovered(sid);
    OrderlySnoc(Init(prefix), first + [Disconnect(t)], s2, hs);
    acts, s := first + [Disconnect(t)] + [hs], Apply(s2, hs);
    assert Active(s, u, sid);
  }

  /** Two clients ask for an id, one of them after another client was named as the generated one. */
  lemma CollisionHappens(prefix: string, id: string, suffix: string, bearer: string)
    returns (acts: seq<Action>, s: State, hs: Action)
    requires id != "" && bearer != ""
    ensures OrderlyRuns(Init(prefix), acts, s)
    ensures Enabled(s, hs) && Collides(s, hs) && hs.clientId == id && hs.suffix == suffix
  {
    var first, s1 := FirstConnection(prefix, id + "-" + suffix, bearer, 0, 0);
    var second := Action.Handshake(1, id, "", bearer, "", 1);
    assert |id + "-" + suffix| > |id|;
    assert Answer(s1, second) == Registered(id);
    OrderlySnoc(Init(prefix), first, s1, second);
    acts, s := first + [second], Apply(s1, second);
    hs := Action.Handshake(2, id, "", bearer, suffix, 2);
    assert Answer(s, hs) == Registered(id + "-" + suffix);
  }

  /** Overlap: with two streams on a session, the end of one marks the connected session idle,
      and its timer then closes it under the other stream. */
  lemma OverlapReapsConnected(s: State, t: StreamId, u: StreamId)
    requires t in s.links && u in s.links && t != u && s.links[t].Connected? && s.links[u] == s.links[t]
    requires s.links[t].session in s.sessions
    requires var sid := s.links[t].session; Occupant(s.clients, s.sessions[sid].id) == Some(sid)
    ensures Enabled(s, Disconnect(t))
    ensures var sid := s.links[t].session;
            var s1 := Apply(s, Disconnect(t));
            && s1.links[u] == Connected(sid) && s1.sessions[sid].isIdle
            && Enabled(s1, Fire(sid))
            && var s2 := Apply(s1, Fire(sid));
            s2.links[u] == Connected(sid) && s2.sessions[sid].work.closed
  {
  }

  /** Late firing: a stream that had recovered its session ends up connected to a closed one. */
  lemma LateFireLeavesClosed(s: State, t: StreamId)
    requires Inv(s) && t in s.links && s.links[t].Claimed? && Enabled(s, Fire(s.links[t].session))
    ensures var sid := s.links[t].session;
            var s1 := Apply(s, Fire(sid));
            && Enabled(s1, Attach(t))
            && var s2 := Apply(s1, Attach(t));
            s2.links[t] == Connected(sid) && s2.sessions[sid].work.closed && !s2.sessions[sid].isIdle
  {
    FireIsExact(s, s.links[t].session);
  }

  // ----- resuming

  /** A session is not closed, and still has the identity and at least the count it had. */
  predicate Survives(s: State, s': State, sid: SessionId) {
    && sid in s.sessions && sid in s'.sessions
    && !s'.sessions[sid].work.closed
    && s'.sessions[sid].id == s.sessions[sid].id && s'.sessions[sid].bearer == s.sessions[sid].bearer
    && s.sessions[sid].work.issued <= s'.sessions[sid].work.issued
  }

  lemma SurvivesStep(s: State, a: Action, sid: SessionId)
    requires Inv(s) && Enabled(s, a) && Orderly(s, a)
    requires sid in s.sessions && !s.sessions[sid].work.closed && a != Fire(sid)
    ensures Survives(s, Apply(s, a), sid)
  {
    if a.Fire? { FireIsExact(s, a.sid); }
  }

  lemma {:induction false} SurvivesWithoutFire(s: State, acts: seq<Action>, s': State, sid: SessionId)
    requires Inv(s) && OrderlyRuns(s, acts, s') && Fire(sid) !in acts
    requires sid in s.sessions && !s.sessions[sid].work.closed
    ensures Survives(s, s', sid) && Inv(s')
    decreases |acts|
  {
    if acts != [] {
      assert acts[0] in acts;
      StepKeeps(s, acts[0]);
      SurvivesStep(s, acts[0], sid);
      SurvivesWithoutFire(Apply(s, acts[0]), acts[1..], s', sid);
    }
  }

  /** Resume: whatever happened since, unless its own timer fired a session is handed back to
      the client that presents its id and bearer, with counter and live records untouched by
      the handshake, and the next record id is one the session has never issued. */
  lemma Resume(prefix: string, before: seq<Action>, s: State, since: seq<Action>, s': State, sid: SessionId, hs: Action)
    requires OrderlyRuns(Init(prefix), before, s) && OrderlyRuns(s, since, s') && Fire(sid) !in since
    requires sid in s.sessions && !s.sessions[sid].work.closed
    requires hs.Handshake? && Enabled(s', hs) && hs.clientId == s.sessions[sid].id && hs.bearer == s.sessions[sid].bearer
    ensures Answer(s', hs) == Recovered(sid)
    ensures Apply(s', hs) == s'.(links := s'.links[hs.t := Claimed(sid)])
    ensures s.sessions[sid].work.issued <= s'.sessions[sid].work.issued
    ensures forall k :: 1 <= k <= s'.sessions[sid].work.issued && s'.sessions[sid].work.issued + 1 < UINT32_RANGE ==>
              NextId(s'.sessions[sid].work, s'.prefix) != s'.prefix + Decimal(After(k))
  {
    ReachedHasInv(prefix, before, s);
    SurvivesWithoutFire(s, since, s', sid);
    assert SessionOk(s', sid);
    if s'.sessions[sid].work.issued + 1 < UINT32_RANGE {
      NextIdIsNew(s'.sessions[sid].work, s'.prefix);
    }
  }

  lemma NextIdIsNew(work: Work, prefix: string)
    requires work.issued + 1 < UINT32_RANGE
    ensures forall k :: 1 <= k <= work.issued ==> NextId(work, prefix) != prefix + Decimal(After(k))
  {
    forall k | 1 <= k <= work.issued
      ensures NextId(work, prefix) != prefix + Decimal(After(k))
    {
      NoRepeatBelowRange(k);
      NoRepeatBelowRange(work.issued + 1);
      PrefixedInjective(prefix, After(work.issued + 1), After(k));
    }
  }

  /** If the timer fired first, the same client is registered anew under the same id and bearer
      when the slot is free; when another session holds it, it is turned away unless that
      session has its bearer. GenerateBearer is taken to be deterministic in the key. */
  lemma ResumeTooLate(prefix: string, acts: seq<Action>, s: State, sid: SessionId, hs: Action)
    requires OrderlyRuns(Init(prefix), acts, s)
    requires sid in s.sessions && s.sessions[sid].work.closed && s.sessions[sid].id != ""
    requires hs.Handshake? && Enabled(s, hs)
    requires hs.clientId == s.sessions[sid].id && hs.bearer == hs.newBearer == s.sessions[sid].bearer
    ensures Occupant(s.clients, hs.clientId).None? ==>
              && Answer(s, hs) == Registered(hs.clientId)
              && var r := Apply(s, hs).sessions[hs.created];
              r.id == s.sessions[sid].id && r.bearer == s.sessions[sid].bearer && r.work == NewTable()
    ensures Occupant(s.clients, hs.clientId).Some? ==>
              var other := Occupant(s.clients, hs.clientId).value;
              && other != sid && other in s.sessions
              && Answer(s, hs) == if s.sessions[other].bearer == hs.bearer then Recovered(other) else Rejected
  {
    ReachedHasInv(prefix, acts, s);
    assert SessionOk(s, sid);
    if Exists(s.clients, hs.clientId) { assert SlotOk(s, hs.clientId); }
  }
}
