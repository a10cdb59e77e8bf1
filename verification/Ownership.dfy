/** Who gets which session. A bearer is the secret that a registration hands out: over every run,
    orderly or not, a stream is on a session only because its handshake created the session or
    presented the session's id and bearer. */
module Ownership {
  import opened Lifecycle
  import opened Prelude
  import opened SessionManager
  import opened SessionTable

  predicate Runs(s: State, acts: seq<Action>, s': State)
    decreases |acts|
  {
    if acts == [] then s' == s
    else Enabled(s, acts[0]) && Runs(Apply(s, acts[0]), acts[1..], s')
  }

  /** The session occupying a slot goes by the slot's id, and every stream is on some session. */
  ghost predicate Named(s: State) {
    && (forall id :: Exists(s.clients, id) ==> NamedSlot(s, id))
    && (forall t :: t in s.links && !s.links[t].Ended? ==> s.links[t].session in s.sessions)
  }

  predicate NamedSlot(s: State, id: string)
    requires Exists(s.clients, id)
  {
    Occupant(s.clients, id).value in s.sessions && s.sessions[Occupant(s.clients, id).value].id == id
  }

  /** The id under which a registration lists its session. */
  function NewId(s: State, a: Action): string
    requires a.Handshake?
  {
    if a.clientId == "" then a.suffix
    else if Occupant(s.clients, a.clientId).Some? then a.clientId + "-" + a.suffix
    else a.clientId
  }

  /** Every handshake, whatever it presents: with a bearer and an occupied slot it gets the
      occupant if the bearer is the occupant's, and otherwise changes nothing; with a bearer and a
      free slot it registers only if that is the bearer of its own key; without one it registers. */
  lemma HandshakeExactly(s: State, a: Action)
    requires Named(s) && a.Handshake? && Enabled(s, a)
    ensures var s', found := Apply(s, a), Occupant(s.clients, a.clientId);
            if a.bearer != "" && found.Some? then
              found.value in s.sessions && s.sessions[found.value].id == a.clientId
              && s' == if s.sessions[found.value].bearer == a.bearer then s.(links := s.links[a.t := Claimed(found.value)]) else s
            else if a.bearer != "" && a.bearer != a.newBearer then s' == s
            else s' == s.(sessions := s.sessions[a.created := Record(NewId(s, a), a.newBearer, false, false, 0, NewTable())],
                          clients := s.clients[NewId(s, a) := Some(a.created)],
                          links := s.links[a.t := Claimed(a.created)])
  {
    if Exists(s.clients, a.clientId) { assert NamedSlot(s, a.clientId); }
  }

  lemma HandshakeKeepsNamed(s: State, a: Action)
    requires Named(s) && a.Handshake? && Enabled(s, a)
    ensures Named(Apply(s, a))
  {
    HandshakeExactly(s, a);
    var s' := Apply(s, a);
    forall id | Exists(s'.clients, id) ensures NamedSlot(s', id) {
      if Exists(s.clients, id) { assert NamedSlot(s, id); }
    }
  }

  lemma FireKeepsNamed(s: State, sid: SessionId)
    requires Named(s) && Enabled(s, Fire(sid))
    ensures Named(Apply(s, Fire(sid)))
  {
    var s' := Apply(s, Fire(sid));
    forall id | Exists(s'.clients, id) ensures NamedSlot(s', id) { assert NamedSlot(s, id); }
  }

  predicate SameIdentity(s: State, s': State, sid: SessionId)
    requires sid in s.sessions
  {
    sid in s'.sessions && s'.sessions[sid].id == s.sessions[sid].id && s'.sessions[sid].bearer == s.sessions[sid].bearer
  }

  lemma StepKeepsNamed(s: State, a: Action)
    requires Named(s) && Enabled(s, a)
    ensures Named(Apply(s, a))
    ensures forall sid :: sid in s.sessions ==> SameIdentity(s, Apply(s, a), sid)
  {
    match a
    case Handshake(_, _, _, _, _, _) => HandshakeKeepsNamed(s, a); HandshakeExactly(s, a);
    case Fire(sid) => FireKeepsNamed(s, sid);
    case _ =>
      forall id | Exists(Apply(s, a).clients, id) ensures NamedSlot(Apply(s, a), id) { assert NamedSlot(s, id); }
  }

  /** The handshake created the session under the bearer of its own key, or presented the
      session's id and bearer. */
  predicate Admits(a: Action, sid: SessionId, r: Record) {
    && a.Handshake?
    && (|| (a.created == sid && r.bearer == a.newBearer && (a.bearer == "" || a.bearer == a.newBearer))
        || (a.bearer != "" && a.bearer == r.bearer && a.clientId == r.id))
  }

  /** Some handshake of the history put the stream on its session. */
  ghost predicate Admitted(s: State, t: StreamId, history: seq<Action>)
    requires t in s.links && !s.links[t].Ended? && s.links[t].session in s.sessions
  {
    exists a :: a in history && a.Handshake? && a.t == t && Admits(a, s.links[t].session, s.sessions[s.links[t].session])
  }

  ghost predicate AllAdmitted(s: State, history: seq<Action>) {
    Named(s) && forall t :: t in s.links && !s.links[t].Ended? ==> Admitted(s, t, history)
  }

  lemma StepKeepsAdmitted(s: State, a: Action, history: seq<Action>)
    requires AllAdmitted(s, history) && Enabled(s, a)
    ensures AllAdmitted(Apply(s, a), history + [a])
  {
    var s' := Apply(s, a);
    StepKeepsNamed(s, a);
    if a.Handshake? { HandshakeExactly(s, a); }
    forall t | t in s'.links && !s'.links[t].Ended? ensures Admitted(s', t, history + [a]) {
      if t in s.links && !s.links[t].Ended? {
        assert SameIdentity(s, s', s.links[t].session);
        var b :| b in history && b.Handshake? && b.t == t && Admits(b, s.links[t].session, s.sessions[s.links[t].session]);
        assert b in history + [a];
      } else {
        assert a in history + [a];
      }
    }
  }

  lemma {:induction false} RunKeepsAdmitted(s: State, acts: seq<Action>, s': State, history: seq<Action>)
    requires AllAdmitted(s, history) && Runs(s, acts, s')
    ensures AllAdmitted(s', history + acts)
    decreases |acts|
  {
    if acts == [] {
      assert history + acts == history;
    } else {
      StepKeepsAdmitted(s, acts[0], history);
      RunKeepsAdmitted(Apply(s, acts[0]), acts[1..], s', history + [acts[0]]);
      assert (history + [acts[0]]) + acts[1..] == history + acts;
    }
  }

  /** In every run, a stream that has claimed or is connected to a session was put there by its own
      handshake, which created the session or presented the session's id and bearer. */
  lemma OnlyOwnersGetIn(prefix: string, acts: seq<Action>, s: State, t: StreamId)
    requires Runs(Init(prefix), acts, s) && t in s.links && !s.links[t].Ended?
    ensures s.links[t].session in s.sessions
    ensures exists a :: a in acts && a.Handshake? && a.t == t && Admits(a, s.links[t].session, s.sessions[s.links[t].session])
  {
    RunKeepsAdmitted(Init(prefix), acts, s, []);
    assert [] + acts == acts;
    assert Admitted(s, t, acts);
  }

  /** No handshake presents the bearer. */
  predicate KeepsSecret(acts: seq<Action>, bearer: string) {
    forall a <- acts :: a.Handshake? ==> a.bearer != bearer
  }

  lemma StrangerStep(s: State, a: Action, sid: SessionId)
    requires Named(s) && Enabled(s, a) && sid in s.sessions && s.sessions[sid].bearer != ""
    requires a.Handshake? ==> a.bearer != s.sessions[sid].bearer
    ensures forall t :: Active(Apply(s, a), t, sid) ==> Active(s, t, sid)
  {
    if a.Handshake? { HandshakeExactly(s, a); }
  }

  /** While nobody presents a session's bearer, no stream gets onto that session. */
  lemma {:induction false} StrangersStayOut(s: State, acts: seq<Action>, s': State, sid: SessionId)
    requires Named(s) && Runs(s, acts, s') && sid in s.sessions && s.sessions[sid].bearer != ""
    requires KeepsSecret(acts, s.sessions[sid].bearer)
    ensures forall t :: Active(s', t, sid) ==> Active(s, t, sid)
    decreases |acts|
  {
    if acts != [] {
      assert acts[0] in acts;
      StrangerStep(s, acts[0], sid);
      StepKeepsNamed(s, acts[0]);
      assert SameIdentity(s, Apply(s, acts[0]), sid);
      StrangersStayOut(Apply(s, acts[0]), acts[1..], s', sid);
    }
  }
}
