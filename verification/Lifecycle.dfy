/** The life of server sessions over whole runs: handshakes, streams that end, the idle timer
    and the goroutine that deregisters (DeregisterOnTimeout), in any interleaving. */
module Lifecycle {
  import opened Prelude
  import opened Sequence
  import opened SessionManager
  import opened SessionTable

  type SessionId = nat
  type StreamId = nat

  /** The table of a session, with handlers named by numbers. */
  type Work = Table<nat, nat>

  /** `closes` counts how often Close ran. */
  datatype Record = Record(id: string, bearer: string, isIdle: bool, timerArmed: bool, closes: nat, work: Work)

  /** A Tunnel call: it has its session, has stopped the idle timer, or has returned. */
  datatype Link = Claimed(session: SessionId) | Connected(session: SessionId) | Ended

  datatype State = State(
    prefix: string,
    clients: map<string, Option<SessionId>>,
    sessions: map<SessionId, Record>,
    links: map<StreamId, Link>,
    fault: bool)

  function Init(prefix: string): State {
    State(prefix, map[], map[], map[], false)
  }

  datatype Action =
    /** createOrRetrieveSession; `created` names the session a registration creates. */
    | Handshake(t: StreamId, clientId: string, bearer: string, newBearer: string, suffix: string, created: SessionId)
    /** StopIdleTimeout in Tunnel. */
    | Attach(t: StreamId)
    /** The stream ends and SetIdleTimeout runs. */
    | Disconnect(t: StreamId)
    /** The idle timer fires and Deregister runs. */
    | Fire(sid: SessionId)
    /** A request is numbered and listed. */
    | Issue(sid: SessionId, handler: nat)
    /** A request's entry becomes nil. */
    | Retire(sid: SessionId, recordId: string)

  predicate Active(s: State, t: StreamId, sid: SessionId) {
    t in s.links && !s.links[t].Ended? && s.links[t].session == sid
  }

  function Bearer(s: State, clientId: string): string {
    match Occupant(s.clients, clientId)
    case Some(sid) => if sid in s.sessions then s.sessions[sid].bearer else ""
    case None => ""
  }

  function Answer(s: State, a: Action): Verdict<SessionId>
    requires a.Handshake?
  {
    Decide(s.clients, Bearer(s, a.clientId), a.clientId, a.bearer, a.newBearer, a.suffix)
  }

  predicate Enabled(s: State, a: Action) {
    match a
    case Handshake(t, _, _, newBearer, _, created) => t !in s.links && created !in s.sessions && newBearer != ""
    case Attach(t) => t in s.links && s.links[t].Claimed? && s.links[t].session in s.sessions
    case Disconnect(t) => t in s.links && s.links[t].Connected? && s.links[t].session in s.sessions
    case Fire(sid) => sid in s.sessions && s.sessions[sid].timerArmed
    case Issue(sid, _) => sid in s.sessions && !s.sessions[sid].work.closed && s.sessions[sid].work.issued + 1 < UINT32_RANGE
    case Retire(sid, _) => sid in s.sessions
  }

  function Update(s: State, sid: SessionId, r: Record): State {
    s.(sessions := s.sessions[sid := r])
  }

  /** Deregister: close whatever session holds the id, then clear the slot. */
  function Deregistered(s: State, clientId: string): State {
    match Occupant(s.clients, clientId)
    case Some(sid) =>
      if sid !in s.sessions then s.(fault := true) else
      var r := s.sessions[sid];
      Update(s, sid, r.(closes := r.closes + 1, timerArmed := false, work := Close(r.work)))
      .(clients := s.clients[clientId := None], fault := s.fault || r.work.closed)
    case None => s.(fault := true)
  }

  function Apply(s: State, a: Action): State
    requires Enabled(s, a)
  {
    match a
    case Handshake(t, _, _, newBearer, _, created) =>
      (match Answer(s, a)
       case Recovered(sid) => s.(links := s.links[t := Claimed(sid)])
       case Rejected => s
       case Registered(id) =>
         Update(s, created, Record(id, newBearer, false, false, 0, NewTable()))
         .(clients := s.clients[id := Some(created)], links := s.links[t := Claimed(created)]))
    case Attach(t) =>
      var sid := s.links[t].session;
      Update(s, sid, s.sessions[sid].(isIdle := false, timerArmed := false)).(links := s.links[t := Connected(sid)])
    case Disconnect(t) =>
      var sid := s.links[t].session;
      Update(s, sid, s.sessions[sid].(isIdle := true, timerArmed := true)).(links := s.links[t := Ended])
    case Fire(sid) =>
      var fired := Update(s, sid, s.sessions[sid].(timerArmed := false));
      Deregistered(fired, s.sessions[sid].id)
    case Issue(sid, handler) =>
      var r := s.sessions[sid];
      Update(s, sid, r.(work := Put(Number(r.work), NextId(r.work, s.prefix), Some(handler))))
    case Retire(sid, recordId) =>
      var r := s.sessions[sid];
      Update(s, sid, r.(work := Put(r.work, recordId, None)))
  }

  // ----- what an orderly run avoids

  /** A stream ends while another one is connected to its session. */
  predicate Overlaps(s: State, a: Action) {
    a.Disconnect? && a.t in s.links && s.links[a.t].Connected?
    && exists u <- s.links :: u != a.t && s.links[u] == s.links[a.t]
  }

  /** The timer fires between a recovery and its StopIdleTimeout. */
  predicate FiresLate(s: State, a: Action) {
    a.Fire? && InUse(s, a.sid)
  }

  /** The random suffix of a generated id hits an occupied slot. */
  predicate Collides(s: State, a: Action) {
    a.Handshake? && Answer(s, a).Registered? && Exists(s.clients, Answer(s, a).clientId)
  }

  predicate Orderly(s: State, a: Action) {
    !Overlaps(s, a) && !FiresLate(s, a) && !Collides(s, a)
  }

  predicate OrderlyRuns(s: State, acts: seq<Action>, s': State)
    decreases |acts|
  {
    if acts == [] then s' == s
    else Enabled(s, acts[0]) && Orderly(s, acts[0]) && OrderlyRuns(Apply(s, acts[0]), acts[1..], s')
  }

  // ----- the invariant

  predicate InUse(s: State, sid: SessionId) {
    exists t <- s.links :: Active(s, t, sid)
  }

  predicate SessionOk(s: State, sid: SessionId)
    requires sid in s.sessions
  {
    var r := s.sessions[sid];
    && r.bearer != ""
    && (r.closes == 0 <==> !r.work.closed) && r.closes <= 1
    && (!r.work.closed ==> Occupant(s.clients, r.id) == Some(sid) && (r.timerArmed <==> r.isIdle))
    && (r.work.closed ==> !r.timerArmed)
    && (!r.work.closed && !r.isIdle ==> InUse(s, sid))
    && r.work.issued < UINT32_RANGE
  }

  predicate LinkOk(s: State, t: StreamId)
    requires t in s.links
  {
    var link := s.links[t];
    !link.Ended? ==>
      && link.session in s.sessions
      && !s.sessions[link.session].work.closed
      && (link.Connected? ==> !s.sessions[link.session].isIdle)
  }

  ghost predicate Inv(s: State) {
    && !s.fault
    && (forall sid :: sid in s.sessions ==> SessionOk(s, sid))
    && (forall t :: t in s.links ==> LinkOk(s, t))
    && (forall id :: Exists(s.clients, id) ==> SlotOk(s, id))
  }

  predicate SlotOk(s: State, id: string)
    requires Exists(s.clients, id)
  {
    var sid := Occupant(s.clients, id).value;
    sid in s.sessions && s.sessions[sid].id == id && !s.sessions[sid].work.closed
  }

  // ----- every orderly step keeps it

  lemma RecoverKeeps(s: State, a: Action)
    requires a.Handshake? && Inv(s) && Enabled(s, a) && Orderly(s, a) && Answer(s, a).Recovered?
    ensures Inv(Apply(s, a))
  {
    var s' := Apply(s, a);
    var sid := Answer(s, a).session;
    assert SlotOk(s, a.clientId);
    forall x | x in s'.sessions ensures SessionOk(s', x) {
      assert SessionOk(s, x);
      if InUse(s, x) { var t :| t in s.links && Active(s, t, x); assert Active(s', t, x); }
    }
    forall t | t in s'.links ensures LinkOk(s', t) {
      if t in s.links { assert LinkOk(s, t); }
    }
    forall id | Exists(s'.clients, id) ensures SlotOk(s', id) { assert SlotOk(s, id); }
  }

  lemma RegisterKeeps(s: State, a: Action)
    requires a.Handshake? && Inv(s) && Enabled(s, a) && Orderly(s, a) && Answer(s, a).Registered?
    ensures Inv(Apply(s, a))
  {
    var s' := Apply(s, a);
    var id := Answer(s, a).clientId;
    forall x | x in s'.sessions ensures SessionOk(s', x) {
      if x == a.created {
        assert Active(s', a.t, x);
      } else {
        assert SessionOk(s, x);
        if InUse(s, x) { var t :| t in s.links && Active(s, t, x); assert Active(s', t, x); }
      }
    }
    forall t | t in s'.links ensures LinkOk(s', t) {
      if t in s.links { assert LinkOk(s, t); }
    }
    forall j | Exists(s'.clients, j) ensures SlotOk(s', j) {
      if j != id { assert Exists(s.clients, j); assert SlotOk(s, j); }
    }
  }

  lemma HandshakeKeeps(s: State, a: Action)
    requires a.Handshake? && Inv(s) && Enabled(s, a) && Orderly(s, a)
    ensures Inv(Apply(s, a))
  {
    match Answer(s, a)
    case Recovered(_) => RecoverKeeps(s, a);
    case Registered(_) => RegisterKeeps(s, a);
    case Rejected =>
  }

  lemma AttachKeeps(s: State, t: StreamId)
    requires Inv(s) && Enabled(s, Attach(t))
    ensures Inv(Apply(s, Attach(t)))
  {
    var s' := Apply(s, Attach(t));
    var sid := s.links[t].session;
    assert LinkOk(s, t);
    forall x | x in s'.sessions ensures SessionOk(s', x) {
      assert SessionOk(s, x);
      assert x == sid ==> Active(s', t, x);
      if InUse(s, x) { var u :| u in s.links && Active(s, u, x); assert Active(s', u, x); }
    }
    forall u | u in s'.links ensures LinkOk(s', u) { assert LinkOk(s, u); }
    forall id | Exists(s'.clients, id) ensures SlotOk(s', id) { assert SlotOk(s, id); }
  }

  lemma DisconnectKeeps(s: State, t: StreamId)
    requires Inv(s) && Enabled(s, Disconnect(t)) && Orderly(s, Disconnect(t))
    ensures Inv(Apply(s, Disconnect(t)))
  {
    var s' := Apply(s, Disconnect(t));
    var sid := s.links[t].session;
    assert LinkOk(s, t) && Active(s, t, sid);
    forall x | x in s'.sessions ensures SessionOk(s', x) {
      assert SessionOk(s, x);
      if x != sid && InUse(s, x) { var u :| u in s.links && Active(s, u, x); assert Active(s', u, x); }
    }
    forall u | u in s'.links ensures LinkOk(s', u) {
      assert LinkOk(s, u);
    }
    forall id | Exists(s'.clients, id) ensures SlotOk(s', id) { assert SlotOk(s, id); }
  }

  /** The reaper finds, closes and unlists exactly the session whose timer fired. */
  lemma FireIsExact(s: State, sid: SessionId)
    requires Inv(s) && Enabled(s, Fire(sid))
    ensures var r := s.sessions[sid];
            Apply(s, Fire(sid)) ==
            s.(sessions := s.sessions[sid := r.(timerArmed := false, closes := 1, work := Close(r.work))],
               clients := s.clients[r.id := None])
  {
    assert SessionOk(s, sid);
  }

  lemma FireKeeps(s: State, sid: SessionId)
    requires Inv(s) && Enabled(s, Fire(sid)) && Orderly(s, Fire(sid))
    ensures Inv(Apply(s, Fire(sid)))
  {
    var s' := Apply(s, Fire(sid));
    assert SessionOk(s, sid);
    FireIsExact(s, sid);
    forall x | x in s'.sessions ensures SessionOk(s', x) {
      assert SessionOk(s, x);
      if InUse(s, x) { var u :| u in s.links && Active(s, u, x); assert Active(s', u, x); }
    }
    forall u | u in s'.links ensures LinkOk(s', u) {
      assert LinkOk(s, u);
      assert !Active(s, u, sid);
    }
    forall id | Exists(s'.clients, id) ensures SlotOk(s', id) { assert SlotOk(s, id); }
  }

  lemma WorkKeeps(s: State, a: Action)
    requires (a.Issue? || a.Retire?) && Inv(s) && Enabled(s, a)
    ensures Inv(Apply(s, a))
  {
    var s' := Apply(s, a);
    forall x | x in s'.sessions ensures SessionOk(s', x) {
      assert SessionOk(s, x);
      if InUse(s, x) { var u :| u in s.links && Active(s, u, x); assert Active(s', u, x); }
    }
    forall u | u in s'.links ensures LinkOk(s', u) { assert LinkOk(s, u); }
    forall id | Exists(s'.clients, id) ensures SlotOk(s', id) { assert SlotOk(s, id); }
  }

  lemma StepKeeps(s: State, a: Action)
    requires Inv(s) && Enabled(s, a) && Orderly(s, a)
    ensures Inv(Apply(s, a))
  {
    match a
    case Handshake(_, _, _, _, _, _) => HandshakeKeeps(s, a);
    case Attach(t) => AttachKeeps(s, t);
    case Disconnect(t) => DisconnectKeeps(s, t);
    case Fire(sid) => FireKeeps(s, sid);
    case _ => WorkKeeps(s, a);
  }

  lemma {:induction false} RunKeeps(s: State, acts: seq<Action>, s': State)
    requires Inv(s) && OrderlyRuns(s, acts, s')
    ensures Inv(s')
    decreases |acts|
  {
    if acts != [] {
      StepKeeps(s, acts[0]);
      RunKeeps(Apply(s, acts[0]), acts[1..], s');
    }
  }
}
