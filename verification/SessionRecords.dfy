/** The table of a session over every run: a listed record stays listed, through disconnects, new
    handshakes and the end of the session, until it is removed, and then for good. */
module SessionRecords {
  import opened Lifecycle
  import opened Ownership
  import opened Prelude
  import opened Sequence
  import opened SessionTable

  /** The session has issued id number k, and its table says `entry` under that id. */
  predicate Says(s: State, sid: SessionId, k: nat, entry: Option<nat>) {
    && sid in s.sessions && 1 <= k <= s.sessions[sid].work.issued < UINT32_RANGE
    && (s.prefix + Decimal(k)) in s.sessions[sid].work.records
    && s.sessions[sid].work.records[s.prefix + Decimal(k)] == entry
  }

  lemma NewIdDiffers(s: State, sid: SessionId, k: nat)
    requires sid in s.sessions && 1 <= k <= s.sessions[sid].work.issued && s.sessions[sid].work.issued + 1 < UINT32_RANGE
    ensures NextId(s.sessions[sid].work, s.prefix) != s.prefix + Decimal(k)
  {
    NoRepeatBelowRange(s.sessions[sid].work.issued + 1);
    PrefixedInjective(s.prefix, s.sessions[sid].work.issued + 1, k);
  }

  lemma SaysAfter(s: State, a: Action, sid: SessionId, k: nat, entry: Option<nat>)
    requires Enabled(s, a) && Says(s, sid, k, entry)
    requires entry.Some? ==> a != Retire(sid, s.prefix + Decimal(k))
    ensures Says(Apply(s, a), sid, k, entry) && Apply(s, a).prefix == s.prefix
  {
    match a
    case Issue(x, _) => if x == sid { NewIdDiffers(s, sid, k); }
    case _ =>
  }

  lemma {:induction false} SaysForever(s: State, acts: seq<Action>, s': State, sid: SessionId, k: nat, entry: Option<nat>)
    requires Runs(s, acts, s') && Says(s, sid, k, entry)
    requires entry.Some? ==> Retire(sid, s.prefix + Decimal(k)) !in acts
    ensures Says(s', sid, k, entry) && s'.prefix == s.prefix
    decreases |acts|
  {
    if acts != [] {
      SaysAfter(s, acts[0], sid, k, entry);
      SaysForever(Apply(s, acts[0]), acts[1..], s', sid, k, entry);
    }
  }

  /** A request that was numbered and listed is found under its id until it is removed. */
  lemma ListedUntilRemoved(s: State, sid: SessionId, handler: nat, acts: seq<Action>, s': State)
    requires Enabled(s, Issue(sid, handler)) && Runs(Apply(s, Issue(sid, handler)), acts, s')
    requires Retire(sid, s.prefix + Decimal(s.sessions[sid].work.issued + 1)) !in acts
    ensures sid in s'.sessions
    ensures Lookup(s'.sessions[sid].work, s.prefix + Decimal(s.sessions[sid].work.issued + 1)) == Some(handler)
  {
    var k := s.sessions[sid].work.issued + 1;
    NoRepeatBelowRange(k);
    SaysForever(Apply(s, Issue(sid, handler)), acts, s', sid, k, Some(handler));
  }

  /** Once removed it is never found again, below 2^32 ids. */
  lemma RemovedForGood(s: State, sid: SessionId, k: nat, acts: seq<Action>, s': State)
    requires Enabled(s, Retire(sid, s.prefix + Decimal(k))) && 1 <= k <= s.sessions[sid].work.issued < UINT32_RANGE
    requires Runs(Apply(s, Retire(sid, s.prefix + Decimal(k))), acts, s')
    ensures sid in s'.sessions && Lookup(s'.sessions[sid].work, s.prefix + Decimal(k)) == None
  {
    SaysForever(Apply(s, Retire(sid, s.prefix + Decimal(k))), acts, s', sid, k, None);
  }
}
