/** The record store over whole runs: ids are issued in order, records are added in any order
    (a slow request is added late, an abandoned one never), and the store may be cleared. */
module RecordRuns {
  import opened RecordStore
  import opened Sequence

  /** The store maps each printed id to its number. History: `added` holds every id ever added,
      `since` those added since the last clear, in that order; `evicted` lists the ids deletions
      removed, and `misses` counts deletions that removed nothing; `base` and `before` are cursor
      and misses at the last clear. */
  datatype Life = Life(
    store: Store<nat>, issued: nat, added: set<nat>, since: seq<nat>, evicted: seq<nat>, misses: nat, base: nat, before: nat)

  function Start(maxRecords: nat): Life {
    Life(NewStore(maxRecords), 0, {}, [], [], 0, 0, 0)
  }

  datatype Action = Issue | Add(n: nat) | Clear

  predicate Enabled(l: Life, a: Action) {
    match a
    case Issue => l.issued + 1 < UINT32_RANGE
    case Add(n) => 1 <= n <= l.issued && n !in l.added
    case Clear => true
  }

  function Apply(l: Life, a: Action): Life
    requires Enabled(l, a)
  {
    match a
    case Issue => l.(issued := l.issued + 1)
    case Add(n) =>
      var victim := l.store.lastDeleted + 1;
      var evicts := Evicts(l.store, Decimal(n), n);
      var hits := Decimal(victim) in l.store.records[Decimal(n) := n];
      l.(store := Added(l.store, Decimal(n), n), added := l.added + {n}, since := l.since + [n],
         evicted := if evicts && hits then l.evicted + [victim] else l.evicted,
         misses := if evicts && !hits then l.misses + 1 else l.misses)
    case Clear => l.(store := Cleared(l.store), since := [], base := l.store.lastDeleted, before := l.misses)
  }

  predicate Runs(l: Life, acts: seq<Action>, l': Life)
    decreases |acts|
  {
    if acts == [] then l' == l
    else Enabled(l, acts[0]) && Runs(Apply(l, acts[0]), acts[1..], l')
  }

  /** The limit is positive as an int. */
  predicate Limited(maxRecords: nat) {
    0 < maxRecords < INT_LIMIT
  }

  predicate Entry(l: Life, key: string)
    requires key in l.store.records
  {
    var n := l.store.records[key];
    key == Decimal(n) && n in l.added
  }

  ghost predicate Inv(l: Life) {
    && Limited(l.store.maxRecords)
    && (forall n :: n in l.added ==> 1 <= n <= l.issued)
    && (forall n :: n in l.since ==> n in l.added) && |l.since| <= |l.added|
    && EntriesOk(l)
    && EvictedOk(l)
    && CountsOk(l)
  }

  predicate CountsOk(l: Life) {
    && (l.store.lastDeleted == 0 || l.store.lastDeleted + l.store.maxRecords <= |l.added|)
    && l.store.lastDeleted == |l.evicted| + l.misses
    && |l.store.records| <= l.store.maxRecords + l.misses
    && |l.store.records| <= |l.added|
  }

  ghost predicate EntriesOk(l: Life) {
    forall key :: key in l.store.records ==> Entry(l, key)
  }

  ghost predicate EvictedOk(l: Life) {
    && (forall i :: 0 <= i < |l.evicted| ==> 1 <= l.evicted[i] <= l.store.lastDeleted)
    && (forall i, j :: 0 <= i < j < |l.evicted| ==> l.evicted[i] < l.evicted[j])
  }

  lemma {:induction false} RangeSize(s: set<nat>, k: nat)
    requires forall n :: n in s ==> 1 <= n <= k
    ensures |s| <= k
    decreases k
  {
    if k > 0 {
      RangeSize(s - {k}, k - 1);
    } else {
      assert s == {};
    }
  }

  lemma DeleteSize<V>(m: map<string, V>, key: string)
    ensures |m - {key}| == if key in m then |m| - 1 else |m|
  {
    var d := m - {key};
    assert d.Keys == m.Keys - {key};
    assert |d.Keys| == |d| && |m.Keys| == |m|;
  }

  lemma InsertDeleteSize<V>(m: map<string, V>, key: string, v: V, victim: string)
    requires key !in m
    ensures |m[key := v]| == |m| + 1
    ensures |m[key := v] - {victim}| == |m| + if victim in m[key := v] then 0 else 1
  {
    DeleteSize(m[key := v], victim);
  }

  /** Added, when the two keys are already known. */
  lemma AddedSize(st: Store<nat>, key: string, n: nat, victim: string)
    requires key !in st.records && victim == Decimal(st.lastDeleted + 1)
    ensures |Added(st, key, n).records| == |st.records| + if Evicts(st, key, n) && victim in st.records[key := n] then 0 else 1
  {
    InsertDeleteSize(st.records, key, n, victim);
  }

  /** The addition deletes, and the deletion finds the id under the cursor. */
  predicate Finds(l: Life, n: nat) {
    Evicts(l.store, Decimal(n), n) && Decimal(l.store.lastDeleted + 1) in l.store.records[Decimal(n) := n]
  }

  /** What one addition does to the size. */
  lemma AddSize(l: Life, n: nat)
    requires Inv(l) && Enabled(l, Add(n))
    ensures |Apply(l, Add(n)).store.records| == |l.store.records| + if Finds(l, n) then 0 else 1
  {
    AddIsNew(l, n);
    AddedSize(l.store, Decimal(n), n, Decimal(l.store.lastDeleted + 1));
  }

  /** Adding a new id inserts a new key. */
  lemma AddIsNew(l: Life, n: nat)
    requires Inv(l) && Enabled(l, Add(n))
    ensures Decimal(n) !in l.store.records
    ensures |l.store.records[Decimal(n) := n]| == |l.store.records| + 1
    ensures |l.added + {n}| == |l.added| + 1
  {
    if Decimal(n) in l.store.records {
      assert Entry(l, Decimal(n));
      DecimalInjective(n, l.store.records[Decimal(n)]);
    }
  }

  lemma AddKeepsEntries(l: Life, n: nat)
    requires EntriesOk(l) && Enabled(l, Add(n))
    ensures EntriesOk(Apply(l, Add(n)))
  {
    var l' := Apply(l, Add(n));
    forall key | key in l'.store.records
      ensures Entry(l', key)
    {
      assert key != Decimal(n) ==> Entry(l, key);
    }
  }

  lemma AddKeepsEvicted(l: Life, n: nat)
    requires EvictedOk(l) && Enabled(l, Add(n))
    ensures EvictedOk(Apply(l, Add(n)))
  {
  }

  lemma AddKeepsInv(l: Life, n: nat)
    requires Inv(l) && Enabled(l, Add(n))
    ensures Inv(Apply(l, Add(n)))
  {
    AddKeepsCounts(l, n);
    AddKeepsEntries(l, n);
    AddKeepsEvicted(l, n);
  }

  lemma AddKeepsCounts(l: Life, n: nat)
    requires Inv(l) && Enabled(l, Add(n))
    ensures CountsOk(Apply(l, Add(n)))
  {
    AddIsNew(l, n);
    AddSize(l, n);
  }

  lemma StepKeepsInv(l: Life, a: Action)
    requires Inv(l) && Enabled(l, a)
    ensures Inv(Apply(l, a))
  {
    if a.Add? {
      AddKeepsInv(l, a.n);
    } else {
      forall key | key in Apply(l, a).store.records ensures Entry(Apply(l, a), key) { assert Entry(l, key); }
    }
  }

  lemma {:induction false} RunKeepsInv(l: Life, acts: seq<Action>, l': Life)
    requires Inv(l) && Runs(l, acts, l')
    ensures Inv(l')
    decreases |acts|
  {
    if acts != [] {
      StepKeepsInv(l, acts[0]);
      RunKeepsInv(Apply(l, acts[0]), acts[1..], l');
    }
  }

  lemma ReachedHasInv(maxRecords: nat, acts: seq<Action>, l: Life)
    requires Limited(maxRecords) && Runs(Start(maxRecords), acts, l)
    ensures Inv(l)
  {
    RunKeepsInv(Start(maxRecords), acts, l);
  }

  /** Eviction safety, in every run: a record that an AddRecord removes has at least maxRecords
      later ids issued after it. */
  lemma EvictionSparesRecent(maxRecords: nat, acts: seq<Action>, l: Life, n: nat, key: string)
    requires Limited(maxRecords) && Runs(Start(maxRecords), acts, l) && Enabled(l, Add(n))
    requires key in l.store.records[Decimal(n) := n] && key !in Apply(l, Add(n)).store.records
    ensures var victim := l.store.records[Decimal(n) := n][key];
            key == Decimal(victim) && victim + maxRecords <= l.issued
  {
    ReachedHasInv(maxRecords, acts, l);
    LimitKept(Start(maxRecords), acts, l);
    RemovedIsVictim(l, n, key);
    CursorBehind(l, n);
  }

  /** An addition removes at most the id under the cursor. */
  lemma RemovedIsVictim(l: Life, n: nat, key: string)
    requires Inv(l) && Enabled(l, Add(n))
    requires key in l.store.records[Decimal(n) := n] && key !in Apply(l, Add(n)).store.records
    ensures Evicts(l.store, Decimal(n), n)
    ensures key == Decimal(l.store.lastDeleted + 1) && l.store.records[Decimal(n) := n][key] == l.store.lastDeleted + 1
  {
    assert key == Decimal(l.store.lastDeleted + 1);
    assert key != Decimal(n) ==> Entry(l, key);
    DecimalInjective(l.store.records[Decimal(n) := n][key], l.store.lastDeleted + 1);
  }

  /** The cursor stays a whole window behind the ids issued. */
  lemma CursorBehind(l: Life, n: nat)
    requires Inv(l) && Enabled(l, Add(n)) && Evicts(l.store, Decimal(n), n)
    ensures l.store.lastDeleted + 1 + l.store.maxRecords <= l.issued
  {
    AddKeepsInv(l, n);
    RangeSize(l.added + {n}, l.issued);
  }

  lemma {:induction false} LimitKept(l: Life, acts: seq<Action>, l': Life)
    requires Runs(l, acts, l')
    ensures l'.store.maxRecords == l.store.maxRecords
    decreases |acts|
  {
    if acts != [] {
      LimitKept(Apply(l, acts[0]), acts[1..], l');
    }
  }

  /** In every run evicted ids strictly increase, the cursor counts all evictions, and the store
      never exceeds maxRecords plus the number of evictions that hit nothing. */
  lemma SizeBound(maxRecords: nat, acts: seq<Action>, l: Life)
    requires Limited(maxRecords) && Runs(Start(maxRecords), acts, l)
    ensures |l.store.records| <= maxRecords + l.misses
    ensures l.store.lastDeleted == |l.evicted| + l.misses
    ensures forall i, j :: 0 <= i < j < |l.evicted| ==> l.evicted[i] < l.evicted[j]
  {
    ReachedHasInv(maxRecords, acts, l);
    LimitKept(Start(maxRecords), acts, l);
  }

  /** One addition, in every run, clears included: a store within the limit stays within it if
      and only if it has room, or the deletion finds the id under the cursor. */
  lemma AddStaysBounded(maxRecords: nat, acts: seq<Action>, l: Life, n: nat)
    requires Limited(maxRecords) && Runs(Start(maxRecords), acts, l) && Enabled(l, Add(n))
    requires |l.store.records| <= maxRecords
    ensures |Apply(l, Add(n)).store.records| <= maxRecords
            <==> |l.store.records| < maxRecords || n == l.store.lastDeleted + 1 || Decimal(l.store.lastDeleted + 1) in l.store.records
  {
    ReachedHasInv(maxRecords, acts, l);
    LimitKept(Start(maxRecords), acts, l);
    AddIsNew(l, n);
    AddSize(l, n);
    DecimalInjective(n, l.store.lastDeleted + 1);
  }

  // ----- the store in every run, in any order of completion, since the last clear

  /** How often the cursor has moved after so many additions. */
  function Moves(since: seq<nat>, maxRecords: nat): (k: nat) {
    if |since| <= maxRecords then 0 else |since| - maxRecords
  }

  /** The id of the cursor's j-th move was among the first maxRecords + j ids added: it was there
      when the cursor came by. */
  predicate InTime(since: seq<nat>, maxRecords: nat, base: nat, j: nat)
    requires maxRecords + j <= |since|
  {
    base + j in since[..maxRecords + j]
  }

  /** How many of the first k moves found nothing. */
  function Late(since: seq<nat>, maxRecords: nat, base: nat, k: nat): (n: nat)
    requires k == 0 || maxRecords + k <= |since|
  {
    if k == 0 then 0 else Late(since, maxRecords, base, k - 1) + if InTime(since, maxRecords, base, k) then 0 else 1
  }

  /** What a store holds: every id added, except those the cursor found. */
  predicate Holds(since: seq<nat>, maxRecords: nat, base: nat, n: nat) {
    n in since && (base < n <= base + Moves(since, maxRecords) ==> !InTime(since, maxRecords, base, n - base))
  }

  lemma LateGrows(since: seq<nat>, maxRecords: nat, base: nat, n: nat, k: nat)
    requires k == 0 || maxRecords + k <= |since|
    ensures Late(since + [n], maxRecords, base, k) == Late(since, maxRecords, base, k)
  {
    if k > 0 {
      LateGrows(since, maxRecords, base, n, k - 1);
      assert (since + [n])[..maxRecords + k] == since[..maxRecords + k];
    }
  }

  lemma {:induction false} NoneLate(since: seq<nat>, maxRecords: nat, base: nat, k: nat)
    requires k == 0 || maxRecords + k <= |since|
    ensures Late(since, maxRecords, base, k) == 0 <==> forall j :: 1 <= j <= k ==> InTime(since, maxRecords, base, j)
  {
    if k > 0 {
      NoneLate(since, maxRecords, base, k - 1);
    }
  }

  function LateNow(l: Life): nat {
    Late(l.since, l.store.maxRecords, l.base, Moves(l.since, l.store.maxRecords))
  }

  ghost predicate Exact(l: Life) {
    && Inv(l)
    && l.store.lastDeleted == l.base + Moves(l.since, l.store.maxRecords)
    && l.misses == l.before + LateNow(l)
    && |l.store.records| == |l.since| - Moves(l.since, l.store.maxRecords) + LateNow(l)
    && (forall n: nat :: Decimal(n) in l.store.records <==> Holds(l.since, l.store.maxRecords, l.base, n))
  }

  /** The cursor moves exactly when the limit was reached by additions. */
  lemma AddEvicts(l: Life, n: nat)
    requires Exact(l) && Enabled(l, Add(n))
    ensures Evicts(l.store, Decimal(n), n) <==> |l.since| >= l.store.maxRecords
  {
    AddIsNew(l, n);
  }

  /** Whether an addition, since the last clear, deletes and misses. */
  predicate Misses(l: Life, n: nat) {
    |l.since| >= l.store.maxRecords && l.store.lastDeleted + 1 !in l.since + [n]
  }

  /** A deletion finds the id under the cursor exactly if that has been added since. */
  lemma AddFinds(l: Life, n: nat)
    requires Exact(l) && Enabled(l, Add(n))
    ensures Finds(l, n) <==> |l.since| >= l.store.maxRecords && !Misses(l, n)
  {
    var victim := l.store.lastDeleted + 1;
    AddEvicts(l, n);
    DecimalInjective(n, victim);
    assert Holds(l.since, l.store.maxRecords, l.base, victim) <==> victim in l.since;
  }

  lemma AddedKeys(st: Store<nat>, n: nat, m: nat)
    ensures Decimal(m) in Added(st, Decimal(n), n).records
            <==> (Decimal(m) in st.records || m == n) && !(Evicts(st, Decimal(n), n) && m == st.lastDeleted + 1)
  {
    DecimalInjective(m, n);
    DecimalInjective(m, st.lastDeleted + 1);
  }

  lemma HoldsGrows(since: seq<nat>, maxRecords: nat, base: nat, n: nat, m: nat)
    requires n !in since
    ensures Holds(since + [n], maxRecords, base, m)
            <==> (Holds(since, maxRecords, base, m) || m == n)
                 && !(|since| >= maxRecords && m == base + Moves(since, maxRecords) + 1)
  {
    var since' := since + [n];
    assert m in since' <==> m in since || m == n;
    if base < m <= base + Moves(since, maxRecords) {
      assert since'[..maxRecords + (m - base)] == since[..maxRecords + (m - base)];
      assert n !in since[..maxRecords + (m - base)];
    } else if |since| >= maxRecords && m == base + Moves(since, maxRecords) + 1 {
      assert since'[..maxRecords + (m - base)] == since';
    }
  }

  lemma AddKeepsHolds(l: Life, n: nat, m: nat)
    requires Exact(l) && Enabled(l, Add(n))
    ensures Decimal(m) in Apply(l, Add(n)).store.records <==> Holds(l.since + [n], l.store.maxRecords, l.base, m)
  {
    AddEvicts(l, n);
    AddedKeys(l.store, n, m);
    HoldsGrows(l.since, l.store.maxRecords, l.base, n, m);
  }

  /** One more addition makes one more move late, if the cursor moves to an id not yet added. */
  lemma LateNext(since: seq<nat>, maxRecords: nat, base: nat, n: nat)
    ensures var since' := since + [n];
            Late(since', maxRecords, base, Moves(since', maxRecords))
            == Late(since, maxRecords, base, Moves(since, maxRecords))
               + if |since| >= maxRecords && base + Moves(since, maxRecords) + 1 !in since' then 1 else 0
  {
    var since', k := since + [n], Moves(since, maxRecords);
    LateGrows(since, maxRecords, base, n, k);
    if |since| >= maxRecords {
      assert since'[..maxRecords + (k + 1)] == since';
    }
  }

  lemma AddMovesCursor(l: Life, n: nat)
    requires Exact(l) && Enabled(l, Add(n))
    ensures Apply(l, Add(n)).store.lastDeleted == l.base + Moves(l.since + [n], l.store.maxRecords)
  {
    AddEvicts(l, n);
  }

  lemma AddCountsMisses(l: Life, n: nat)
    requires Exact(l) && Enabled(l, Add(n))
    ensures Apply(l, Add(n)).misses == l.misses + if Misses(l, n) then 1 else 0
  {
    AddEvicts(l, n);
    AddFinds(l, n);
  }

  lemma AddCountsLate(l: Life, n: nat)
    requires Exact(l) && Enabled(l, Add(n))
    ensures LateNow(Apply(l, Add(n))) == LateNow(l) + if Misses(l, n) then 1 else 0
  {
    LateNext(l.since, l.store.maxRecords, l.base, n);
  }

  lemma AddChangesSize(l: Life, n: nat)
    requires Exact(l) && Enabled(l, Add(n))
    ensures |Apply(l, Add(n)).store.records|
            == |l.store.records| + if |l.since| < l.store.maxRecords || Misses(l, n) then 1 else 0
  {
    AddFinds(l, n);
    AddSize(l, n);
  }

  lemma AddKeepsExact(l: Life, n: nat)
    requires Exact(l) && Enabled(l, Add(n))
    ensures Exact(Apply(l, Add(n)))
  {
    var l' := Apply(l, Add(n));
    AddKeepsInv(l, n);
    AddMovesCursor(l, n);
    AddCountsMisses(l, n);
    AddCountsLate(l, n);
    AddChangesSize(l, n);
    forall m: nat ensures Decimal(m) in l'.store.records <==> Holds(l'.since, l'.store.maxRecords, l'.base, m) {
      AddKeepsHolds(l, n, m);
    }
  }

  lemma OtherKeepsExact(l: Life, a: Action)
    requires Exact(l) && Enabled(l, a) && !a.Add?
    ensures Exact(Apply(l, a))
  {
    StepKeepsInv(l, a);
  }

  lemma {:induction false} RunKeepsExact(l: Life, acts: seq<Action>, l': Life)
    requires Exact(l) && Runs(l, acts, l')
    ensures Exact(l')
    decreases |acts|
  {
    if acts != [] {
      if acts[0].Add? {
        AddKeepsExact(l, acts[0].n);
      } else {
        OtherKeepsExact(l, acts[0]);
      }
      RunKeepsExact(Apply(l, acts[0]), acts[1..], l');
    }
  }

  /** In every run, in whatever order requests complete, whichever ids are abandoned and however
      often the store is cleared, the additions since the last clear and the cursor at that clear
      decide the store: where the cursor stands, how often it missed since, how large the store is
      and what it holds. */
  lemma StoreIsExact(maxRecords: nat, acts: seq<Action>, l: Life)
    requires Limited(maxRecords) && Runs(Start(maxRecords), acts, l)
    ensures l.store.lastDeleted == l.base + Moves(l.since, maxRecords)
    ensures l.misses == l.before + Late(l.since, maxRecords, l.base, Moves(l.since, maxRecords))
    ensures |l.store.records| == (if |l.since| <= maxRecords then |l.since| else maxRecords) + l.misses - l.before
    ensures forall n: nat :: Decimal(n) in l.store.records <==> Holds(l.since, maxRecords, l.base, n)
  {
    RunKeepsExact(Start(maxRecords), acts, l);
    LimitKept(Start(maxRecords), acts, l);
  }

  /** So in every run the bound holds exactly if the cursor has not missed since the last clear:
      the id of its j-th move since then was always among the first maxRecords + j ids added. */
  lemma BoundedExactly(maxRecords: nat, acts: seq<Action>, l: Life)
    requires Limited(maxRecords) && Runs(Start(maxRecords), acts, l)
    ensures |l.store.records| <= maxRecords <==> l.misses == l.before
    ensures l.misses == l.before
            <==> forall j :: 1 <= j <= Moves(l.since, maxRecords) ==> InTime(l.since, maxRecords, l.base, j)
  {
    StoreIsExact(maxRecords, acts, l);
    NoneLate(l.since, maxRecords, l.base, Moves(l.since, maxRecords));
  }

  // ----- reorder tolerance

  /** The id that leaves the window of the maxRecords newest ids has been added by then. */
  predicate Timely(l: Life, a: Action) {
    match a
    case Issue => l.issued + 1 > l.store.maxRecords ==> l.issued + 1 - l.store.maxRecords in l.added
    case Add(_) => true
    case Clear => false
  }

  predicate TimelyRuns(l: Life, acts: seq<Action>, l': Life)
    decreases |acts|
  {
    if acts == [] then l' == l
    else Enabled(l, acts[0]) && Timely(l, acts[0]) && TimelyRuns(Apply(l, acts[0]), acts[1..], l')
  }

  lemma {:induction false} TimelyRunsAreRuns(l: Life, acts: seq<Action>, l': Life)
    requires TimelyRuns(l, acts, l')
    ensures Runs(l, acts, l')
    decreases |acts|
  {
    if acts != [] {
      TimelyRunsAreRuns(Apply(l, acts[0]), acts[1..], l');
    }
  }

  /** Nothing was cleared, all ids outside the window are added, and each was added in time. */
  ghost predicate Window(l: Life) {
    && Inv(l) && l.base == 0 && l.before == 0
    && (forall n :: n in l.added ==> n in l.since)
    && (forall n :: 1 <= n && n + l.store.maxRecords <= l.issued ==> n in l.added)
    && (forall j :: 1 <= j <= Moves(l.since, l.store.maxRecords) ==> InTime(l.since, l.store.maxRecords, 0, j))
  }

  lemma WindowIssue(l: Life)
    requires Window(l) && Enabled(l, Issue) && Timely(l, Issue)
    ensures Window(Apply(l, Issue))
  {
    var l' := Apply(l, Issue);
    StepKeepsInv(l, Issue);
    assert l'.store == l.store && l'.added == l.added && l'.since == l.since;
    forall n | 1 <= n && n + l'.store.maxRecords <= l'.issued
      ensures n in l'.added
    {
      if n + l'.store.maxRecords == l'.issued {
        assert n == l.issued + 1 - l.store.maxRecords;
      }
    }
  }

  lemma WindowAdd(l: Life, n: nat)
    requires Window(l) && Enabled(l, Add(n))
    ensures Window(Apply(l, Add(n)))
  {
    var l' := Apply(l, Add(n));
    var limit := l.store.maxRecords;
    AddKeepsInv(l, n);
    RangeSize(l'.added, l'.issued);
    forall m | m in l'.added ensures m in l'.since {
      assert m == n || m in l.since;
    }
    forall j | 1 <= j <= Moves(l'.since, limit)
      ensures InTime(l'.since, limit, 0, j)
    {
      if limit + j <= |l.since| {
        assert InTime(l.since, limit, 0, j);
        assert l'.since[..limit + j] == l.since[..limit + j];
      } else {
        assert l'.since[..limit + j] == l'.since;
      }
    }
  }

  lemma {:induction false} TimelyKeepsWindow(l: Life, acts: seq<Action>, l': Life)
    requires Window(l) && TimelyRuns(l, acts, l')
    ensures Window(l')
    decreases |acts|
  {
    if acts != [] {
      if acts[0].Add? {
        WindowAdd(l, acts[0].n);
      } else {
        WindowIssue(l);
      }
      TimelyKeepsWindow(Apply(l, acts[0]), acts[1..], l');
    }
  }

  /** Reorder tolerance: if nothing is cleared and every id is added before maxRecords later ids
      are issued, then in whatever order requests complete the cursor never misses, the store
      never exceeds maxRecords, and it holds exactly the added ids the cursor has not passed. */
  lemma ReorderTolerance(maxRecords: nat, acts: seq<Action>, l: Life)
    requires Limited(maxRecords) && TimelyRuns(Start(maxRecords), acts, l)
    ensures l.misses == 0 && l.store.maxRecords == maxRecords && |l.store.records| <= maxRecords
    ensures forall n: nat :: Decimal(n) in l.store.records <==> n in l.added && n > l.store.lastDeleted
  {
    TimelyRunsAreRuns(Start(maxRecords), acts, l);
    TimelyKeepsWindow(Start(maxRecords), acts, l);
    StoreIsExact(maxRecords, acts, l);
    BoundedExactly(maxRecords, acts, l);
    LimitKept(Start(maxRecords), acts, l);
  }

  /** Timeliness is more than is needed: ids 1 and 2 issued together and added in order keep a
      store of one record within its limit. */
  lemma UntimelyButBounded() returns (acts: seq<Action>, l: Life)
    ensures Runs(Start(1), acts, l) && !TimelyRuns(Start(1), acts, l)
    ensures l.misses == 0 && |l.store.records| <= 1
  {
    var l1 := Apply(Start(1), Issue);
    var l2 := Apply(l1, Issue);
    var l3 := Apply(l2, Add(1));
    l := Apply(l3, Add(2));
    acts := [Issue, Issue, Add(1), Add(2)];
    assert acts[1..] == [Issue, Add(1), Add(2)] && acts[1..][1..] == [Add(1), Add(2)];
    assert [Add(1), Add(2)][1..] == [Add(2)] && [Add(2)][1..] == [];
    assert Runs(l, [], l) && Runs(l3, [Add(2)], l) && Runs(l2, [Add(1), Add(2)], l) && Runs(l1, acts[1..], l);
    assert !Timely(l1, Issue);
    assert !TimelyRuns(l1, acts[1..], l);
    assert l.since == [1, 2] && l.base == 0;
    BoundedExactly(1, acts, l);
    assert l.since[..2] == [1, 2];
  }

  lemma {:induction false} RunSnoc(l: Life, acts: seq<Action>, mid: Life, a: Action)
    requires Runs(l, acts, mid) && Enabled(mid, a)
    ensures Runs(l, acts + [a], Apply(mid, a))
    decreases |acts|
  {
    if acts == [] {
      assert [a][1..] == [] && acts + [a] == [a];
      assert Runs(Apply(mid, a), [], Apply(mid, a));
    } else {
      RunSnoc(Apply(l, acts[0]), acts[1..], mid, a);
      assert (acts + [a])[1..] == acts[1..] + [a];
    }
  }

  /** Issues the next id and adds it at once. */
  lemma IssueAndAdd(l0: Life, acts: seq<Action>, l: Life) returns (acts': seq<Action>, l': Life)
    requires Runs(l0, acts, l) && l.issued + 1 < UINT32_RANGE && l.issued + 1 !in l.added
    ensures Runs(l0, acts', l') && acts' == acts + [Issue] + [Add(l.issued + 1)]
    ensures l' == Apply(Apply(l, Issue), Add(l.issued + 1))
  {
    RunSnoc(l0, acts, l, Issue);
    RunSnoc(l0, acts + [Issue], Apply(l, Issue), Add(l.issued + 1));
    acts', l' := acts + [Issue] + [Add(l.issued + 1)], Apply(Apply(l, Issue), Add(l.issued + 1));
  }

  /** Even with every request added at once a clear can break the bound: the cursor still names
      ids from before the clear, and the next deletion finds nothing. */
  lemma ClearOverflows() returns (acts: seq<Action>, l: Life)
    ensures Runs(Start(1), acts, l)
    ensures acts == [Issue] + [Add(1)] + [Clear] + [Issue] + [Add(2)] + [Issue] + [Add(3)]
    ensures |l.store.records| == 2
  {
    assert Runs(Start(1), [], Start(1));
    var acts1, l1 := IssueAndAdd(Start(1), [], Start(1));
    RunSnoc(Start(1), acts1, l1, Clear);
    var acts2, l2 := IssueAndAdd(Start(1), acts1 + [Clear], Apply(l1, Clear));
    acts, l := IssueAndAdd(Start(1), acts2, l2);
    StoreIsExact(1, acts, l);
    assert [] + [Issue] == [Issue];
    assert l.since == [] + [2] + [3] == [2, 3];
    StoreIsExact(1, acts1, l1);
    assert l.base == l1.store.lastDeleted == 0;
    assert l.since[..2] == [2, 3];
    assert Late(l.since, 1, 0, 1) == 1;
  }
}
