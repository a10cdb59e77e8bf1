/** When records are added in id order the store is a sliding window over the whole history. */
module RecordWindow {
  import opened RecordRuns
  import opened RecordStore
  import opened Sequence

  /** The store after adding `history` in order under the ids base + 1, base + 2, ...: the
      first `base` ids were issued but never added. */
  function AddAll<R>(maxRecords: nat, base: nat, history: seq<R>): Store<R> {
    if history == [] then NewStore(maxRecords)
    else Added(AddAll(maxRecords, base, history[..|history| - 1]), Decimal(base + |history|), history[|history| - 1])
  }

  /** The records of `history` with ids from lo + 1 to hi. */
  function Slice<R>(history: seq<R>, base: nat, lo: nat, hi: nat): map<string, R>
    requires base <= lo && hi <= base + |history|
  {
    if hi <= lo then map[] else Slice(history, base, lo, hi - 1)[Decimal(hi) := history[hi - base - 1]]
  }

  function Max(a: int, b: int): int {
    if a < b then b else a
  }

  lemma {:induction false} SliceKeys<R>(history: seq<R>, base: nat, lo: nat, hi: nat)
    requires base <= lo && hi <= base + |history|
    ensures |Slice(history, base, lo, hi)| == Max(0, hi - lo)
    ensures forall n: nat :: Decimal(n) in Slice(history, base, lo, hi) <==> lo < n <= hi
    decreases hi
  {
    if hi > lo {
      SliceKeys(history, base, lo, hi - 1);
      forall n: nat
        ensures Decimal(n) in Slice(history, base, lo, hi) <==> lo < n <= hi
      {
        DecimalInjective(n, hi);
      }
    }
  }

  /** Deleting the oldest id of a slice leaves the shorter slice. */
  lemma {:induction false} SliceDrop<R>(history: seq<R>, base: nat, lo: nat, hi: nat)
    requires base <= lo < hi <= base + |history|
    ensures Slice(history, base, lo, hi) - {Decimal(lo + 1)} == Slice(history, base, lo + 1, hi)
    decreases hi
  {
    DecimalInjective(lo + 1, hi);
    if hi == lo + 1 {
      assert Slice(history, base, lo, lo) == map[];
    } else {
      SliceDrop(history, base, lo, hi - 1);
    }
  }

  lemma {:induction false} SlicePrefix<R>(history: seq<R>, base: nat, lo: nat, hi: nat)
    requires history != [] && base <= lo && hi < base + |history|
    ensures Slice(history[..|history| - 1], base, lo, hi) == Slice(history, base, lo, hi)
    decreases hi
  {
    if hi > lo {
      SlicePrefix(history, base, lo, hi - 1);
    }
  }

  /** The id before the oldest one kept, after `k` records with ids from base + 1 on. */
  function Oldest(maxRecords: nat, base: nat, k: nat): (lo: nat)
    ensures base <= lo <= base + k
  {
    if k <= maxRecords + base then base else k - maxRecords
  }

  /** The cursor stands at |history| - maxRecords and the store is the slice past it. */
  predicate IsWindow<R(==)>(st: Store<R>, maxRecords: nat, base: nat, history: seq<R>) {
    var k := |history|;
    && st.maxRecords == maxRecords
    && st.lastDeleted == (if k <= maxRecords then 0 else k - maxRecords)
    && st.records == Slice(history, base, Oldest(maxRecords, base, k), base + k)
  }

  lemma InsertedIsSlice<R>(records: map<string, R>, history: seq<R>, base: nat, lo: nat, hi: nat)
    requires history != [] && base <= lo < hi == base + |history|
    requires records == Slice(history[..|history| - 1], base, lo, hi - 1)
    ensures records[Decimal(hi) := history[|history| - 1]] == Slice(history, base, lo, hi)
  {
    SlicePrefix(history, base, lo, hi - 1);
  }

  /** Added, when the insertion is already known. */
  lemma AddedTo<R>(before: Store<R>, key: string, r: R, inserted: map<string, R>) returns (victim: string)
    requires Limited(before.maxRecords) && inserted == before.records[key := r]
    ensures victim == Decimal(before.lastDeleted + 1)
    ensures Added(before, key, r)
            == if |inserted| > before.maxRecords then Store(inserted - {victim}, before.maxRecords, before.lastDeleted + 1)
               else Store(inserted, before.maxRecords, before.lastDeleted)
  {
    victim := Decimal(before.lastDeleted + 1);
  }

  /** One addition to a window: insert the newest, and delete under the cursor if that overflows. */
  lemma WindowAdded<R>(before: Store<R>, maxRecords: nat, base: nat, history: seq<R>) returns (inserted: map<string, R>, victim: string)
    requires Limited(maxRecords) && history != []
    requires IsWindow(before, maxRecords, base, history[..|history| - 1])
    ensures inserted == Slice(history, base, Oldest(maxRecords, base, |history| - 1), base + |history|)
    ensures victim == Decimal(before.lastDeleted + 1)
    ensures before.lastDeleted == if |history| - 1 <= maxRecords then 0 else |history| - 1 - maxRecords
    ensures Added(before, Decimal(base + |history|), history[|history| - 1])
            == if |inserted| > maxRecords then Store(inserted - {victim}, maxRecords, before.lastDeleted + 1)
               else Store(inserted, maxRecords, before.lastDeleted)
  {
    inserted := InsertedOfWindow(before, maxRecords, base, history);
    victim := AddedTo(before, Decimal(base + |history|), history[|history| - 1], inserted);
  }

  lemma InsertedOfWindow<R>(before: Store<R>, maxRecords: nat, base: nat, history: seq<R>) returns (inserted: map<string, R>)
    requires history != [] && IsWindow(before, maxRecords, base, history[..|history| - 1])
    ensures inserted == Slice(history, base, Oldest(maxRecords, base, |history| - 1), base + |history|)
    ensures inserted == before.records[Decimal(base + |history|) := history[|history| - 1]]
    ensures before.maxRecords == maxRecords
    ensures before.lastDeleted == if |history| - 1 <= maxRecords then 0 else |history| - 1 - maxRecords
  {
    var k := |history|;
    assert |history[..k - 1]| == k - 1;
    var lo, hi := Oldest(maxRecords, base, k - 1), base + k;
    inserted := Slice(history, base, lo, hi);
    InsertedIsSlice(before.records, history, base, lo, hi);
  }

  /** What the insertion and the deletion leave. */
  lemma WindowFacts<R>(history: seq<R>, base: nat, maxRecords: nat, lastDeleted: nat, inserted: map<string, R>, victim: string)
    requires Limited(maxRecords) && history != [] && victim == Decimal(lastDeleted + 1)
    requires lastDeleted == (if |history| - 1 <= maxRecords then 0 else |history| - 1 - maxRecords)
    requires inserted == Slice(history, base, Oldest(maxRecords, base, |history| - 1), base + |history|)
    ensures |inserted| == base + |history| - Oldest(maxRecords, base, |history| - 1)
    ensures Slice(history, base, Oldest(maxRecords, base, |history|), base + |history|)
            == if |history| > maxRecords then inserted - {victim} else inserted
  {
    SliceSize(history, base, Oldest(maxRecords, base, |history| - 1), base + |history|);
    WindowMoves(history, base, maxRecords, lastDeleted);
  }

  lemma WindowGrows<R>(before: Store<R>, after: Store<R>, maxRecords: nat, base: nat, history: seq<R>)
    requires Limited(maxRecords) && history != []
    requires IsWindow(before, maxRecords, base, history[..|history| - 1])
    requires after == Added(before, Decimal(base + |history|), history[|history| - 1])
    ensures IsWindow(after, maxRecords, base, history)
  {
    var inserted, victim := WindowAdded(before, maxRecords, base, history);
    WindowFacts(history, base, maxRecords, before.lastDeleted, inserted, victim);
    AfterAdd(after, maxRecords, base, history, before.lastDeleted, inserted, victim);
  }

  /** Putting insertion and deletion together, the two keys being known. */
  lemma AfterAdd<R>(st: Store<R>, maxRecords: nat, base: nat, history: seq<R>, lastDeleted: nat, inserted: map<string, R>, victim: string)
    requires history != [] && lastDeleted == (if |history| - 1 <= maxRecords then 0 else |history| - 1 - maxRecords)
    requires st == if |inserted| > maxRecords then Store(inserted - {victim}, maxRecords, lastDeleted + 1)
                   else Store(inserted, maxRecords, lastDeleted)
    requires |inserted| == base + |history| - Oldest(maxRecords, base, |history| - 1)
    requires Slice(history, base, Oldest(maxRecords, base, |history|), base + |history|)
             == if |history| > maxRecords then inserted - {victim} else inserted
    ensures IsWindow(st, maxRecords, base, history)
  {
  }

  /** Once the window is full, deleting the id under the cursor moves it by one. */
  lemma WindowMoves<R>(history: seq<R>, base: nat, maxRecords: nat, lastDeleted: nat)
    requires history != [] && lastDeleted == (if |history| - 1 <= maxRecords then 0 else |history| - 1 - maxRecords)
    ensures var k := |history|;
            var slice := Slice(history, base, Oldest(maxRecords, base, k - 1), base + k);
            Slice(history, base, Oldest(maxRecords, base, k), base + k)
            == if k > maxRecords then slice - {Decimal(lastDeleted + 1)} else slice
  {
    if |history| > maxRecords {
      CursorMoves(history, base, Oldest(maxRecords, base, |history| - 1), lastDeleted);
    }
  }

  lemma SliceSize<R>(history: seq<R>, base: nat, lo: nat, hi: nat)
    requires base <= lo <= hi <= base + |history|
    ensures |Slice(history, base, lo, hi)| == hi - lo
  {
    SliceKeys(history, base, lo, hi);
  }

  /** What deleting the id under the cursor does to the slice. */
  lemma CursorMoves<R>(history: seq<R>, base: nat, lo: nat, lastDeleted: nat)
    requires lo == (if lastDeleted <= base then base else lastDeleted) && lo < base + |history|
    ensures Slice(history, base, lo, base + |history|) - {Decimal(lastDeleted + 1)}
            == Slice(history, base, if lastDeleted < base then base else lastDeleted + 1, base + |history|)
  {
    if lastDeleted >= base {
      SliceDrop(history, base, lo, base + |history|);
    } else {
      SliceKeys(history, base, lo, base + |history|);
      assert Decimal(lastDeleted + 1) !in Slice(history, base, lo, base + |history|);
    }
  }

  /** For every history, limit and number of ids never added: the store holds exactly the
      records past the cursor. With no id missing that is the last maxRecords of the whole
      history; each missing id makes the store one larger than the limit, for good. */
  lemma {:induction false} SlidingWindow<R>(maxRecords: nat, base: nat, history: seq<R>)
    requires Limited(maxRecords)
    ensures IsWindow(AddAll(maxRecords, base, history), maxRecords, base, history)
    decreases |history|
  {
    if history != [] {
      SlidingWindow(maxRecords, base, history[..|history| - 1]);
      WindowGrows(AddAll(maxRecords, base, history[..|history| - 1]), AddAll(maxRecords, base, history), maxRecords, base, history);
    }
  }

  /** So the size is min(|history|, maxRecords + missing ids), and an id is present exactly
      when it is one of the newest that many. */
  lemma WindowContents<R>(maxRecords: nat, base: nat, history: seq<R>)
    requires Limited(maxRecords)
    ensures var st := AddAll(maxRecords, base, history);
            && |st.records| == (if |history| <= maxRecords + base then |history| else maxRecords + base)
            && forall n: nat :: Decimal(n) in st.records <==> Oldest(maxRecords, base, |history|) < n <= base + |history|
  {
    SlidingWindow(maxRecords, base, history);
    SliceKeys(history, base, Oldest(maxRecords, base, |history|), base + |history|);
  }

  /** Limit 0 keeps everything. A limit that is negative as an int (a negative flag) evicts on
      every add, so in order the store is always empty. */
  lemma {:induction false} UnlimitedAndNegative<R>(maxRecords: nat, history: seq<R>)
    requires maxRecords == 0 || INT_LIMIT <= maxRecords < 2 * INT_LIMIT
    ensures var st := AddAll(maxRecords, 0, history);
            && st.maxRecords == maxRecords
            && (maxRecords == 0 ==> st.records == Slice(history, 0, 0, |history|))
            && (maxRecords > 0 ==> st.records == map[] && st.lastDeleted == |history|)
    decreases |history|
  {
    if history != [] {
      UnlimitedAndNegative(maxRecords, history[..|history| - 1]);
      SlicePrefix(history, 0, 0, |history| - 1);
    }
  }
}
