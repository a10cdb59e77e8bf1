/** Durations in nanoseconds (ParseDuration in pkg/parser/text.go). */
module Duration {
  import opened DurationFormat
  import opened Prelude
  import opened Sequence

  const MAX_INT64: int := 0x7fff_ffff_ffff_ffff
  const INT64_RANGE: int := 0x1_0000_0000_0000_0000

  datatype Error = InvalidFormat | InvalidComponent | InvalidNumber(number: string) | InvalidQualifier(unit: string)

  // ----- 64-bit arithmetic

  function Wrap(x: int): (r: int)
    ensures -MAX_INT64 - 1 <= r <= MAX_INT64
    ensures -MAX_INT64 - 1 <= x <= MAX_INT64 ==> r == x
  {
    (x + MAX_INT64 + 1) % INT64_RANGE - MAX_INT64 - 1
  }

  lemma WrapIsCongruent(x: int, y: int)
    ensures Wrap(x) == Wrap(y) <==> (x - y) % INT64_RANGE == 0
  {
  }

  /** Wrapping early and wrapping late agree. */
  lemma WrapAdd(x: int, y: int)
    ensures Wrap(Wrap(x) + Wrap(y)) == Wrap(x + y)
  {
  }

  lemma WrapMul(x: int, k: int)
    ensures Wrap(Wrap(x) * k) == Wrap(x * k)
  {
    var q := (x + MAX_INT64 + 1) / INT64_RANGE;
    assert Wrap(x) == x - q * INT64_RANGE;
    assert Wrap(x) * k - x * k == (-q * k) * INT64_RANGE;
    MultipleOfRange(-q * k);
    WrapIsCongruent(Wrap(x) * k, x * k);
  }

  lemma MultipleOfRange(q: int)
    ensures (q * INT64_RANGE) % INT64_RANGE == 0
  {
  }

  // ----- what a text means

  /** strings.ToLower: ASCII letters, and the two other characters that lower to ASCII ones. */
  function LowerChar(c: char): char {
    if 'A' <= c <= 'Z' then 'a' + (c - 'A')
    else if c == '\U{0130}' then 'i'
    else if c == '\U{212A}' then 'k'
    else c
  }

  function ToLower(s: string): string {
    seq(|s|, i requires 0 <= i < |s| => LowerChar(s[i]))
  }

  /** strconv.Atoi on digits and points: no fraction, nothing above MaxInt64. */
  function Atoi(number: string): Option<int> {
    if IsWhole(number) && Numeral(number) <= MAX_INT64 then Some(Numeral(number)) else None
  }

  predicate Whole(p: Piece) {
    Atoi(p.number).Some?
  }

  predicate AllWhole(ps: seq<Piece>) {
    forall i :: 0 <= i < |ps| ==> Whole(ps[i])
  }

  function Nanos(p: Piece): (n: nat)
    requires WellFormed(p)
  {
    InNanos(Numeral(p.number), p.unit).value
  }

  /** The sum a reader of the text would expect, in unbounded arithmetic. */
  function ExactSum(ps: seq<Piece>): (n: nat)
    requires AllWellFormed(ps)
  {
    if ps == [] then 0 else Nanos(ps[0]) + ExactSum(ps[1..])
  }

  /** The loop over the captured pieces, left to right. */
  function Total(captured: seq<Piece>): Result<int, Error> {
    if captured == [] then Ok(0) else
      var last := captured[|captured| - 1];
      match Total(captured[..|captured| - 1])
      case Err(e) => Err(e)
      case Ok(total) => AddPiece(total, last.number, last.unit)
  }

  /** One round of it: total += time.Duration(num) * unit. */
  function AddPiece(total: int, number: string, unit: string): Result<int, Error> {
    if Atoi(number).None? then Err(InvalidNumber(number))
    else match InNanos(Atoi(number).value, unit)
         case None => Err(InvalidQualifier(unit))
         case Some(nanos) => Ok(Wrap(total + Wrap(nanos)))
  }

  /** What becomes of the text made of these pieces. */
  function Reading(ps: seq<Piece>): Result<int, Error> {
    Total(Kept(ps))
  }

  function ReadingOfMatch(match_: Option<seq<Piece>>): Result<int, Error> {
    if match_.None? || match_.value == [] then Err(InvalidFormat) else Reading(match_.value)
  }

  /** What a lower-case text means. */
  function Meaning(s: string): Result<int, Error> {
    if s == "0" then Ok(0)
    else if s == "max" then Ok(MAX_INT64)
    else ReadingOfMatch(Scan(s))
  }

  /** What ParseDuration returns. */
  function Parsed(text: string): Result<int, Error> {
    Meaning(ToLower(text))
  }

  // ----- the code

  /** validateAndSplit. */
  function ValidateAndSplit(input: string): Result<seq<string>, Error> {
    if LastMatch(input).None? then Err(InvalidFormat) else Ok(Fields(input))
  }

  /** extractNumberAndQualifier. */
  function ExtractNumberAndQualifier(component: string): Result<(string, string), Error> {
    match LastMatch(component)
    case None => Err(InvalidComponent)
    case Some(p) => Ok((p.number, p.unit))
  }

  /** The switch on the qualifier; every product and every sum wraps. */
  method AddComponent(total: int, value: string, qualifier: string) returns (r: Result<int, Error>)
    ensures r == AddPiece(total, value, qualifier)
  {
    var number := Atoi(value);
    if number.None? {
      return Err(InvalidNumber(value));
    }
    var num := number.value;
    match qualifier {
      case "d" =>
        WrapMul(num * 24, HOUR);
        r := Ok(Wrap(total + Wrap(Wrap(num * 24) * HOUR)));
      case "h" => r := Ok(Wrap(total + Wrap(num * HOUR)));
      case "m" => r := Ok(Wrap(total + Wrap(num * 60_000_000_000)));
      case "min" => r := Ok(Wrap(total + Wrap(num * 60_000_000_000)));
      case "s" => r := Ok(Wrap(total + Wrap(num * 1_000_000_000)));
      case "ms" => r := Ok(Wrap(total + Wrap(num * 1_000_000)));
      case "ns" => r := Ok(Wrap(total + Wrap(num)));
      case _ => r := Err(InvalidQualifier(qualifier));
    }
  }

  /** The code matches and splits first and matches every field again; that amounts to
      captures of the last piece of every field. */
  method ParseDuration(text: string) returns (r: Result<int, Error>)
    ensures r == Parsed(text)
  {
    var input := ToLower(text);
    if input == "0" {
      return Ok(0);
    }
    if input == "max" {
      return Ok(MAX_INT64);
    }
    var split := ValidateAndSplit(input);
    if split.Err? {
      return Err(split.error);
    }
    ghost var kept := SplitIsKept(input);
    r := SumComponents(split.value, kept);
  }

  /** The loop of ParseDuration. */
  method SumComponents(components: seq<string>, ghost kept: seq<Piece>) returns (r: Result<int, Error>)
    requires Captures(components, kept)
    ensures r == Total(kept)
  {
    var total, i := 0, 0;
    TotalStart(kept);
    while i < |components|
      invariant 0 <= i <= |components|
      invariant TotalSoFar(kept, i, total)
    {
      var sum := AddField(total, components, i, kept);
      if sum.Err? {
        return sum;
      }
      total := sum.value;
      i := i + 1;
    }
    TotalDone(kept, total);
    r := Ok(total);
  }

  /** One round of it: match the field again, and add what was captured. */
  method AddField(total: int, components: seq<string>, i: nat, ghost kept: seq<Piece>) returns (r: Result<int, Error>)
    requires Captures(components, kept) && i < |components| && TotalSoFar(kept, i, total)
    ensures r.Ok? ==> TotalSoFar(kept, i + 1, r.value)
    ensures r.Err? ==> Total(kept) == r
  {
    var extracted := ExtractNumberAndQualifier(components[i]);
    if extracted.Err? {
      return Err(InvalidComponent);
    }
    var (value, qualifier) := extracted.value;
    r := AddComponent(total, value, qualifier);
    TotalNext(kept, i, total, r);
  }

  /** The captures of the fields are the kept pieces. */
  ghost predicate Captures(components: seq<string>, kept: seq<Piece>) {
    |components| == |kept| && forall i :: 0 <= i < |kept| ==>
      ExtractNumberAndQualifier(components[i]) == Ok((kept[i].number, kept[i].unit))
  }

  lemma SplitIsKept(input: string) returns (kept: seq<Piece>)
    requires input != "0" && input != "max" && ValidateAndSplit(input).Ok?
    ensures Captures(ValidateAndSplit(input).value, kept)
    ensures Meaning(input) == Total(kept)
  {
    kept := Kept(Scan(input).value);
    var fields := Fields(input);
    PrintOfScan(input);
    FieldsOfPrint(Scan(input).value);
    FieldAt(fields, kept, |fields|);
    forall i | 0 <= i < |kept|
      ensures ExtractNumberAndQualifier(fields[i]) == Ok((kept[i].number, kept[i].unit))
    {
      FieldAt(fields, kept, i);
    }
  }

  ghost predicate TotalSoFar(kept: seq<Piece>, i: nat, total: int) {
    i <= |kept| && Total(kept[..i]) == Ok(total)
  }

  lemma TotalNext(kept: seq<Piece>, i: nat, total: int, sum: Result<int, Error>)
    requires i < |kept| && TotalSoFar(kept, i, total) && sum == AddPiece(total, kept[i].number, kept[i].unit)
    ensures sum.Ok? ==> TotalSoFar(kept, i + 1, sum.value)
    ensures sum.Err? ==> Total(kept) == sum
  {
    assert kept[..i + 1][..i] == kept[..i];
    TotalStops(kept, i + 1);
  }

  lemma TotalStart(kept: seq<Piece>)
    ensures TotalSoFar(kept, 0, 0)
  {
  }

  lemma TotalDone(kept: seq<Piece>, total: int)
    requires TotalSoFar(kept, |kept|, total)
    ensures Total(kept) == Ok(total)
  {
    assert kept[..|kept|] == kept;
  }

  /** An error ends the loop: it is the result whatever follows. */
  lemma {:induction false} TotalStops(kept: seq<Piece>, i: nat)
    requires i <= |kept|
    ensures Total(kept[..i]).Err? ==> Total(kept) == Total(kept[..i])
    decreases |kept|
  {
    if i == |kept| {
      assert kept[..i] == kept;
    } else {
      var front := kept[..|kept| - 1];
      assert front[..i] == kept[..i];
      TotalStops(front, i);
    }
  }

  // ----- what it is worth

  lemma {:induction false} SumSnoc(ps: seq<Piece>, p: Piece)
    requires AllWellFormed(ps) && WellFormed(p)
    ensures AllWellFormed(ps + [p]) && ExactSum(ps + [p]) == ExactSum(ps) + Nanos(p)
  {
    if ps == [] {
      assert ps + [p] == [p];
      assert ExactSum([p]) == Nanos(p) + ExactSum([]);
    } else {
      SumSnoc(ps[1..], p);
      assert (ps + [p])[1..] == ps[1..] + [p];
    }
  }

  lemma SumLast(ps: seq<Piece>, front: seq<Piece>, last: Piece)
    requires AllWellFormed(ps) && AllWellFormed(front) && WellFormed(last) && ps == front + [last]
    ensures ExactSum(ps) == ExactSum(front) + Nanos(last)
  {
    SumSnoc(front, last);
  }

  lemma SplitLast(ps: seq<Piece>) returns (front: seq<Piece>, last: Piece)
    requires AllWellFormed(ps) && ps != []
    ensures front == ps[..|ps| - 1] && last == ps[|ps| - 1] && ps == front + [last]
    ensures AllWellFormed(front) && WellFormed(last)
  {
    front, last := ps[..|ps| - 1], ps[|ps| - 1];
  }

  lemma WholeLast(ps: seq<Piece>, front: seq<Piece>, last: Piece)
    requires ps == front + [last]
    ensures AllWhole(ps) <==> AllWhole(front) && Whole(last)
  {
    if AllWhole(ps) {
      forall i | 0 <= i < |front| ensures Whole(front[i]) { assert ps[i] == front[i]; }
      assert ps[|front|] == last;
    }
  }

  lemma AddWrapped(sum: int, p: Piece)
    requires WellFormed(p)
    ensures AddPiece(Wrap(sum), p.number, p.unit).Ok? <==> Whole(p)
    ensures Whole(p) ==> AddPiece(Wrap(sum), p.number, p.unit) == Ok(Wrap(sum + Nanos(p)))
  {
    WrapAdd(sum, Nanos(p));
  }

  /** The loop succeeds exactly on whole numbers, and then its wrapping steps add up to the
      wrapped exact sum. */
  lemma {:induction false} TotalIsWrappedSum(ps: seq<Piece>)
    requires AllWellFormed(ps)
    ensures Total(ps).Ok? <==> AllWhole(ps)
    ensures Total(ps).Ok? ==> Total(ps).value == Wrap(ExactSum(ps))
  {
    if ps != [] {
      var front, last := SplitLast(ps);
      TotalIsWrappedSum(front);
      SumLast(ps, front, last);
      WholeLast(ps, front, last);
      if Total(front).Ok? {
        AddWrapped(ExactSum(front), last);
      }
    }
  }

  lemma SumCons(p: Piece, ps: seq<Piece>)
    requires WellFormed(p) && AllWellFormed(ps)
    ensures AllWellFormed([p] + ps) && ExactSum([p] + ps) == Nanos(p) + ExactSum(ps)
  {
    assert ([p] + ps)[1..] == ps;
  }

  lemma {:induction false} KeptOrDropped(ps: seq<Piece>)
    requires AllWellFormed(ps)
    ensures AllWellFormed(Kept(ps)) && AllWellFormed(Dropped(ps))
    ensures ExactSum(ps) == ExactSum(Kept(ps)) + ExactSum(Dropped(ps))
  {
    if ps != [] {
      KeptOrDropped(ps[1..]);
      if ps[0].gap != "" || |ps| == 1 {
        SumCons(ps[0].(gap := ""), Kept(ps[1..]));
      } else {
        SumCons(ps[0], Dropped(ps[1..]));
      }
    }
  }

  lemma PrintIsLonger(ps: seq<Piece>)
    requires AllWellFormed(ps) && ps != []
    ensures |Print(ps)| >= 2 && IsNumberChar(Print(ps)[0])
  {
    PrintFront(ps);
    NumberChars(ps[0].number);
    UnitChars(ps[0].unit);
  }

  /** Every well-formed text means the reading of its pieces. */
  lemma MeaningOfPrint(ps: seq<Piece>)
    requires AllWellFormed(ps) && ps != []
    ensures Meaning(Print(ps)) == Reading(ps)
  {
    ScanOfPrint(ps);
    PrintIsLonger(ps);
    NeitherZeroNorMax(Print(ps));
  }

  lemma NeitherZeroNorMax(s: string)
    requires |s| >= 2 && IsNumberChar(s[0])
    ensures s != "0" && s != "max"
  {
    assert s[0] != 'm';
  }

  /** Characters that lowering leaves alone. */
  predicate IsLower(s: string) {
    forall i :: 0 <= i < |s| ==> LowerChar(s[i]) == s[i]
  }

  lemma TextIsLower(p: Piece)
    requires WellFormed(p)
    ensures IsLower(p.number) && IsLower(p.unit) && IsLower(p.gap) && IsLower(Text(p))
  {
    NumberChars(p.number);
  }

  /** Lowering leaves the text of well-formed pieces alone. */
  lemma {:induction false} PrintIsLower(ps: seq<Piece>)
    requires AllWellFormed(ps)
    ensures IsLower(Print(ps)) && ToLower(Print(ps)) == Print(ps)
  {
    if ps != [] {
      PrintIsLower(ps[1..]);
      TextIsLower(ps[0]);
    }
  }

  lemma ParsedIsReading(ps: seq<Piece>)
    requires AllWellFormed(ps) && ps != []
    ensures Parsed(Print(ps)) == Reading(ps)
  {
    PrintIsLower(ps);
    MeaningOfPrint(ps);
  }

  /** Upper and lower case are the same. */
  lemma CaseIsIgnored(text: string, ps: seq<Piece>)
    requires AllWellFormed(ps) && ps != [] && ToLower(text) == Print(ps)
    ensures Parsed(text) == Parsed(Print(ps))
  {
    PrintIsLower(ps);
  }

  lemma ReadingOf(ps: seq<Piece>)
    requires AllWellFormed(ps) && ps != []
    ensures AllWellFormed(Kept(ps))
    ensures Reading(ps).Ok? <==> AllWhole(Kept(ps))
    ensures Reading(ps).Ok? ==> Reading(ps).value == Wrap(ExactSum(Kept(ps)))
  {
    KeptOrDropped(ps);
    TotalIsWrappedSum(Kept(ps));
  }

  /** What any well-formed text yields: a duration exactly when the last number of every field
      is whole and fits, and then the wrapped sum of those last pieces alone. */
  lemma ParsesExactly(ps: seq<Piece>)
    requires AllWellFormed(ps) && ps != []
    ensures AllWellFormed(Kept(ps))
    ensures Parsed(Print(ps)).Ok? <==> AllWhole(Kept(ps))
    ensures Parsed(Print(ps)).Ok? ==> Parsed(Print(ps)).value == Wrap(ExactSum(Kept(ps)))
  {
    ParsedIsReading(ps);
    ReadingOf(ps);
  }

  lemma {:induction false} KeptIsWhole(ps: seq<Piece>)
    requires AllWhole(ps)
    ensures AllWhole(Kept(ps))
  {
    if ps != [] {
      KeptIsWhole(ps[1..]);
    }
  }

  lemma SumsOf(ps: seq<Piece>) returns (all: nat, kept: nat, dropped: nat)
    requires AllWellFormed(ps) && ps != [] && AllWhole(ps)
    ensures AllWellFormed(Dropped(ps)) && all == ExactSum(ps) && dropped == ExactSum(Dropped(ps)) && all == kept + dropped
    ensures Reading(ps) == Ok(Wrap(kept))
  {
    KeptIsWhole(ps);
    ReadingOf(ps);
    KeptOrDropped(ps);
    all, kept, dropped := ExactSum(ps), ExactSum(Kept(ps)), ExactSum(Dropped(ps));
  }

  lemma SameWrap(kept: nat, dropped: nat)
    ensures Wrap(kept) == Wrap(kept + dropped) <==> dropped % INT64_RANGE == 0
    ensures kept + dropped < INT64_RANGE ==> (Wrap(kept) == Wrap(kept + dropped) <==> dropped == 0)
  {
    WrapIsCongruent(kept + dropped, kept);
  }

  lemma ReadingSumsAll(ps: seq<Piece>)
    requires AllWellFormed(ps) && ps != [] && AllWhole(ps)
    ensures AllWellFormed(Dropped(ps))
    ensures Reading(ps) == Ok(Wrap(ExactSum(ps))) <==> ExactSum(Dropped(ps)) % INT64_RANGE == 0
    ensures ExactSum(ps) < INT64_RANGE ==> (Reading(ps) == Ok(Wrap(ExactSum(ps))) <==> ExactSum(Dropped(ps)) == 0)
  {
    var all, kept, dropped := SumsOf(ps);
    SameWrap(kept, dropped);
  }

  /** When a text of whole numbers means the sum of all its pieces: exactly if what was glued in
      front of other pieces adds up to a multiple of 2^64; for sums below 2^64, to zero. */
  lemma SumsAllExactly(ps: seq<Piece>)
    requires AllWellFormed(ps) && ps != [] && AllWhole(ps)
    ensures AllWellFormed(Dropped(ps))
    ensures Parsed(Print(ps)) == Ok(Wrap(ExactSum(ps))) <==> ExactSum(Dropped(ps)) % INT64_RANGE == 0
    ensures ExactSum(ps) < INT64_RANGE ==> (Parsed(Print(ps)) == Ok(Wrap(ExactSum(ps))) <==> ExactSum(Dropped(ps)) == 0)
  {
    ParsedIsReading(ps);
    ReadingSumsAll(ps);
  }

  predicate Spaced(ps: seq<Piece>) {
    forall i :: 0 <= i < |ps| - 1 ==> ps[i].gap != ""
  }

  lemma {:induction false} SpacedDropsNothing(ps: seq<Piece>)
    requires Spaced(ps)
    ensures Dropped(ps) == []
  {
    if ps != [] {
      SpacedDropsNothing(ps[1..]);
    }
  }

  lemma ReadingOfSpaced(ps: seq<Piece>)
    requires AllWellFormed(ps) && ps != [] && Spaced(ps) && AllWhole(ps)
    ensures Reading(ps) == Ok(Wrap(ExactSum(ps)))
    ensures Reading(ps) == Ok(ExactSum(ps)) <==> ExactSum(ps) <= MAX_INT64
  {
    SpacedDropsNothing(ps);
    ReadingSumsAll(ps);
  }

  /** White space between the pieces and whole numbers: the exact sum, if it fits in 64 bits. */
  lemma SpacedIsExact(ps: seq<Piece>)
    requires AllWellFormed(ps) && ps != [] && Spaced(ps) && AllWhole(ps)
    ensures Parsed(Print(ps)) == Ok(Wrap(ExactSum(ps)))
    ensures Parsed(Print(ps)) == Ok(ExactSum(ps)) <==> ExactSum(ps) <= MAX_INT64
  {
    ParsedIsReading(ps);
    ReadingOfSpaced(ps);
  }

  /** Whatever the text, success means that in lower case it is "0", "max" or the text of
      well-formed pieces. */
  lemma NothingElseParses(text: string)
    requires Parsed(text).Ok? && ToLower(text) != "0" && ToLower(text) != "max"
    ensures exists ps: seq<Piece> :: ps != [] && AllWellFormed(ps) && Print(ps) == ToLower(text)
  {
    PrintOfScan(ToLower(text));
  }

  /** A fraction matches the expression, and Atoi refuses it unless a piece is glued behind it. */
  lemma FractionIsRefused(ps: seq<Piece>, i: nat)
    requires AllWellFormed(ps) && i < |ps| && !IsWhole(ps[i].number) && (ps[i].gap != "" || i == |ps| - 1)
    ensures Parsed(Print(ps)).Err?
  {
    ParsedIsReading(ps);
    ReadingOfFraction(ps, i);
  }

  lemma ReadingOfFraction(ps: seq<Piece>, i: nat)
    requires AllWellFormed(ps) && i < |ps| && !IsWhole(ps[i].number) && (ps[i].gap != "" || i == |ps| - 1)
    ensures Reading(ps).Err?
  {
    if Reading(ps).Ok? {
      KeptAreWhole(ps);
      KeptWhole(ps, i);
    }
  }

  lemma KeptAreWhole(ps: seq<Piece>)
    requires AllWellFormed(ps) && ps != [] && Reading(ps).Ok?
    ensures AllWhole(Kept(ps))
  {
    ReadingOf(ps);
  }

  lemma {:induction false} KeptWhole(ps: seq<Piece>, i: nat)
    requires i < |ps| && AllWhole(Kept(ps)) && (ps[i].gap != "" || i == |ps| - 1)
    ensures IsWhole(ps[i].number)
  {
    if i == 0 {
      assert Kept(ps)[0].number == ps[0].number;
    } else {
      KeptTail(ps);
      KeptWhole(ps[1..], i - 1);
    }
  }

  lemma KeptTail(ps: seq<Piece>)
    requires |ps| > 1 && AllWhole(Kept(ps))
    ensures AllWhole(Kept(ps[1..]))
  {
    var kept, tail := Kept(ps), Kept(ps[1..]);
    if ps[0].gap != "" {
      assert kept[1..] == tail;
      assert forall j :: 0 <= j < |tail| ==> tail[j] == kept[j + 1];
    }
  }

  // ----- one number and one unit

  /** A number, then a unit or what stands in its place, then the end or another number. */
  lemma FrontIsRead(number: string, unit: string, rest: string)
    requires forall i :: 0 <= i < |number| ==> IsNumberChar(number[i])
    requires unit != "" && forall i :: 0 <= i < |unit| ==> IsUnitChar(unit[i])
    requires rest == "" || IsNumberChar(rest[0])
    ensures FirstPiece(number + (unit + rest)) == Piece(number, unit, "")
  {
    RunOf(number, unit + rest, IsNumberChar);
    RunOf(unit, rest, IsUnitChar);
  }

  lemma RefusedFront(number: string, unit: string, rest: string)
    requires number != "" && forall i :: 0 <= i < |number| ==> IsNumberChar(number[i])
    requires unit != "" && forall i :: 0 <= i < |unit| ==> IsUnitChar(unit[i])
    requires rest == "" || IsNumberChar(rest[0])
    requires !WellFormed(Piece(number, unit, ""))
    ensures Meaning(number + (unit + rest)) == Err(InvalidFormat)
  {
    FrontIsRead(number, unit, rest);
    NeitherZeroNorMax(number + (unit + rest));
  }

  lemma PrintOfOne(p: Piece)
    ensures Print([p]) == Text(p) && Kept([p]) == [p.(gap := "")]
  {
    PrintCons(p, []);
    assert [p] + [] == [p] && Text(p) + "" == Text(p);
    assert [p.(gap := "")] + Kept([]) == [p.(gap := "")];
  }

  lemma ReadingOfOne(number: string, unit: string)
    requires IsWhole(number) && IsUnit(unit)
    ensures Meaning(number + unit) == AddPiece(0, number, unit)
  {
    var p := Piece(number, unit, "");
    PrintOfOne(p);
    MeaningOfPrint([p]);
    assert Text(p) == number + unit;
    TotalOfOne(p);
  }

  lemma TotalOfOne(p: Piece)
    ensures Total([p]) == AddPiece(0, p.number, p.unit)
  {
    assert [p][..0] == [];
    assert Total([p][..0]) == Ok(0);
  }

  lemma LowerUnit(number: string, unit: string)
    requires IsWhole(number) && forall i :: 0 <= i < |unit| ==> IsUnitChar(unit[i])
    ensures ToLower(number + unit) == number + ToLower(unit)
    ensures forall i :: 0 <= i < |unit| ==> IsUnitChar(ToLower(unit)[i])
  {
  }

  /** A whole number and a unit, in numbers: so many times the length of the unit, wrapped to 64
      bits; any other word for a unit is refused, and so is a number that is no int64. */
  lemma UnitsExactly(k: nat, unit: string)
    requires unit != "" && forall i :: 0 <= i < |unit| ==> IsUnitChar(unit[i])
    ensures var u := ToLower(unit);
            var nanos := if u == "d" then 86_400_000_000_000
                         else if u == "h" then 3_600_000_000_000
                         else if u == "m" || u == "min" then 60_000_000_000
                         else if u == "s" then 1_000_000_000
                         else if u == "ms" then 1_000_000
                         else if u == "ns" then 1 else 0;
            && (nanos == 0 ==> Parsed(Decimal(k) + unit) == Err(InvalidFormat))
            && (nanos != 0 && k > 9_223_372_036_854_775_807 ==> Parsed(Decimal(k) + unit) == Err(InvalidNumber(Decimal(k))))
            && (nanos != 0 && k <= 9_223_372_036_854_775_807 ==> Parsed(Decimal(k) + unit) == Ok(Wrap(k * nanos)))
            && (nanos != 0 && k * nanos <= 9_223_372_036_854_775_807 ==> Parsed(Decimal(k) + unit) == Ok(k * nanos))
  {
    var r := UnitIsAdded(k, unit);
    var nanos := InNumbers(k, ToLower(unit));
    if nanos != 0 {
      AddsTo(k, ToLower(unit), nanos);
    }
  }

  /** How long the units are, d, h, m or min, s, ms and ns; 0 for any other word. */
  lemma InNumbers(k: nat, u: string) returns (nanos: nat)
    ensures nanos == if u == "d" then 86_400_000_000_000
                     else if u == "h" then 3_600_000_000_000
                     else if u == "m" || u == "min" then 60_000_000_000
                     else if u == "s" then 1_000_000_000
                     else if u == "ms" then 1_000_000
                     else if u == "ns" then 1 else 0
    ensures IsUnit(u) <==> nanos != 0
    ensures nanos != 0 ==> InNanos(k, u) == Some(k * nanos)
  {
    nanos := if IsUnit(u) then InNanos(1, u).value else 0;
  }

  lemma UnitIsAdded(k: nat, unit: string) returns (r: Result<int, Error>)
    requires unit != "" && forall i :: 0 <= i < |unit| ==> IsUnitChar(unit[i])
    ensures r == Parsed(Decimal(k) + unit)
    ensures IsUnit(ToLower(unit)) ==> r == AddPiece(0, Decimal(k), ToLower(unit))
    ensures !IsUnit(ToLower(unit)) ==> r == Err(InvalidFormat)
  {
    var number, u := Decimal(k), ToLower(unit);
    r := Parsed(number + unit);
    DecimalIsCanonical(k);
    LowerUnit(number, unit);
    if IsUnit(u) {
      ReadingOfOne(number, u);
    } else {
      assert u + "" == u;
      RefusedFront(number, u, "");
    }
  }

  lemma AddsTo(k: nat, u: string, nanos: nat)
    requires nanos != 0 && InNanos(k, u) == Some(k * nanos)
    ensures k > MAX_INT64 ==> AddPiece(0, Decimal(k), u) == Err(InvalidNumber(Decimal(k)))
    ensures k <= MAX_INT64 ==> AddPiece(0, Decimal(k), u) == Ok(Wrap(k * nanos))
    ensures k * nanos <= MAX_INT64 ==> k <= MAX_INT64 && Wrap(k * nanos) == k * nanos
  {
    DecimalIsCanonical(k);
    NumeralOfDecimal(k);
    if k <= MAX_INT64 {
      AddedToZero(Decimal(k), u, k, k * nanos);
    }
    NotBelow(k, nanos);
  }

  lemma AddedToZero(number: string, u: string, k: nat, n: nat)
    requires Atoi(number) == Some(k) && InNanos(k, u) == Some(n)
    ensures AddPiece(0, number, u) == Ok(Wrap(n))
  {
    WrapAdd(0, n);
  }

  lemma NotBelow(k: nat, nanos: nat)
    requires nanos != 0
    ensures k <= k * nanos
  {
  }

  /** The two words that are no pieces. */
  lemma ZeroAndMax()
    ensures Parsed("0") == Ok(0) && Parsed("max") == Ok(9_223_372_036_854_775_807)
  {
    assert ToLower("0") == "0" && ToLower("max") == "max";
  }

  /** Writing capital letters for small ones changes nothing, whatever the text. */
  lemma CapitalsAreSmall(a: string, b: string)
    requires |a| == |b|
    requires forall i :: 0 <= i < |a| ==> a[i] == b[i] || ('A' <= a[i] <= 'Z' && b[i] as int == a[i] as int + 32)
    ensures Parsed(a) == Parsed(b)
  {
    SameInLower(a, b);
  }

  lemma SameInLower(a: string, b: string)
    requires |a| == |b|
    requires forall i :: 0 <= i < |a| ==> a[i] == b[i] || ('A' <= a[i] <= 'Z' && b[i] as int == a[i] as int + 32)
    ensures ToLower(a) == ToLower(b)
  {
    forall i | 0 <= i < |a| ensures LowerChar(a[i]) == LowerChar(b[i]) {
      if a[i] != b[i] {
        assert LowerChar(a[i]) as int == a[i] as int + 32;
      }
    }
  }

  /** A fraction is let through only with one or two digits, and only where a piece is glued
      behind it, which is then all that counts. */
  lemma GluedFraction(whole: string, fraction: string)
    requires IsWhole(whole) && forall i :: 0 <= i < |fraction| ==> '0' <= fraction[i] <= '9'
    ensures Parsed(whole + "." + fraction + "s" + "2h")
            == if 1 <= |fraction| <= 2 then Ok(7_200_000_000_000) else Err(InvalidFormat)
  {
    var number := whole + "." + fraction;
    var p, q := Piece(number, "s", ""), Piece("2", "h", "");
    assert number + "s" + "2h" == number + ("s" + "2h") == Text(p) + Text(q);
    FractionDigits(whole, fraction);
    if 1 <= |fraction| <= 2 {
      PrintOfTwo(p, q);
      ParsedIsReading([p, q]);
      ReadingOfGlued(p, q);
    } else {
      assert IsLower(number + ("s" + "2h"));
      assert ToLower(number + ("s" + "2h")) == number + ("s" + "2h");
      RefusedFront(number, "s", "2h");
    }
  }

  /** What may stand between two pieces: one of five blanks, or nothing (which loses a piece). */
  lemma SeparatorsExactly(c: char)
    requires c != '.' && !('0' <= c <= '9')
    ensures Parsed("1h" + [c] + "1h")
            == if c == ' ' || c == '\t' || c == '\n' || c == '\U{000C}' || c == '\r' then Ok(7_200_000_000_000) else Err(InvalidFormat)
  {
    var text := "1h" + [c] + "1h";
    if IsGap(c) {
      var p, q := Piece("1", "h", [c]), Piece("1", "h", "");
      PrintOfTwo(p, q);
      assert Text(p) + Text(q) == text;
      ParsedIsReading([p, q]);
      ReadingOfHours(p, q);
    } else {
      var l := LowerChar(c);
      assert |"h" + [l]| == 2 && ("h" + [l])[0] == 'h';
      assert ToLower(text) == "1" + (("h" + [l]) + "1h");
      RefusedFront("1", "h" + [l], "1h");
    }
  }

  lemma ReadingOfHours(p: Piece, q: Piece)
    requires p.number == "1" && p.unit == "h" && p.gap != "" && q == Piece("1", "h", "") && WellFormed(p)
    ensures Reading([p, q]) == Ok(7_200_000_000_000)
  {
    assert p.number[..0] == "" && Numeral("") == 0 && Numeral(p.number) == 1;
    KeptOfTwo(p, q);
    SumOfTwo(p, q);
    ReadingOf([p, q]);
  }

  lemma FractionDigits(whole: string, fraction: string)
    requires IsWhole(whole) && forall i :: 0 <= i < |fraction| ==> '0' <= fraction[i] <= '9'
    ensures var number := whole + "." + fraction;
            && (forall i :: 0 <= i < |number| ==> IsNumberChar(number[i]))
            && (IsNumber(number) <==> 1 <= |fraction| <= 2)
  {
    var number := whole + "." + fraction;
    assert number[|whole|] == '.' && !IsWhole(number);
    assert forall i :: 0 <= i < |number| && i != |whole| ==> IsDigit(number[i]);
    if |fraction| == 1 {
      assert number[..|number| - 2] == whole && number[|number| - 1..] == fraction;
    } else if |fraction| == 2 {
      assert number[..|number| - 3] == whole && number[|number| - 2..] == fraction;
    }
  }

  lemma ReadingOfGlued(p: Piece, q: Piece)
    requires WellFormed(p) && p.gap == "" && q == Piece("2", "h", "")
    ensures Reading([p, q]) == Ok(7_200_000_000_000)
  {
    KeptOfTwo(p, q);
    TotalOfOne(q);
    assert q.number[..0] == "" && Numeral("") == 0 && Numeral(q.number) == 2;
  }

  lemma KeptOfTwo(p: Piece, q: Piece)
    requires q.gap == ""
    ensures Kept([p, q]) == if p.gap == "" then [q] else [p.(gap := ""), q]
  {
    assert [p, q][1..] == [q];
    assert Kept([q]) == [q.(gap := "")] + Kept([]);
  }

  lemma SumOfTwo(p: Piece, q: Piece)
    requires WellFormed(p) && WellFormed(q)
    ensures ExactSum([q]) == Nanos(q)
    ensures AllWellFormed([p.(gap := ""), q]) && ExactSum([p.(gap := ""), q]) == Nanos(p) + Nanos(q)
  {
    var r := p.(gap := "");
    assert [r, q][1..] == [q] && [q][1..] == [];
    assert Nanos(r) == Nanos(p);
  }

  lemma PrintOfTwo(p: Piece, q: Piece)
    ensures Print([p, q]) == Text(p) + Text(q)
  {
    PrintCons(p, [q]);
    PrintCons(q, []);
    assert [q] + [] == [q] && [p] + [q] == [p, q] && Text(q) + "" == Text(q);
  }

  lemma SmallNumerals(two: string, thirty: string)
    requires two == "2" && thirty == "30"
    ensures Numeral(two) == 2 && Numeral(thirty) == 30
  {
    assert two[..0] == "" && thirty[..1] == "3";
    assert Numeral("") == 0 && Numeral("3") == 3;
  }

  lemma ReadingOfTwo(p: Piece, q: Piece)
    requires p.number == "2" && p.unit == "h" && (p.gap == "" || p.gap == " ") && q == Piece("30", "m", "")
    ensures Reading([p, q]) == Ok(if p.gap == "" then 1_800_000_000_000 else 9_000_000_000_000)
  {
    SmallNumerals(p.number, q.number);
    KeptOfTwo(p, q);
    SumOfTwo(p, q);
    ReadingOf([p, q]);
  }

  /** "2h30m" is half an hour, "2h 30m" two hours and a half. */
  lemma GluedIsLast(text: string)
    requires text == "2h30m" || text == "2h 30m"
    ensures Parsed(text) == Ok(if text == "2h30m" then 1_800_000_000_000 else 9_000_000_000_000)
  {
    var p, q := Piece("2", "h", if text == "2h30m" then "" else " "), Piece("30", "m", "");
    PrintOfTwo(p, q);
    assert Text(p) + Text(q) == text;
    ParsedIsReading([p, q]);
    ReadingOfTwo(p, q);
  }
}
