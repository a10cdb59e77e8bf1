/** The language of duration texts (durationRegex and validateAndSplit in pkg/parser/text.go).

    A text is a run of pieces: a number, a unit and at most one white-space character. The
    regular expression captures the number and the unit of the last piece it matched. */
module DurationFormat {
  import opened Prelude

  /** Group 2, group 4, and the optional white space of one round of the expression. */
  datatype Piece = Piece(number: string, unit: string, gap: string)

  const HOUR: int := 3_600_000_000_000

  /** So many of a unit, in nanoseconds. */
  function InNanos(n: int, unit: string): Option<int> {
    if unit == "d" then Some(n * 24 * HOUR)
    else if unit == "h" then Some(n * HOUR)
    else if unit == "m" || unit == "min" then Some(n * 60_000_000_000)
    else if unit == "s" then Some(n * 1_000_000_000)
    else if unit == "ms" then Some(n * 1_000_000)
    else if unit == "ns" then Some(n)
    else None
  }

  predicate IsUnit(unit: string) {
    InNanos(0, unit).Some?
  }

  predicate IsDigit(c: char) {
    '0' <= c <= '9'
  }

  predicate IsNumberChar(c: char) {
    IsDigit(c) || c == '.'
  }

  /** The class \s of RE2. */
  predicate IsGap(c: char) {
    c == '\t' || c == '\n' || c == '\U{000C}' || c == '\r' || c == ' '
  }

  predicate IsUnitChar(c: char) {
    !IsNumberChar(c) && !IsGap(c)
  }

  /** unicode.IsSpace, where strings.Fields cuts. */
  predicate IsSpace(c: char) {
    || IsGap(c)
    || c == '\U{000B}' || c == '\U{0085}' || c == '\U{00A0}' || c == '\U{1680}'
    || '\U{2000}' <= c <= '\U{200A}'
    || c == '\U{2028}' || c == '\U{2029}' || c == '\U{202F}' || c == '\U{205F}' || c == '\U{3000}'
  }

  predicate IsInk(c: char) {
    !IsSpace(c)
  }

  /** Length of the longest front of s with every character in the class. */
  function Run(s: string, class_: char -> bool): (n: nat)
    ensures n <= |s| && (forall i :: 0 <= i < n ==> class_(s[i])) && (n < |s| ==> !class_(s[n]))
  {
    if s == "" || !class_(s[0]) then 0 else 1 + Run(s[1..], class_)
  }

  lemma {:induction false} RunOf(a: string, b: string, class_: char -> bool)
    requires forall i :: 0 <= i < |a| ==> class_(a[i])
    requires b == "" || !class_(b[0])
    ensures Run(a + b, class_) == |a| && (a + b)[..|a|] == a && (a + b)[|a|..] == b
  {
    if a == "" {
      assert a + b == b;
    } else {
      RunOf(a[1..], b, class_);
      assert (a + b)[1..] == a[1..] + b;
    }
  }

  predicate IsWhole(number: string) {
    number != "" && forall i :: 0 <= i < |number| ==> IsDigit(number[i])
  }

  /** \d+(\.\d{1,2})? */
  predicate IsNumber(number: string) {
    || IsWhole(number)
    || (|number| > 2 && number[|number| - 2] == '.' && IsWhole(number[..|number| - 2]) && IsWhole(number[|number| - 1..]))
    || (|number| > 3 && number[|number| - 3] == '.' && IsWhole(number[..|number| - 3]) && IsWhole(number[|number| - 2..]))
  }

  predicate WellFormed(p: Piece) {
    && IsNumber(p.number)
    && IsUnit(p.unit)
    && (p.gap == "" || (|p.gap| == 1 && IsGap(p.gap[0])))
  }

  predicate AllWellFormed(ps: seq<Piece>) {
    forall i :: 0 <= i < |ps| ==> WellFormed(ps[i])
  }

  lemma NumberChars(number: string)
    requires IsNumber(number)
    ensures number != "" && forall i :: 0 <= i < |number| ==> IsNumberChar(number[i])
  {
    var n := |number|;
    if IsWhole(number) {
    } else if n > 2 && number[n - 2] == '.' && IsWhole(number[..n - 2]) && IsWhole(number[n - 1..]) {
      assert number == number[..n - 2] + ['.'] + number[n - 1..];
    } else {
      assert number == number[..n - 3] + ['.'] + number[n - 2..];
    }
  }

  lemma UnitChars(unit: string)
    requires IsUnit(unit)
    ensures unit != "" && forall i :: 0 <= i < |unit| ==> IsUnitChar(unit[i]) && IsInk(unit[i])
  {
  }

  // ----- matching

  function Text(p: Piece): string {
    p.number + (p.unit + p.gap)
  }

  /** The texts the expression matches are those of well-formed pieces, one or more. */
  function Print(ps: seq<Piece>): string {
    if ps == [] then "" else Text(ps[0]) + Print(ps[1..])
  }

  function GapAt(tail: string): (gap: string)
    ensures |gap| <= |tail| && gap == tail[..|gap|]
  {
    if tail != "" && IsGap(tail[0]) then [tail[0]] else ""
  }

  function WithUnit(number: string, tail: string): (p: Piece)
    ensures p.number == number && p.unit + p.gap <= tail
  {
    var u := Run(tail, IsUnitChar);
    assert tail == tail[..u] + tail[u..];
    Piece(number, tail[..u], GapAt(tail[u..]))
  }

  lemma FrontOf(s: string, n: nat, more: string)
    requires n <= |s| && more <= s[n..]
    ensures s[..n] + more <= s
  {
    assert s[..n] + more == s[..n + |more|];
  }

  /** Reads the first piece of a text, well formed or not. */
  function FirstPiece(s: string): (p: Piece)
    ensures Text(p) <= s
  {
    var n := Run(s, IsNumberChar);
    var p := WithUnit(s[..n], s[n..]);
    assert Text(p) <= s by { FrontOf(s, n, p.unit + p.gap); }
    p
  }

  /** The rounds by which the expression matches s, if it does. */
  function Scan(s: string): Option<seq<Piece>> {
    if s == "" then Some([]) else
      var p := FirstPiece(s);
      if !WellFormed(p) then None else
        assert Text(p) != "" by { NumberChars(p.number); }
        match Scan(s[|Text(p)|..])
        case None => None
        case Some(rest) => Some([p] + rest)
  }

  lemma WithUnitOf(p: Piece, rest: string)
    requires WellFormed(p) && (p.gap == "" ==> rest == "" || IsNumberChar(rest[0]))
    ensures WithUnit(p.number, p.unit + (p.gap + rest)) == p
  {
    UnitChars(p.unit);
    RunOf(p.unit, p.gap + rest, IsUnitChar);
    assert GapAt(p.gap + rest) == p.gap;
  }

  /** A piece in front of a text is read back, unless the text would lengthen its unit. */
  lemma FirstOf(p: Piece, rest: string)
    requires WellFormed(p) && (p.gap == "" ==> rest == "" || IsNumberChar(rest[0]))
    ensures FirstPiece(Text(p) + rest) == p
  {
    NumberChars(p.number);
    UnitChars(p.unit);
    assert Text(p) + rest == p.number + (p.unit + (p.gap + rest));
    RunOf(p.number, p.unit + (p.gap + rest), IsNumberChar);
    WithUnitOf(p, rest);
  }

  lemma ScanCons(p: Piece, rest: string)
    requires WellFormed(p) && (p.gap == "" ==> rest == "" || IsNumberChar(rest[0]))
    ensures Scan(Text(p) + rest)
            == (match Scan(rest) case None => None case Some(ps) => Some([p] + ps))
  {
    FirstOf(p, rest);
    NumberChars(p.number);
    assert (Text(p) + rest)[|Text(p)|..] == rest;
  }

  lemma PrintFront(ps: seq<Piece>)
    requires AllWellFormed(ps) && ps != []
    ensures Print(ps) != "" && IsNumberChar(Print(ps)[0])
  {
    NumberChars(ps[0].number);
  }

  /** Every text has at most one reading: what was printed is what is captured. */
  lemma {:induction false} ScanOfPrint(ps: seq<Piece>)
    requires AllWellFormed(ps)
    ensures Scan(Print(ps)) == Some(ps)
  {
    if ps != [] {
      if |ps| > 1 {
        PrintFront(ps[1..]);
      }
      ScanOfPrint(ps[1..]);
      ScanCons(ps[0], Print(ps[1..]));
      assert [ps[0]] + ps[1..] == ps;
    }
  }


  lemma PrintCons(p: Piece, ps: seq<Piece>)
    ensures Print([p] + ps) == Text(p) + Print(ps)
    ensures AllWellFormed(ps) && WellFormed(p) ==> AllWellFormed([p] + ps)
  {
    assert ([p] + ps)[1..] == ps;
  }

  /** And every match is the print of its rounds. */
  lemma {:induction false} PrintOfScan(s: string)
    ensures Scan(s).Some? ==> AllWellFormed(Scan(s).value) && Print(Scan(s).value) == s
    decreases |s|
  {
    if s != "" {
      var p := FirstPiece(s);
      if WellFormed(p) {
        NumberChars(p.number);
        PrintOfScan(s[|Text(p)|..]);
        if Scan(s[|Text(p)|..]).Some? {
          PrintCons(p, Scan(s[|Text(p)|..]).value);
        }
      }
    }
  }

  // ----- splitting

  /** strings.Fields. */
  function Fields(s: string): seq<string>
    decreases |s|
  {
    if s == "" then []
    else if IsSpace(s[0]) then Fields(s[1..])
    else
      var n := Run(s, IsInk);
      [s[..n]] + Fields(s[n..])
  }

  /** FindStringSubmatch on one field: groups 2 and 4 hold what the last round matched. */
  function LastMatch(field: string): Option<Piece> {
    match Scan(field)
    case None => None
    case Some(ps) => if ps == [] then None else Some(ps[|ps| - 1])
  }

  /** The pieces whose captures survive: those at the end of a field. */
  function Kept(ps: seq<Piece>): seq<Piece> {
    if ps == [] then []
    else if ps[0].gap != "" || |ps| == 1 then [ps[0].(gap := "")] + Kept(ps[1..])
    else Kept(ps[1..])
  }

  /** The pieces with another one glued behind them. */
  function Dropped(ps: seq<Piece>): seq<Piece> {
    if ps == [] then []
    else if ps[0].gap != "" || |ps| == 1 then Dropped(ps[1..])
    else [ps[0]] + Dropped(ps[1..])
  }

  /** A field as splitting leaves it: matched, and starting with a digit. */
  predicate IsMatched(field: string) {
    field != "" && IsNumberChar(field[0]) && LastMatch(field).Some?
  }

  lemma FieldsFront(word: string, rest: string)
    requires word != "" && (forall i :: 0 <= i < |word| ==> IsInk(word[i]))
    requires rest == "" || IsSpace(rest[0])
    ensures Fields(word + rest) == [word] + Fields(rest)
  {
    RunOf(word, rest, IsInk);
  }

  /** Ink glued in front of a text that starts with ink joins its first field. */
  lemma FieldsGlued(word: string, rest: string)
    requires rest != "" && (forall i :: 0 <= i < |word| ==> IsInk(word[i])) && IsInk(rest[0])
    ensures Fields(rest) != []
    ensures Fields(word + rest) == [word + Fields(rest)[0]] + Fields(rest)[1..]
  {
    var n := Run(rest, IsInk);
    assert word + rest == (word + rest[..n]) + rest[n..];
    RunOf(word + rest[..n], rest[n..], IsInk);
    assert (word + rest)[0] == if word == "" then rest[0] else word[0];
  }

  lemma WordIsInk(p: Piece)
    requires WellFormed(p)
    ensures var word := p.number + p.unit;
            word != "" && IsNumberChar(word[0]) && forall i :: 0 <= i < |word| ==> IsInk(word[i])
  {
    NumberChars(p.number);
    UnitChars(p.unit);
  }

  lemma OnePieceField(p: Piece)
    requires WellFormed(p)
    ensures IsMatched(p.number + p.unit) && LastMatch(p.number + p.unit) == Some(p.(gap := ""))
  {
    var q := p.(gap := "");
    assert Text(q) + "" == p.number + p.unit;
    WordIsInk(p);
    ScanCons(q, "");
  }

  lemma GluedField(p: Piece, field: string)
    requires WellFormed(p) && p.gap == "" && IsMatched(field)
    ensures IsMatched(Text(p) + field) && LastMatch(Text(p) + field) == LastMatch(field)
  {
    WordIsInk(p);
    ScanCons(p, field);
  }

  predicate FieldsAre(fields: seq<string>, kept: seq<Piece>) {
    if kept == [] || fields == [] then kept == [] && fields == []
    else IsMatched(fields[0]) && LastMatch(fields[0]) == Some(kept[0]) && FieldsAre(fields[1..], kept[1..])
  }

  lemma {:induction false} FieldAt(fields: seq<string>, kept: seq<Piece>, i: nat)
    requires FieldsAre(fields, kept)
    ensures |fields| == |kept|
    ensures i < |kept| ==> LastMatch(fields[i]) == Some(kept[i])
    decreases fields
  {
    if kept != [] {
      FieldAt(fields[1..], kept[1..], if i == 0 then 0 else i - 1);
    }
  }

  lemma FieldsCons(field: string, fields: seq<string>, p: Piece, kept: seq<Piece>)
    requires IsMatched(field) && LastMatch(field) == Some(p) && FieldsAre(fields, kept)
    ensures FieldsAre([field] + fields, [p] + kept)
  {
    assert ([field] + fields)[1..] == fields;
    assert ([p] + kept)[1..] == kept;
  }

  lemma SpacedText(p: Piece, rest: string)
    requires WellFormed(p) && (p.gap != "" || rest == "")
    ensures Fields(Text(p) + rest) == [p.number + p.unit] + Fields(rest)
  {
    var word := p.number + p.unit;
    assert Text(p) + rest == word + (p.gap + rest);
    FieldsOfGap(p.gap, rest);
    assert Fields(word + (p.gap + rest)) == [word] + Fields(p.gap + rest) by {
      WordIsInk(p);
      FieldsFront(word, p.gap + rest);
    }
  }

  lemma FieldsOfGap(gap: string, rest: string)
    requires gap == "" || (|gap| == 1 && IsGap(gap[0]))
    ensures Fields(gap + rest) == Fields(rest)
  {
    if gap == "" {
      assert gap + rest == rest;
    } else {
      assert (gap + rest)[1..] == rest;
    }
  }

  lemma SpacedFields(p: Piece, rest: string, kept: seq<Piece>)
    requires WellFormed(p) && (p.gap != "" || rest == "") && FieldsAre(Fields(rest), kept)
    ensures FieldsAre(Fields(Text(p) + rest), [p.(gap := "")] + kept)
  {
    SpacedText(p, rest);
    OnePieceField(p);
    FieldsCons(p.number + p.unit, Fields(rest), p.(gap := ""), kept);
  }

  lemma NumberIsInk(c: char)
    requires IsNumberChar(c)
    ensures IsInk(c)
  {
  }

  lemma WordOf(p: Piece) returns (word: string)
    requires WellFormed(p) && p.gap == ""
    ensures word == Text(p) && forall i :: 0 <= i < |word| ==> IsInk(word[i])
  {
    WordIsInk(p);
    word := p.number + p.unit;
  }

  lemma GluedText(p: Piece, rest: string)
    requires WellFormed(p) && p.gap == "" && rest != "" && IsNumberChar(rest[0])
    ensures Fields(rest) != []
    ensures Fields(Text(p) + rest) == [Text(p) + Fields(rest)[0]] + Fields(rest)[1..]
  {
    var word := WordOf(p);
    NumberIsInk(rest[0]);
    FieldsGlued(word, rest);
  }

  lemma GluedFields(p: Piece, rest: string, kept: seq<Piece>)
    requires WellFormed(p) && p.gap == "" && rest != "" && IsNumberChar(rest[0]) && FieldsAre(Fields(rest), kept)
    ensures FieldsAre(Fields(Text(p) + rest), kept)
  {
    GluedText(p, rest);
    var fields := Fields(rest);
    GluedField(p, fields[0]);
    FieldsCons(Text(p) + fields[0], fields[1..], kept[0], kept[1..]);
    assert [kept[0]] + kept[1..] == kept;
  }

  /** The fields of a matched text match too, each with the last piece in it. */
  lemma {:induction false} FieldsOfPrint(ps: seq<Piece>)
    requires AllWellFormed(ps)
    ensures FieldsAre(Fields(Print(ps)), Kept(ps))
  {
    if ps != [] {
      FieldsOfPrint(ps[1..]);
      if ps[0].gap != "" || |ps| == 1 {
        SpacedFields(ps[0], Print(ps[1..]), Kept(ps[1..]));
      } else {
        PrintFront(ps[1..]);
        GluedFields(ps[0], Print(ps[1..]), Kept(ps[1..]));
      }
    }
  }
}
