/** encodeURIComponent and decodeURIComponent: percent-encoding (section 2.1 of RFC 3986) over
    UTF-8. A Dafny string is a sequence of Unicode scalar values, that is, a well-formed
    JavaScript string. */
module PercentEncoding {
  import opened Prelude

  /** The characters encodeURIComponent leaves alone. */
  predicate Unescaped(c: char) {
    'A' <= c <= 'Z' || 'a' <= c <= 'z' || '0' <= c <= '9'
    || c == '-' || c == '_' || c == '.' || c == '!' || c == '~' || c == '*' || c == '\'' || c == '(' || c == ')'
  }

  function HexDigit(d: nat): (c: char)
    requires d < 16
    ensures Unescaped(c) && c != '%' && c != '?' && c != '&' && c != '='
  {
    "0123456789ABCDEF"[d]
  }

  function HexValue(c: char): Option<nat> {
    if '0' <= c <= '9' then Some((c - '0') as nat)
    else if 'A' <= c <= 'F' then Some(10 + (c - 'A') as nat)
    else if 'a' <= c <= 'f' then Some(10 + (c - 'a') as nat)
    else None
  }

  lemma HexRoundTrip(d: nat)
    requires d < 16
    ensures HexDigit(d) == "0123456789ABCDEF"[d]
    ensures HexValue("0123456789ABCDEF"[d]) == HexValue("0123456789abcdef"[d]) == Some(d)
  {
  }

  type Byte = b: int | 0 <= b < 256

  /** One octet as %XX. */
  function Octet(b: Byte): (s: string)
    ensures |s| == 3
  {
    ['%', HexDigit(b / 16), HexDigit(b % 16)]
  }

  function Octets(bs: seq<Byte>): (s: string)
    ensures |s| == 3 * |bs|
  {
    if bs == [] then "" else Octet(bs[0]) + Octets(bs[1..])
  }

  /** The UTF-8 form of one scalar value. */
  function Utf8(c: char): (bs: seq<Byte>)
    ensures 1 <= |bs| <= 4
  {
    var n := c as int;
    if n < 0x80 then [n]
    else if n < 0x800 then [0xC0 + n / 64, 0x80 + n % 64]
    else if n < 0x1_0000 then [0xE0 + n / 4096, 0x80 + n / 64 % 64, 0x80 + n % 64]
    else [0xF0 + n / 262144, 0x80 + n / 4096 % 64, 0x80 + n / 64 % 64, 0x80 + n % 64]
  }

  function EncodeChar(c: char): string {
    if Unescaped(c) then [c] else Octets(Utf8(c))
  }

  function Encode(s: string): string {
    if s == "" then "" else EncodeChar(s[0]) + Encode(s[1..])
  }

  // ----- decoding

  /** The octet written as %XX at position i. */
  function OctetAt(s: string, i: nat): Option<nat> {
    if i + 2 < |s| && s[i] == '%' && HexValue(s[i + 1]).Some? && HexValue(s[i + 2]).Some? then
      Some(16 * HexValue(s[i + 1]).value + HexValue(s[i + 2]).value)
    else None
  }

  /** How many octets a lead octet announces; 0 if it may not lead. */
  function SequenceLength(b: nat): nat {
    if b < 0x80 then 1
    else if 0xC0 <= b < 0xE0 then 2
    else if 0xE0 <= b < 0xF0 then 3
    else if 0xF0 <= b < 0xF8 then 4
    else 0
  }

  /** A continuation octet's six bits. */
  function ContinuationAt(s: string, i: nat): Option<nat> {
    match OctetAt(s, i)
    case Some(b) => if 0x80 <= b < 0xC0 then Some(b - 0x80) else None
    case None => None
  }

  /** The scalar value of a complete sequence: no overlong form, surrogate or value past 0x10FFFF. */
  function Scalar(n: nat, length: nat): Option<char> {
    if (0 <= n < 0xD800 || 0xE000 <= n < 0x11_0000)
       && (length == 1 || (length == 2 && n >= 0x80) || (length == 3 && n >= 0x800) || (length == 4 && n >= 0x1_0000))
    then Some(n as char) else None
  }

  /** The character whose octets start at the front of s. */
  function FrontChar(s: string): Option<(char, nat)> {
    var b := OctetAt(s, 0);
    if b.None? then None else
    var length := SequenceLength(b.value);
    var c := if length == 1 then Scalar(b.value, 1) else FrontWide(s, b.value, length);
    if c.None? then None else Some((c.value, 3 * length))
  }

  function FrontWide(s: string, lead: nat, length: nat): Option<char> {
    var x, y, z := ContinuationAt(s, 3), ContinuationAt(s, 6), ContinuationAt(s, 9);
    if length == 2 && lead >= 0xC0 && x.Some? then Scalar((lead - 0xC0) * 64 + x.value, 2)
    else if length == 3 && lead >= 0xE0 && x.Some? && y.Some? then Scalar((lead - 0xE0) * 4096 + x.value * 64 + y.value, 3)
    else if length == 4 && lead >= 0xF0 && x.Some? && y.Some? && z.Some? then
      Scalar((lead - 0xF0) * 262144 + x.value * 4096 + y.value * 64 + z.value, 4)
    else None
  }

  /** decodeURIComponent; None is the URIError. */
  function Decode(s: string): Option<string>
    decreases |s|
  {
    if s == "" then Some("")
    else if s[0] != '%' then
      match Decode(s[1..])
      case Some(t) => Some([s[0]] + t)
      case None => None
    else
      match FrontChar(s)
      case None => None
      case Some((c, used)) =>
        if 0 < used <= |s| then
          match Decode(s[used..])
          case Some(t) => Some([c] + t)
          case None => None
        else None
  }

  // ----- decoding undoes encoding

  lemma OctetAtFront(b: Byte, rest: string)
    ensures OctetAt(Octet(b) + rest, 0) == Some(b)
  {
    HexRoundTrip(b / 16);
    HexRoundTrip(b % 16);
  }

  lemma Concat3(a: string, b: string, c: string)
    ensures (a + b) + c == a + (b + c)
  {
  }

  lemma OctetsFront(bs: seq<Byte>, rest: string)
    requires bs != []
    ensures Octets(bs) + rest == Octet(bs[0]) + (Octets(bs[1..]) + rest)
  {
    Concat3(Octet(bs[0]), Octets(bs[1..]), rest);
  }

  lemma {:induction false} OctetAtIndex(bs: seq<Byte>, rest: string, i: nat)
    requires i < |bs|
    ensures OctetAt(Octets(bs) + rest, 3 * i) == Some(bs[i])
  {
    OctetsFront(bs, rest);
    if i == 0 {
      OctetAtFront(bs[0], Octets(bs[1..]) + rest);
    } else {
      OctetAtIndex(bs[1..], rest, i - 1);
      OctetShifts(Octet(bs[0]), Octets(bs[1..]) + rest, i, bs[i]);
    }
  }

  lemma OctetShifts(o: string, tail: string, i: nat, b: Byte)
    requires |o| == 3 && i > 0 && OctetAt(tail, 3 * (i - 1)) == Some(b)
    ensures OctetAt(o + tail, 3 * i) == Some(b)
  {
    ShiftThree(o, tail, 3 * (i - 1));
  }

  lemma ShiftThree(o: string, t: string, i: nat)
    requires |o| == 3
    ensures OctetAt(o + t, i + 3) == OctetAt(t, i)
  {
  }

  lemma SixBits(n: nat)
    ensures n / 64 * 64 + n % 64 == n
    ensures n / 4096 * 64 + n / 64 % 64 == n / 64
    ensures n / 262144 * 64 + n / 4096 % 64 == n / 4096
  {
    assert n / 4096 == n / 64 / 64;
    assert n / 262144 == n / 4096 / 64;
  }

  lemma Continuation(s: string, i: nat, bits: nat)
    requires bits < 64 && OctetAt(s, i) == Some(0x80 + bits)
    ensures ContinuationAt(s, i) == Some(bits)
  {
  }

  lemma FrontOne(s: string, n: nat)
    requires n < 0x80 && OctetAt(s, 0) == Some(n)
    ensures FrontChar(s) == Some((n as char, 3))
  {
  }

  lemma FrontTwo(s: string, n: nat)
    requires 0x80 <= n < 0x800
    requires OctetAt(s, 0) == Some(0xC0 + n / 64) && OctetAt(s, 3) == Some(0x80 + n % 64)
    ensures FrontChar(s) == Some((n as char, 6))
  {
    Continuation(s, 3, n % 64);
    SixBits(n);
  }

  lemma FrontThree(s: string, n: nat)
    requires 0x800 <= n < 0xD800 || 0xE000 <= n < 0x1_0000
    requires OctetAt(s, 0) == Some(0xE0 + n / 4096)
    requires OctetAt(s, 3) == Some(0x80 + n / 64 % 64) && OctetAt(s, 6) == Some(0x80 + n % 64)
    ensures FrontChar(s) == Some((n as char, 9))
  {
    Continuation(s, 3, n / 64 % 64);
    Continuation(s, 6, n % 64);
    SixBits(n);
  }

  lemma FrontFour(s: string, n: nat)
    requires 0x1_0000 <= n < 0x11_0000
    requires OctetAt(s, 0) == Some(0xF0 + n / 262144) && OctetAt(s, 3) == Some(0x80 + n / 4096 % 64)
    requires OctetAt(s, 6) == Some(0x80 + n / 64 % 64) && OctetAt(s, 9) == Some(0x80 + n % 64)
    ensures FrontChar(s) == Some((n as char, 12))
  {
    Continuation(s, 3, n / 4096 % 64);
    Continuation(s, 6, n / 64 % 64);
    Continuation(s, 9, n % 64);
    SixBits(n);
  }

  /** The octets of a character, read back one by one. */
  lemma OctetsRead(bs: seq<Byte>, s: string, rest: string)
    requires s == Octets(bs) + rest
    ensures |bs| > 0 ==> OctetAt(s, 0) == Some(bs[0])
    ensures |bs| > 1 ==> OctetAt(s, 3) == Some(bs[1])
    ensures |bs| > 2 ==> OctetAt(s, 6) == Some(bs[2])
    ensures |bs| > 3 ==> OctetAt(s, 9) == Some(bs[3])
  {
    if |bs| > 0 { OctetAtIndex(bs, rest, 0); }
    if |bs| > 1 { OctetAtIndex(bs, rest, 1); }
    if |bs| > 2 { OctetAtIndex(bs, rest, 2); }
    if |bs| > 3 { OctetAtIndex(bs, rest, 3); }
  }

  /** Reading the octets of a character's UTF-8 form gives the character. */
  lemma FrontFromOctets(c: char, bs: seq<Byte>, s: string)
    requires bs == Utf8(c)
    requires OctetAt(s, 0) == Some(bs[0])
    requires |bs| > 1 ==> OctetAt(s, 3) == Some(bs[1])
    requires |bs| > 2 ==> OctetAt(s, 6) == Some(bs[2])
    requires |bs| > 3 ==> OctetAt(s, 9) == Some(bs[3])
    ensures FrontChar(s) == Some((c, 3 * |bs|))
  {
    var n := c as int;
    if n < 0x80 { FrontOne(s, n); }
    else if n < 0x800 { FrontTwo(s, n); }
    else if n < 0x1_0000 { FrontThree(s, n); }
    else { FrontFour(s, n); }
  }

  lemma FrontOfEncoded(c: char, rest: string)
    ensures FrontChar(Octets(Utf8(c)) + rest) == Some((c, 3 * |Utf8(c)|))
  {
    var bs := Utf8(c);
    var s := Octets(bs) + rest;
    OctetsRead(bs, s, rest);
    FrontFromOctets(c, bs, s);
  }

  lemma DecodeFront(c: char, rest: string)
    ensures Decode(EncodeChar(c) + rest) ==
            match Decode(rest) case Some(t) => Some([c] + t) case None => None
  {
    var s := EncodeChar(c) + rest;
    if Unescaped(c) {
      assert s[1..] == rest;
    } else {
      FrontOfEncoded(c, rest);
      assert Octets(Utf8(c))[0] == '%';
      assert s[3 * |Utf8(c)|..] == rest;
    }
  }

  /** decodeURIComponent(encodeURIComponent(s)) is s, for every well-formed string. */
  lemma {:induction false} RoundTrip(s: string)
    ensures Decode(Encode(s)) == Some(s)
  {
    if s != "" {
      RoundTrip(s[1..]);
      DecodeFront(s[0], Encode(s[1..]));
      assert [s[0]] + s[1..] == s;
    }
  }

  // ----- what the two functions do, character by character

  predicate IsUpperHex(c: char) {
    c in "0123456789ABCDEF"
  }

  lemma {:induction false} OctetsAreUpper(bs: seq<Byte>)
    ensures forall i :: 0 <= i < |bs| ==>
              Octets(bs)[3 * i] == '%' && IsUpperHex(Octets(bs)[3 * i + 1]) && IsUpperHex(Octets(bs)[3 * i + 2])
  {
    if bs != [] {
      OctetsAreUpper(bs[1..]);
      forall i | 0 <= i < |bs|
        ensures Octets(bs)[3 * i] == '%' && IsUpperHex(Octets(bs)[3 * i + 1]) && IsUpperHex(Octets(bs)[3 * i + 2])
      {
        if i > 0 {
          assert Octets(bs)[3 * i] == Octets(bs[1..])[3 * (i - 1)];
        }
      }
    }
  }

  /** Letters, digits and nine marks stay; any other character becomes octets, one to four of
      them by its value, in capital hexadecimal. */
  lemma EncodesExactly(c: char)
    ensures var kept := 'A' <= c <= 'Z' || 'a' <= c <= 'z' || '0' <= c <= '9' || c in "-_.!~*'()";
            var n := if c as int < 0x80 then 1 else if c as int < 0x800 then 2 else if c as int < 0x1_0000 then 3 else 4;
            && (kept ==> Encode([c]) == [c])
            && (!kept ==> |Encode([c])| == 3 * n && forall i :: 0 <= i < n ==>
                  Encode([c])[3 * i] == '%' && IsUpperHex(Encode([c])[3 * i + 1]) && IsUpperHex(Encode([c])[3 * i + 2]))
  {
    OneChar(c);
    if !Unescaped(c) {
      OctetsAreUpper(Utf8(c));
    }
  }

  /** A text is encoded character by character. */
  lemma EncodeFront(c: char, rest: string)
    ensures Encode([c] + rest) == Encode([c]) + Encode(rest)
  {
    assert ([c] + rest)[1..] == rest;
    OneChar(c);
  }

  lemma OneChar(c: char)
    ensures Encode([c]) == EncodeChar(c)
  {
    assert [c][1..] == "" && EncodeChar(c) + "" == EncodeChar(c);
  }

  /** A lead octet that tells the number of octets, then six bits in each of the others; together
      they are the character's value. */
  lemma Utf8Exactly(c: char)
    ensures var bs := Utf8(c);
            && (c as int < 0x80 ==> bs == [c as int])
            && (forall i :: 1 <= i < |bs| ==> 0x80 <= bs[i] <= 0xBF)
            && (0x80 <= c as int < 0x800 ==>
                  |bs| == 2 && 0xC2 <= bs[0] <= 0xDF && c as int == (bs[0] as int - 0xC0) * 64 + (bs[1] as int - 0x80))
            && (0x800 <= c as int < 0x1_0000 ==>
                  |bs| == 3 && 0xE0 <= bs[0] <= 0xEF
                  && c as int == (bs[0] as int - 0xE0) * 4096 + (bs[1] as int - 0x80) * 64 + (bs[2] as int - 0x80))
            && (0x1_0000 <= c as int ==>
                  |bs| == 4 && 0xF0 <= bs[0] <= 0xF4
                  && c as int == (bs[0] as int - 0xF0) * 262144 + (bs[1] as int - 0x80) * 4096 + (bs[2] as int - 0x80) * 64 + (bs[3] as int - 0x80))
  {
    SixBits(c as int);
  }

  /** Text without "%" decodes to itself. */
  lemma {:induction false} PlainDecodes(s: string)
    requires '%' !in s
    ensures Decode(s) == Some(s)
  {
    if s != "" {
      PlainDecodes(s[1..]);
      assert [s[0]] + s[1..] == s;
    }
  }

  /** The decoder is strict: the octets it takes for a character are those of its UTF-8 form,
      so that no overlong form, surrogate or value past 0x10FFFF is accepted. */
  lemma DecoderIsStrict(s: string, c: char, used: nat)
    requires FrontChar(s) == Some((c, used))
    ensures used == 3 * |Utf8(c)|
    ensures forall i :: 0 <= i < |Utf8(c)| ==> OctetAt(s, 3 * i) == Some(Utf8(c)[i])
  {
    var lead, length := OctetAt(s, 0).value, SequenceLength(OctetAt(s, 0).value);
    if length == 1 { StrictOne(s, lead, c); }
    if length == 2 { StrictTwo(s, lead, c); }
    if length == 3 { StrictThree(s, lead, c); }
    if length == 4 { StrictFour(s, lead, c); }
  }

  /** The octets from the front of s are the UTF-8 form of c. */
  predicate Spells(s: string, c: char, length: nat) {
    |Utf8(c)| == length && forall i :: 0 <= i < length ==> OctetAt(s, 3 * i) == Some(Utf8(c)[i])
  }

  lemma StrictOne(s: string, lead: nat, c: char)
    requires OctetAt(s, 0) == Some(lead) && SequenceLength(lead) == 1 && Scalar(lead, 1) == Some(c)
    ensures Spells(s, c, 1)
  {
  }

  lemma StrictTwo(s: string, lead: nat, c: char)
    requires OctetAt(s, 0) == Some(lead) && SequenceLength(lead) == 2 && FrontWide(s, lead, 2) == Some(c)
    ensures Spells(s, c, 2)
  {
    var x := SixAt(s, 3);
    Utf8OfTwo(c, lead - 0xC0, x);
  }

  lemma StrictThree(s: string, lead: nat, c: char)
    requires OctetAt(s, 0) == Some(lead) && SequenceLength(lead) == 3 && FrontWide(s, lead, 3) == Some(c)
    ensures Spells(s, c, 3)
  {
    var x := SixAt(s, 3);
    var y := SixAt(s, 6);
    Utf8OfThree(c, lead - 0xE0, x, y);
  }

  lemma StrictFour(s: string, lead: nat, c: char)
    requires OctetAt(s, 0) == Some(lead) && SequenceLength(lead) == 4 && FrontWide(s, lead, 4) == Some(c)
    ensures Spells(s, c, 4)
  {
    var x := SixAt(s, 3);
    var y := SixAt(s, 6);
    var z := SixAt(s, 9);
    Utf8OfFour(c, lead - 0xF0, x, y, z);
  }

  /** The octet behind a continuation's six bits. */
  lemma SixAt(s: string, i: nat) returns (x: nat)
    requires ContinuationAt(s, i).Some?
    ensures x < 64 && ContinuationAt(s, i) == Some(x) && OctetAt(s, i) == Some(0x80 + x)
  {
    x := ContinuationAt(s, i).value;
  }

  lemma Utf8OfTwo(c: char, a: nat, x: nat)
    requires c as int == a * 64 + x && x < 64 && 0x80 <= c as int < 0x800
    ensures Utf8(c) == [0xC0 + a, 0x80 + x]
  {
    Sixes(a, 0, x);
  }

  lemma Utf8OfThree(c: char, a: nat, x: nat, y: nat)
    requires c as int == a * 4096 + x * 64 + y && x < 64 && y < 64 && 0x800 <= c as int < 0x1_0000
    ensures Utf8(c) == [0xE0 + a, 0x80 + x, 0x80 + y]
  {
    Sixes(a, x, y);
  }

  lemma Utf8OfFour(c: char, a: nat, x: nat, y: nat, z: nat)
    requires c as int == a * 262144 + x * 4096 + y * 64 + z && x < 64 && y < 64 && z < 64 && c as int >= 0x1_0000
    ensures Utf8(c) == [0xF0 + a, 0x80 + x, 0x80 + y, 0x80 + z]
  {
    FourSixes(a, x, y, z);
  }

  lemma Sixes(a: nat, x: nat, y: nat)
    requires x < 64 && y < 64
    ensures (a * 64 + y) / 64 == a && (a * 64 + y) % 64 == y
    ensures var n := a * 4096 + x * 64 + y; n / 4096 == a && n / 64 % 64 == x && n % 64 == y
  {
    var n := a * 4096 + x * 64 + y;
    assert n / 64 == a * 64 + x;
  }

  lemma FourSixes(a: nat, x: nat, y: nat, z: nat)
    requires x < 64 && y < 64 && z < 64
    ensures var n := a * 262144 + x * 4096 + y * 64 + z;
            n / 262144 == a && n / 4096 % 64 == x && n / 64 % 64 == y && n % 64 == z
  {
    var n := a * 262144 + x * 4096 + y * 64 + z;
    assert n / 64 == a * 4096 + x * 64 + y;
    assert n / 4096 == a * 64 + x;
  }

  /** Encoded text holds none of the query delimiters. */
  lemma {:induction false} EncodedIsClean(s: string)
    ensures '?' !in Encode(s) && '&' !in Encode(s) && '=' !in Encode(s)
  {
    if s != "" {
      EncodedIsClean(s[1..]);
      if !Unescaped(s[0]) { OctetsAreClean(Utf8(s[0])); }
    }
  }

  lemma {:induction false} OctetsAreClean(bs: seq<Byte>)
    ensures '?' !in Octets(bs) && '&' !in Octets(bs) && '=' !in Octets(bs)
  {
    if bs != [] {
      OctetsAreClean(bs[1..]);
    }
  }
}
