/** Template substitution (internal/pkg/template/template.go): each variable of a randomly
    ordered map is replaced in turn, then leftover tokens are erased by a regular expression. */
module Template {

  // ----- the library functions it calls

  predicate StartsWith(s: string, p: string) {
    |p| <= |s| && s[..|p|] == p
  }

  /** strings.ReplaceAll: left to right, not overlapping. */
  function ReplaceAll(s: string, pattern: string, value: string): string
    requires pattern != ""
  {
    if s == "" then ""
    else if StartsWith(s, pattern) then value + ReplaceAll(s[|pattern|..], pattern, value)
    else [s[0]] + ReplaceAll(s[1..], pattern, value)
  }

  /** \s and \w of Go regular expressions. */
  predicate Space(c: char) {
    c == ' ' || c == '\t' || c == '\n' || c == '\r' || c == '\U{000C}'
  }

  predicate Word(c: char) {
    '0' <= c <= '9' || 'A' <= c <= 'Z' || 'a' <= c <= 'z' || c == '_'
  }

  /** Matched whole by \s*\w+\s*: blanks, then at least one word character, then blanks. */
  predicate IsToken(inner: string) {
    exists a: nat, b: nat | a < b <= |inner| :: BlankWordBlank(inner, a, b)
  }

  predicate BlankWordBlank(inner: string, a: nat, b: nat)
    requires a < b <= |inner|
  {
    && (forall i :: 0 <= i < a ==> Space(inner[i]))
    && (forall i :: a <= i < b ==> Word(inner[i]))
    && (forall i :: b <= i < |inner| ==> Space(inner[i]))
  }

  /** The first "}" from i on, |s| if there is none. */
  function FirstClose(s: string, i: nat): (k: nat)
    requires i <= |s|
    ensures i <= k <= |s| && (forall j :: i <= j < k ==> s[j] != '}') && (k < |s| ==> s[k] == '}')
    decreases |s| - i
  {
    if i < |s| && s[i] != '}' then FirstClose(s, i + 1) else i
  }

  /** Length of the match of {{\s*\w+\s*}} at the start of s, 0 if there is none. The text the
      expression accepts between the braces has no "}", so the match can only end at the first. */
  function TokenLength(s: string): (n: nat)
    ensures n <= |s|
  {
    if !StartsWith(s, "{{") then 0 else
      var k := FirstClose(s, 2);
      if k + 1 < |s| && s[k + 1] == '}' && IsToken(s[2..k]) then k + 2 else 0
  }

  /** reg.ReplaceAllString(s, ""). */
  function Erase(s: string): string {
    if s == "" then ""
    else if TokenLength(s) > 0 then Erase(s[TokenLength(s)..])
    else [s[0]] + Erase(s[1..])
  }

  // ----- the method

  function Pattern(key: string): string {
    "{{" + key + "}}"
  }

  /** The replacements in one order of the keys. */
  function ReplaceInOrder(s: string, order: seq<string>, variables: map<string, string>): string
    requires forall k :: k in order ==> k in variables
    decreases |order|
  {
    if order == [] then s
    else ReplaceInOrder(ReplaceAll(s, Pattern(order[0]), variables[order[0]]), order[1..], variables)
  }

  /** An iteration order of the map: every key once. */
  ghost predicate Enumerates(order: seq<string>, keys: set<string>) {
    (forall k :: k in order <==> k in keys) && forall i, j :: 0 <= i < j < |order| ==> order[i] != order[j]
  }

  lemma {:induction false} OneMore(s: string, order: seq<string>, key: string, variables: map<string, string>)
    requires (forall k :: k in order ==> k in variables) && key in variables
    ensures ReplaceInOrder(s, order + [key], variables)
            == ReplaceAll(ReplaceInOrder(s, order, variables), Pattern(key), variables[key])
    decreases |order|
  {
    if order == [] {
      assert ([] + [key])[1..] == [];
    } else {
      assert (order + [key])[1..] == order[1..] + [key];
      OneMore(ReplaceAll(s, Pattern(order[0]), variables[order[0]]), order[1..], key, variables);
    }
  }

  // ----- templates as literal text and tokens

  /** Literal text, or a token with the text between its braces. */
  datatype Piece = Lit(text: string) | Tok(inner: string)

  predicate NoChar(s: string, c: char) {
    c !in s
  }

  /** No "{{" inside and no "{" at the end. */
  predicate Plain(text: string) {
    text != "" ==> (text[0] == '{' ==> |text| > 1 && text[1] != '{') && Plain(text[1..])
  }

  /** The text can be read as literals and tokens: every "{{" in it opens a token. */
  predicate IsTemplate(text: string) {
    if text == "" then true
    else if StartsWith(text, "{{") then
      var k := FirstClose(text, 2);
      k + 1 < |text| && text[k + 1] == '}' && NoChar(text[2..k], '{') && IsTemplate(text[k + 2..])
    else (text[0] == '{' ==> |text| > 1) && IsTemplate(text[1..])
  }

  /** No "}" in it, or what is replaced for it is no template: it never covers more than a token. */
  predicate KeyOk(key: string) {
    NoChar(key, '}') || !IsTemplate(Pattern(key))
  }

  predicate PieceOk(p: Piece) {
    match p
    case Lit(text) => Plain(text)
    case Tok(inner) => NoChar(inner, '{') && NoChar(inner, '}')
  }

  predicate PiecesOk(ps: seq<Piece>) {
    ps != [] ==> PieceOk(ps[0]) && PiecesOk(ps[1..])
  }

  function RenderPiece(p: Piece): string {
    match p
    case Lit(text) => text
    case Tok(inner) => Pattern(inner)
  }

  function Render(ps: seq<Piece>): string {
    if ps == [] then "" else RenderPiece(ps[0]) + Render(ps[1..])
  }

  /** Tokens named by `keys` become the text of their variables. */
  function FillPiece(p: Piece, keys: set<string>, variables: map<string, string>): Piece
    requires keys <= variables.Keys
  {
    if p.Tok? && p.inner in keys then Lit(variables[p.inner]) else p
  }

  function Fill(ps: seq<Piece>, keys: set<string>, variables: map<string, string>): seq<Piece>
    requires keys <= variables.Keys
  {
    if ps == [] then [] else [FillPiece(ps[0], keys, variables)] + Fill(ps[1..], keys, variables)
  }

  /** All tokens at once: a variable's text, nothing for an unknown name, else left alone. */
  function Simultaneous(ps: seq<Piece>, variables: map<string, string>): string {
    if ps == [] then ""
    else
      (match ps[0]
       case Lit(text) => text
       case Tok(inner) =>
         if inner in variables then variables[inner] else if IsToken(inner) then "" else Pattern(inner))
      + Simultaneous(ps[1..], variables)
  }

  // ----- one replacement

  lemma DiffersAt(s: string, p: string, i: nat)
    requires i < |p| && i < |s| && s[i] != p[i]
    ensures !StartsWith(s, p)
  {
    assert |p| <= |s| ==> s[..|p|][i] == s[i];
  }

  lemma {:induction false} FirstDifference(a: string, b: string) returns (j: nat)
    requires a != b && |a| == |b|
    ensures j < |a| && a[j] != b[j]
  {
    if a[0] != b[0] {
      j := 0;
    } else {
      assert a == [a[0]] + a[1..] && b == [b[0]] + b[1..];
      j := FirstDifference(a[1..], b[1..]);
      j := j + 1;
    }
  }

  /** Plain text lets no pattern match in it or across its end. */
  lemma {:induction false} ReplaceSkipsPlain(text: string, rest: string, key: string, value: string)
    requires Plain(text)
    ensures ReplaceAll(text + rest, Pattern(key), value) == text + ReplaceAll(rest, Pattern(key), value)
    decreases |text|
  {
    if text == "" {
      assert text + rest == rest;
    } else {
      var s := text + rest;
      assert s[1..] == text[1..] + rest;
      assert Pattern(key)[0] == '{' && Pattern(key)[1] == '{';
      DiffersAt(s, Pattern(key), if s[0] == '{' then 1 else 0);
      ReplaceSkipsPlain(text[1..], rest, key, value);
    }
  }

  lemma InnerAt(inner: string, rest: string, j: nat)
    requires j < |inner| + 2
    ensures |Pattern(inner)| == |inner| + 4
    ensures Pattern(inner)[j + 2] == (Pattern(inner) + rest)[j + 2] == if j < |inner| then inner[j] else '}'
  {
  }

  /** A text that differs from the pattern between its braces does not start with it. */
  lemma DiffersInside(inner: string, rest: string, key: string, j: nat)
    requires j < |inner| + 2 && j < |key| + 2
    requires (if j < |inner| then inner[j] else '}') != (if j < |key| then key[j] else '}')
    ensures !StartsWith(Pattern(inner) + rest, Pattern(key))
  {
    InnerAt(inner, rest, j);
    InnerAt(key, rest, j);
    DiffersAt(Pattern(inner) + rest, Pattern(key), j + 2);
  }

  /** A front of a template that ends like a token is one too. */
  predicate EndsClosed(text: string) {
    text != "" ==> text[|text| - 1] == '}' && (|text| > 1 ==> text[|text| - 2] == '}')
  }

  lemma {:induction false} FrontIsTemplate(text: string, front: string)
    requires IsTemplate(text) && front <= text && EndsClosed(front)
    ensures IsTemplate(front)
    decreases |text|
  {
    if |front| <= 1 {
      ShortIsTemplate(front);
    } else if StartsWith(text, "{{") {
      FrontOfToken(text, front);
      var k := FirstClose(text, 2);
      FrontIsTemplate(text[k + 2..], front[k + 2..]);
      assert front[2..k] == text[2..k] && FirstClose(front, 2) == k;
    } else {
      FrontIsTemplate(text[1..], front[1..]);
      assert front[0] == text[0] && !StartsWith(front, "{{") by { FrontStarts(text, front); }
    }
  }

  lemma ShortIsTemplate(front: string)
    requires |front| <= 1 && EndsClosed(front)
    ensures IsTemplate(front)
  {
    if front != "" {
      DiffersAt(front, "{{", 0);
      assert front[1..] == "";
    }
  }

  lemma FrontStarts(text: string, front: string)
    requires front <= text && |front| >= 2
    ensures StartsWith(front, "{{") <==> StartsWith(text, "{{")
  {
    assert front[..2] == text[..2];
  }

  /** Such a front does not end inside the token the text starts with. */
  lemma FrontOfToken(text: string, front: string)
    requires StartsWith(text, "{{") && front <= text && EndsClosed(front) && |front| >= 2
    requires var k := FirstClose(text, 2); k + 1 < |text|
    ensures StartsWith(front, "{{") && FirstClose(text, 2) + 2 <= |front|
    ensures EndsClosed(front[FirstClose(text, 2) + 2..])
  {
    FrontStarts(text, front);
    var k, n := FirstClose(text, 2), |front|;
    assert text[0] == text[..2][0] == '{' && text[1] == text[..2][1] == '{';
    assert front[n - 1] == text[n - 1] && front[n - 2] == text[n - 2];
    assert n - 2 >= k;
  }

  lemma {:induction false} PlainThenTemplate(text: string, rest: string)
    requires Plain(text) && IsTemplate(rest)
    ensures IsTemplate(text + rest)
    decreases |text|
  {
    if text == "" {
      assert text + rest == rest;
    } else {
      var s := text + rest;
      assert s[1..] == text[1..] + rest;
      PlainThenTemplate(text[1..], rest);
      DiffersAt(s, "{{", if s[0] == '{' then 1 else 0);
    }
  }

  lemma TokenThenTemplate(inner: string, rest: string)
    requires NoChar(inner, '{') && NoChar(inner, '}') && IsTemplate(rest)
    ensures IsTemplate(Pattern(inner) + rest)
  {
    var s := Pattern(inner) + rest;
    var k := |inner| + 2;
    assert s[..2] == "{{" && s[k] == '}' && s[k + 1] == '}';
    assert forall j :: 2 <= j < k ==> s[j] == inner[j - 2];
    assert FirstClose(s, 2) == k && s[2..k] == inner && s[k + 2..] == rest;
  }

  lemma {:induction false} RenderIsTemplate(ps: seq<Piece>)
    requires PiecesOk(ps)
    ensures IsTemplate(Render(ps))
  {
    if ps != [] {
      RenderIsTemplate(ps[1..]);
      match ps[0]
      case Lit(text) => PlainThenTemplate(text, Render(ps[1..]));
      case Tok(inner) => TokenThenTemplate(inner, Render(ps[1..]));
    }
  }

  /** Names without "}" that differ make the pattern differ from the token. */
  lemma NamesDiffer(inner: string, rest: string, key: string)
    requires NoChar(inner, '}') && NoChar(key, '}') && inner != key
    ensures !StartsWith(Pattern(inner) + rest, Pattern(key))
  {
    if |key| == |inner| {
      var j := FirstDifference(key, inner);
      DiffersInside(inner, rest, key, j);
    } else {
      DiffersInside(inner, rest, key, if |key| < |inner| then |key| else |inner|);
    }
  }

  /** At a token the pattern matches exactly the token's own name. */
  lemma MatchesOwnName(inner: string, rest: string, key: string)
    requires NoChar(inner, '{') && NoChar(inner, '}') && KeyOk(key) && IsTemplate(rest)
    ensures StartsWith(Pattern(inner) + rest, Pattern(key)) <==> inner == key
  {
    var s, p := Pattern(inner) + rest, Pattern(key);
    if inner == key {
      assert s[..|p|] == p;
    } else if NoChar(key, '}') {
      NamesDiffer(inner, rest, key);
    } else if StartsWith(s, p) {
      TokenThenTemplate(inner, rest);
      assert p <= s && p[|p| - 1] == '}' && p[|p| - 2] == '}';
      FrontIsTemplate(s, p);
      assert false;
    }
  }

  lemma {:induction false} PlainWithoutBraces(text: string)
    requires NoChar(text, '{')
    ensures Plain(text)
    decreases |text|
  {
    if text != "" {
      PlainWithoutBraces(text[1..]);
    }
  }

  /** Past its first brace a token is plain text. */
  lemma TokenTailPlain(inner: string)
    requires NoChar(inner, '{')
    ensures Plain("{" + inner + "}}")
  {
    var tail := "{" + inner + "}}";
    assert tail[1..] == inner + "}}";
    PlainWithoutBraces(inner + "}}");
  }

  lemma ReplaceAtToken(inner: string, rest: string, key: string, value: string)
    requires NoChar(inner, '{') && NoChar(inner, '}') && KeyOk(key) && IsTemplate(rest)
    ensures ReplaceAll(Pattern(inner) + rest, Pattern(key), value)
            == (if inner == key then value else Pattern(inner)) + ReplaceAll(rest, Pattern(key), value)
  {
    MatchesOwnName(inner, rest, key);
    if inner == key {
      var s := Pattern(inner) + rest;
      assert s[|Pattern(key)|..] == rest;
    } else {
      ReplacePastToken(inner, rest, key, value);
    }
  }

  lemma ReplacePastToken(inner: string, rest: string, key: string, value: string)
    requires NoChar(inner, '{') && !StartsWith(Pattern(inner) + rest, Pattern(key))
    ensures ReplaceAll(Pattern(inner) + rest, Pattern(key), value) == Pattern(inner) + ReplaceAll(rest, Pattern(key), value)
  {
    var s, tail := Pattern(inner) + rest, "{" + inner + "}}";
    assert s[0] == '{' && s[1..] == tail + rest;
    TokenTailPlain(inner);
    ReplaceSkipsPlain(tail, rest, key, value);
    BracesAround(inner, ReplaceAll(rest, Pattern(key), value));
  }

  /** One replacement fills exactly the tokens with that name. */
  lemma {:induction false} ReplaceFills(ps: seq<Piece>, key: string, variables: map<string, string>)
    requires PiecesOk(ps) && KeyOk(key) && key in variables
    ensures ReplaceAll(Render(ps), Pattern(key), variables[key]) == Render(Fill(ps, {key}, variables))
    decreases |ps|
  {
    if ps != [] {
      ReplaceFills(ps[1..], key, variables);
      match ps[0]
      case Lit(text) => ReplaceSkipsPlain(text, Render(ps[1..]), key, variables[key]);
      case Tok(inner) =>
        RenderIsTemplate(ps[1..]);
        ReplaceAtToken(inner, Render(ps[1..]), key, variables[key]);
    }
  }

  // ----- all replacements

  /** The keys of an order as a set. */
  function KeySet(order: seq<string>): set<string> {
    set k | k in order
  }

  lemma {:induction false} FillOk(ps: seq<Piece>, keys: set<string>, variables: map<string, string>)
    requires PiecesOk(ps) && keys <= variables.Keys
    requires forall k :: k in keys ==> Plain(variables[k])
    ensures PiecesOk(Fill(ps, keys, variables))
  {
    if ps != [] {
      FillOk(ps[1..], keys, variables);
    }
  }

  lemma {:induction false} FillTwice(ps: seq<Piece>, first: set<string>, second: set<string>, variables: map<string, string>)
    requires first <= variables.Keys && second <= variables.Keys
    ensures Fill(Fill(ps, first, variables), second, variables) == Fill(ps, first + second, variables)
  {
    if ps != [] {
      FillTwice(ps[1..], first, second, variables);
    }
  }

  predicate PlainValues(variables: map<string, string>) {
    forall k <- variables :: Plain(variables[k])
  }

  /** Values are plain and keys replace nothing but tokens. */
  predicate VariablesOk(variables: map<string, string>) {
    PlainValues(variables) && forall k <- variables :: KeyOk(k)
  }

  lemma {:induction false} ReplaceInOrderFills(ps: seq<Piece>, order: seq<string>, variables: map<string, string>)
    requires PiecesOk(ps) && VariablesOk(variables) && forall k :: k in order ==> k in variables
    ensures ReplaceInOrder(Render(ps), order, variables) == Render(Fill(ps, KeySet(order), variables))
    decreases |order|
  {
    if order == [] {
      assert KeySet(order) == {};
      FillNothing(ps, variables);
    } else {
      var k := order[0];
      ReplaceFills(ps, k, variables);
      FillOk(ps, {k}, variables);
      ReplaceInOrderFills(Fill(ps, {k}, variables), order[1..], variables);
      FillTwice(ps, {k}, KeySet(order[1..]), variables);
      assert order == [k] + order[1..];
      assert KeySet(order) == {k} + KeySet(order[1..]);
    }
  }

  lemma {:induction false} FillNothing(ps: seq<Piece>, variables: map<string, string>)
    ensures Fill(ps, {}, variables) == ps
  {
    if ps != [] {
      FillNothing(ps[1..], variables);
    }
  }

  // ----- erasing

  /** The expression matches a token exactly when its text has the right form, and then it
      matches the whole token. */
  lemma TokenLengthAtToken(inner: string, rest: string)
    requires NoChar(inner, '}')
    ensures TokenLength(Pattern(inner) + rest) == if IsToken(inner) then |inner| + 4 else 0
  {
    var s := Pattern(inner) + rest;
    var k := |inner| + 2;
    assert s[..2] == "{{" && s[k] == '}' && s[k + 1] == '}';
    assert forall j :: 2 <= j < k ==> s[j] == inner[j - 2];
    assert FirstClose(s, 2) == k;
    assert s[2..k] == inner;
  }

  /** One step of Erase, with the match length and the remainder given. */
  lemma EraseStep(s: string, n: nat, rest: string)
    requires s != "" && n == TokenLength(s)
    requires rest == s[if n > 0 then n else 1..]
    ensures Erase(s) == (if n > 0 then "" else [s[0]]) + Erase(rest)
  {
  }

  lemma NoTokenAt(s: string, i: nat)
    requires i < |s| && i < 2 && s[i] != '{'
    ensures TokenLength(s) == 0
  {
    DiffersAt(s, "{{", i);
  }

  lemma EraseOnePlain(text: string, rest: string)
    requires text != "" && Plain(text)
    ensures Erase(text + rest) == [text[0]] + Erase(text[1..] + rest)
  {
    var s := text + rest;
    assert s[0] == text[0] && (text[0] == '{' ==> s[1] == text[1] != '{');
    NoTokenAt(s, if text[0] == '{' then 1 else 0);
    EraseStep(s, 0, text[1..] + rest);
  }

  lemma {:induction false} EraseSkipsPlain(text: string, rest: string)
    requires Plain(text)
    ensures Erase(text + rest) == text + Erase(rest)
    decreases |text|
  {
    if text == "" {
      assert text + rest == rest;
    } else {
      calc {
        Erase(text + rest);
      == { EraseOnePlain(text, rest); }
        [text[0]] + Erase(text[1..] + rest);
      == { EraseSkipsPlain(text[1..], rest); }
        [text[0]] + (text[1..] + Erase(rest));
      == { HeadAndTail(text, Erase(rest)); }
        text + Erase(rest);
      }
    }
  }

  lemma HeadAndTail(text: string, e: string)
    requires text != ""
    ensures [text[0]] + (text[1..] + e) == text + e
  {
  }

  lemma EraseMatched(inner: string, rest: string)
    requires NoChar(inner, '}') && IsToken(inner)
    ensures Erase(Pattern(inner) + rest) == Erase(rest)
  {
    TokenLengthAtToken(inner, rest);
    EraseStep(Pattern(inner) + rest, |inner| + 4, rest);
  }

  lemma EraseFirstBrace(inner: string, rest: string)
    requires NoChar(inner, '}') && !IsToken(inner)
    ensures Erase(Pattern(inner) + rest) == "{" + Erase("{" + inner + "}}" + rest)
  {
    TokenLengthAtToken(inner, rest);
    EraseStep(Pattern(inner) + rest, 0, "{" + inner + "}}" + rest);
  }

  lemma EraseTokenTail(inner: string, rest: string)
    requires NoChar(inner, '{')
    ensures Erase("{" + inner + "}}" + rest) == "{" + inner + "}}" + Erase(rest)
  {
    TokenTailPlain(inner);
    EraseSkipsPlain("{" + inner + "}}", rest);
  }

  lemma BracesAround(inner: string, e: string)
    ensures "{" + ("{" + inner + "}}" + e) == Pattern(inner) + e
  {
  }

  lemma EraseUnmatched(inner: string, rest: string)
    requires NoChar(inner, '{') && NoChar(inner, '}') && !IsToken(inner)
    ensures Erase(Pattern(inner) + rest) == Pattern(inner) + Erase(rest)
  {
    calc {
      Erase(Pattern(inner) + rest);
    == { EraseFirstBrace(inner, rest); }
      "{" + Erase("{" + inner + "}}" + rest);
    == { EraseTokenTail(inner, rest); }
      "{" + ("{" + inner + "}}" + Erase(rest));
    == { BracesAround(inner, Erase(rest)); }
      Pattern(inner) + Erase(rest);
    }
  }

  lemma EraseAtToken(inner: string, rest: string)
    requires NoChar(inner, '{') && NoChar(inner, '}')
    ensures Erase(Pattern(inner) + rest) == (if IsToken(inner) then "" else Pattern(inner)) + Erase(rest)
  {
    if IsToken(inner) {
      EraseMatched(inner, rest);
    } else {
      EraseUnmatched(inner, rest);
    }
  }

  /** Blanks as regular expressions have them: space, tab, new line, return, form feed. */
  predicate AllBlank(s: string) {
    forall i :: 0 <= i < |s| ==> s[i] == ' ' || s[i] == '\t' || s[i] == '\n' || s[i] == '\r' || s[i] == '\U{000C}'
  }

  predicate AllWord(s: string) {
    forall i :: 0 <= i < |s| ==> 'a' <= s[i] <= 'z' || 'A' <= s[i] <= 'Z' || '0' <= s[i] <= '9' || s[i] == '_'
  }

  ghost predicate IsName(before: string, word: string, after: string, inner: string) {
    word != "" && AllBlank(before) && AllWord(word) && AllBlank(after) && before + word + after == inner
  }

  /** A token is erased if and only if what is between its braces is one word with blanks around. */
  lemma ErasesExactly(inner: string)
    requires NoChar(inner, '{') && NoChar(inner, '}')
    ensures (exists before, word, after :: IsName(before, word, after, inner)) ==> Erase(Pattern(inner)) == ""
    ensures (forall before, word, after :: !IsName(before, word, after, inner)) ==> Erase(Pattern(inner)) == Pattern(inner)
  {
    EraseAtToken(inner, "");
    assert Pattern(inner) + "" == Pattern(inner);
    if IsToken(inner) {
      var a: nat, b: nat :| a < b <= |inner| && BlankWordBlank(inner, a, b);
      assert inner[..a] + inner[a..b] + inner[b..] == inner;
      assert IsName(inner[..a], inner[a..b], inner[b..], inner);
    }
    if before, word, after :| IsName(before, word, after, inner) {
      NameAt(before, word, after, inner);
    }
  }

  lemma NameAt(before: string, word: string, after: string, inner: string)
    requires IsName(before, word, after, inner)
    ensures IsToken(inner)
  {
    var a, b := |before|, |before| + |word|;
    forall i | 0 <= i < a ensures Space(inner[i]) { assert inner[i] == before[i]; }
    forall i | a <= i < b ensures Word(inner[i]) { assert inner[i] == word[i - a]; }
    forall i | b <= i < |inner| ensures Space(inner[i]) { assert inner[i] == after[i - b]; }
    assert BlankWordBlank(inner, a, b);
  }

  /** Erasing what is left after filling every variable is the simultaneous substitution. */
  lemma {:induction false} EraseFilled(ps: seq<Piece>, variables: map<string, string>)
    requires PiecesOk(ps) && PlainValues(variables)
    ensures Erase(Render(Fill(ps, variables.Keys, variables))) == Simultaneous(ps, variables)
  {
    if ps != [] {
      EraseFilled(ps[1..], variables);
      var rest := Render(Fill(ps[1..], variables.Keys, variables));
      match ps[0]
      case Lit(text) => EraseSkipsPlain(text, rest);
      case Tok(inner) =>
        if inner in variables {
          EraseSkipsPlain(variables[inner], rest);
        } else {
          EraseAtToken(inner, rest);
        }
    }
  }

  /** Order independence: for plain literals, plain values and keys that replace nothing but
      tokens, Apply gives the simultaneous substitution in every order the map may be walked. */
  lemma OrderIndependent(ps: seq<Piece>, variables: map<string, string>, order: seq<string>)
    requires PiecesOk(ps) && VariablesOk(variables) && Enumerates(order, variables.Keys)
    ensures Erase(ReplaceInOrder(Render(ps), order, variables)) == Simultaneous(ps, variables)
  {
    ReplaceInOrderFills(ps, order, variables);
    assert KeySet(order) == variables.Keys;
    EraseFilled(ps, variables);
  }

  /** Apply, walking the map in an arbitrary order; for plain literals, plain values and keys that
      replace nothing but tokens that is the simultaneous substitution. */
  method Apply(t: string, variables: map<string, string>) returns (result: string)
    ensures exists order :: Enumerates(order, variables.Keys) && result == Erase(ReplaceInOrder(t, order, variables))
    ensures forall ps :: Render(ps) == t && PiecesOk(ps) && VariablesOk(variables) ==> result == Simultaneous(ps, variables)
  {
    result := t;
    ghost var order := [];
    var rest := variables.Keys;
    while rest != {}
      invariant rest <= variables.Keys
      invariant Enumerates(order, variables.Keys - rest)
      invariant result == ReplaceInOrder(t, order, variables)
    {
      var key :| key in rest;
      result := ReplaceAll(result, "{{" + key + "}}", variables[key]);
      OneMore(t, order, key, variables);
      order := order + [key];
      rest := rest - {key};
    }
    result := Erase(result);
    assert Enumerates(order, variables.Keys);
    forall ps | Render(ps) == t && PiecesOk(ps) && VariablesOk(variables)
      ensures result == Simultaneous(ps, variables)
    {
      OrderIndependent(ps, variables, order);
    }
  }

  /** Replacing the one token of a one-token template. */
  lemma ReplaceSingle(inner: string, key: string, value: string)
    requires NoChar(inner, '{') && NoChar(inner, '}') && KeyOk(key)
    ensures ReplaceAll(Pattern(inner), Pattern(key), value) == if inner == key then value else Pattern(inner)
  {
    ReplaceAtToken(inner, "", key, value);
    assert Pattern(inner) + "" == Pattern(inner) && value + "" == value;
  }

  lemma ReplaceBoth(s: string, first: string, second: string, variables: map<string, string>)
    requires first in variables && second in variables
    ensures ReplaceInOrder(s, [first, second], variables)
            == ReplaceAll(ReplaceAll(s, Pattern(first), variables[first]), Pattern(second), variables[second])
  {
    var once := ReplaceAll(s, Pattern(first), variables[first]);
    assert [first, second][1..] == [second];
    assert ReplaceInOrder(once, [second], variables) == ReplaceAll(once, Pattern(second), variables[second]) by {
      OneMore(once, [], second, variables);
      assert [] + [second] == [second];
    }
  }

  lemma NameIsToken(inner: string)
    requires |inner| == 1 && Word(inner[0])
    ensures IsToken(inner)
  {
    assert BlankWordBlank(inner, 0, 1);
  }

  /** A value with "{" breaks it: two orders of the same two variables give different texts. */
  lemma BraceInValueDependsOnOrder()
    ensures var variables := map["a" := Pattern("b"), "b" := "x"];
            && Erase(ReplaceInOrder(Pattern("a"), ["a", "b"], variables)) == "x"
            && Erase(ReplaceInOrder(Pattern("a"), ["b", "a"], variables)) == ""
  {
    var variables := map["a" := Pattern("b"), "b" := "x"];
    ReplaceBoth(Pattern("a"), "a", "b", variables);
    ReplaceBoth(Pattern("a"), "b", "a", variables);
    ReplaceSingle("a", "a", Pattern("b"));
    ReplaceSingle("b", "b", "x");
    ReplaceSingle("a", "b", "x");
    assert Erase("x") == "x" by { EraseSkipsPlain("x", ""); assert "x" + "" == "x"; }
    assert Erase(Pattern("b")) == "" by {
      NameIsToken("b");
      EraseMatched("b", "");
      assert Pattern("b") + "" == Pattern("b");
    }
  }

  /** A key whose pattern is a template of another token breaks it too. */
  lemma BraceInKeyDependsOnOrder(early: string, t: string, variables: map<string, string>)
    requires early == "a}}b" && t == Pattern("a") + "b}}" && variables == map["a" := "x", early := "y"]
    ensures ReplaceInOrder(t, ["a", early], variables) == "xb}}"
    ensures ReplaceInOrder(t, [early, "a"], variables) == "y"
  {
    ReplaceBoth(t, "a", early, variables);
    ReplaceBoth(t, early, "a", variables);
    assert ReplaceAll(t, Pattern("a"), "x") == "xb}}" by {
      ReplaceAtToken("a", "b}}", "a", "x");
      ReplaceSkipsPlain("b}}", "", "a", "x");
      assert "b}}" + "" == "b}}";
    }
    assert ReplaceAll("xb}}", Pattern(early), "y") == "xb}}" by {
      ReplaceSkipsPlain("xb}}", "", early, "y");
      assert "xb}}" + "" == "xb}}";
    }
    assert t == Pattern(early) && t[|t|..] == "";
    assert ReplaceAll(t, Pattern(early), "y") == "y" + ReplaceAll("", Pattern(early), "y") == "y";
    assert ReplaceAll("y", Pattern("a"), "x") == "y" by {
      ReplaceSkipsPlain("y", "", "a", "x");
      assert "y" + "" == "y";
    }
  }

  // ----- which keys are harmless

  /** Beside harmless keys and plain values, in any template, map and order, this key replaces its
      own tokens and nothing else. */
  ghost predicate HarmlessKey(key: string) {
    forall ps, variables, order ::
      FitsKey(key, ps, variables, order) ==> Erase(ReplaceInOrder(Render(ps), order, variables)) == Simultaneous(ps, variables)
  }

  ghost predicate FitsKey(key: string, ps: seq<Piece>, variables: map<string, string>, order: seq<string>) {
    && PiecesOk(ps) && Enumerates(order, variables.Keys) && PlainValues(variables)
    && forall k :: k in variables ==> k == key || KeyOk(k)
  }

  /** The harmless keys are exactly those without "}" and those whose pattern is no template. */
  lemma KeyIsExact(key: string)
    ensures HarmlessKey(key) <==> KeyOk(key)
  {
    if KeyOk(key) {
      forall ps, variables, order | FitsKey(key, ps, variables, order)
        ensures Erase(ReplaceInOrder(Render(ps), order, variables)) == Simultaneous(ps, variables)
      {
        OrderIndependent(ps, variables, order);
      }
    } else {
      TemplateKeyIsHarmful(key);
    }
  }

  /** The pieces of a template. */
  function Pieces(text: string): (ps: seq<Piece>)
    requires IsTemplate(text)
    decreases |text|
  {
    if text == "" then []
    else if StartsWith(text, "{{") then
      var k := FirstClose(text, 2);
      [Tok(text[2..k])] + Pieces(text[k + 2..])
    else Extend(text[0], Pieces(text[1..]))
  }

  /** One more literal character in front. */
  function Extend(c: char, ps: seq<Piece>): seq<Piece> {
    if ps != [] && ps[0].Lit? then [Lit([c] + ps[0].text)] + ps[1..] else [Lit([c])] + ps
  }

  lemma {:induction false} PiecesAreOk(text: string)
    requires IsTemplate(text)
    ensures PiecesOk(Pieces(text)) && Render(Pieces(text)) == text && StartsFull(Pieces(text))
    decreases |text|
  {
    if text != "" {
      if StartsWith(text, "{{") {
        var k := FirstClose(text, 2);
        PiecesAreOk(text[k + 2..]);
        TokenPiece(text, k, Pieces(text[k + 2..]));
      } else {
        PiecesAreOk(text[1..]);
        LiteralPiece(text, Pieces(text[1..]));
      }
    }
  }

  predicate StartsFull(ps: seq<Piece>) {
    ps != [] && ps[0].Lit? ==> ps[0].text != ""
  }

  lemma RenderCons(p: Piece, ps: seq<Piece>)
    ensures Render([p] + ps) == RenderPiece(p) + Render(ps)
    ensures PieceOk(p) && PiecesOk(ps) ==> PiecesOk([p] + ps)
  {
    assert ([p] + ps)[1..] == ps;
  }

  lemma PlainCons(c: char, text: string)
    requires Plain(text) && (c == '{' ==> text != "" && text[0] != '{')
    ensures Plain([c] + text)
  {
    assert ([c] + text)[1..] == text;
  }

  lemma FrontCons(text: string, front: string, rest: string)
    requires text != "" && text[1..] == front + rest
    ensures text == ([text[0]] + front) + rest && (front != "" ==> text[1] == front[0])
  {
    assert text == [text[0]] + text[1..];
  }

  lemma CutToken(text: string, k: nat)
    requires 2 <= k && k + 1 < |text| && text[..2] == "{{" && text[k] == text[k + 1] == '}'
    ensures text == Pattern(text[2..k]) + text[k + 2..]
  {
    var inner := text[2..k];
    assert text[k..k + 2] == "}}";
    assert text[..k] == "{{" + inner;
    assert text[..k + 2] == text[..k] + text[k..k + 2] == Pattern(inner);
  }

  lemma NoCloseBefore(text: string, k: nat)
    requires 2 <= k <= |text| && forall j :: 2 <= j < k ==> text[j] != '}'
    ensures NoChar(text[2..k], '}')
  {
    var inner := text[2..k];
    forall j | 0 <= j < |inner| ensures inner[j] != '}' { assert inner[j] == text[j + 2]; }
  }

  lemma TokenPiece(text: string, k: nat, ps: seq<Piece>)
    requires StartsWith(text, "{{") && k == FirstClose(text, 2) && k + 1 < |text| && text[k + 1] == '}'
    requires NoChar(text[2..k], '{') && PiecesOk(ps) && Render(ps) == text[k + 2..]
    ensures PiecesOk([Tok(text[2..k])] + ps) && Render([Tok(text[2..k])] + ps) == text
  {
    CutToken(text, k);
    NoCloseBefore(text, k);
    RenderCons(Tok(text[2..k]), ps);
  }

  lemma LiteralPiece(text: string, ps: seq<Piece>)
    requires text != "" && !StartsWith(text, "{{") && (text[0] == '{' ==> |text| > 1)
    requires PiecesOk(ps) && Render(ps) == text[1..] && StartsFull(ps)
    ensures PiecesOk(Extend(text[0], ps)) && Render(Extend(text[0], ps)) == text && StartsFull(Extend(text[0], ps))
  {
    BraceThenOther(text);
    if ps != [] && ps[0].Lit? {
      LongerLiteral(text, ps[0].text, ps[1..]);
    } else {
      NewLiteral(text, ps);
    }
  }

  lemma BraceThenOther(text: string)
    requires text != "" && !StartsWith(text, "{{") && (text[0] == '{' ==> |text| > 1)
    ensures text[0] == '{' ==> text[1] != '{'
  {
    if |text| > 1 {
      assert text[..2] == [text[0], text[1]];
    }
  }

  lemma LongerLiteral(text: string, front: string, ps: seq<Piece>)
    requires text != "" && (text[0] == '{' ==> |text| > 1 && text[1] != '{')
    requires PiecesOk(ps) && Plain(front) && front != "" && text[1..] == front + Render(ps)
    ensures PiecesOk([Lit([text[0]] + front)] + ps) && Render([Lit([text[0]] + front)] + ps) == text
  {
    FrontCons(text, front, Render(ps));
    PlainCons(text[0], front);
    RenderCons(Lit([text[0]] + front), ps);
  }

  lemma NewLiteral(text: string, ps: seq<Piece>)
    requires text != "" && (text[0] == '{' ==> |text| > 1 && text[1] != '{')
    requires PiecesOk(ps) && Render(ps) == text[1..] && (ps != [] ==> ps[0].Tok?)
    ensures PiecesOk([Lit([text[0]])] + ps) && Render([Lit([text[0]])] + ps) == text
  {
    if ps != [] {
      assert Render(ps)[0] == '{' && text[1] == text[1..][0];
    }
    FrontCons(text, "", Render(ps));
    PlainCons(text[0], "");
    RenderCons(Lit([text[0]]), ps);
    assert [text[0]] + "" == [text[0]];
  }

  lemma {:induction false} UnknownTokensShrink(ps: seq<Piece>, variables: map<string, string>)
    requires PiecesOk(ps) && forall k :: k in variables ==> !NoChar(k, '}')
    ensures |Simultaneous(ps, variables)| <= |Render(ps)|
  {
    if ps != [] {
      UnknownTokensShrink(ps[1..], variables);
    }
  }

  /** The pattern, taken as a template of other tokens, is replaced as a whole. */
  lemma TemplateKeyIsHarmful(key: string)
    requires !KeyOk(key)
    ensures !HarmlessKey(key)
  {
    var t, line := Pattern(key), Line(|key| + 5);
    var ps, variables := Pieces(t), map[key := line];
    PiecesAreOk(t);
    PlainWithoutBraces(line);
    UnknownTokensShrink(ps, variables);
    WholeReplaced(key, line, variables);
    assert FitsKey(key, ps, variables, [key]);
    assert Erase(ReplaceInOrder(Render(ps), [key], variables)) == line;
  }

  lemma WholeReplaced(key: string, line: string, variables: map<string, string>)
    requires variables == map[key := line] && NoChar(line, '{')
    ensures Erase(ReplaceInOrder(Pattern(key), [key], variables)) == line
  {
    var t := Pattern(key);
    assert [key][1..] == [];
    assert t[..|t|] == t && t[|t|..] == "";
    assert ReplaceAll(t, t, line) == line + ReplaceAll("", t, line) == line;
    PlainWithoutBraces(line);
    EraseSkipsPlain(line, "");
    assert line + "" == line;
  }

  // ----- which values are harmless

  /** Beside plain values, in any template, map and order, this value is put in as it is. */
  ghost predicate Harmless(value: string) {
    forall ps, variables, order ::
      Fits(value, ps, variables, order) ==> Erase(ReplaceInOrder(Render(ps), order, variables)) == Simultaneous(ps, variables)
  }

  ghost predicate Fits(value: string, ps: seq<Piece>, variables: map<string, string>, order: seq<string>) {
    && PiecesOk(ps) && Enumerates(order, variables.Keys)
    && forall k :: k in variables ==> KeyOk(k) && (variables[k] == value || Plain(variables[k]))
  }

  /** The harmless values are exactly the plain ones. */
  lemma PlainIsExact(value: string)
    ensures Harmless(value) <==> Plain(value)
  {
    if Plain(value) {
      forall ps, variables, order | Fits(value, ps, variables, order)
        ensures Erase(ReplaceInOrder(Render(ps), order, variables)) == Simultaneous(ps, variables)
      {
        OrderIndependent(ps, variables, order);
      }
    } else {
      NotPlainIsHarmful(value);
    }
  }

  predicate Occurs(s: string, pattern: string, i: nat) {
    i <= |s| && StartsWith(s[i..], pattern)
  }

  /** Where a value stops being plain. */
  lemma {:induction false} BracesAt(value: string) returns (i: nat)
    requires !Plain(value)
    ensures i < |value| && value[i] == '{' && (i == |value| - 1 || value[i + 1] == '{')
  {
    if value[0] == '{' && (|value| == 1 || value[1] == '{') {
      i := 0;
    } else {
      i := BracesAt(value[1..]);
      i := i + 1;
    }
  }

  /** A plain literal behind the value completes the pattern of some key. */
  lemma Completion(value: string) returns (lit: string, key: string, i: nat)
    requires !Plain(value)
    ensures Plain(lit) && KeyOk(key) && Occurs(value + lit, Pattern(key), i)
  {
    i := BracesAt(value);
    if i == |value| - 1 {
      lit, key := "{x}}", "x";
      assert (value + lit)[i..] == Pattern(key);
    } else {
      var rest := value[i + 2..];
      lit, key := CloseKey(rest);
      assert (value + lit)[i..] == "{{" + (rest + lit);
      OccursAfterBraces(rest + lit, key);
    }
  }

  lemma OccursAfterBraces(tail: string, key: string)
    requires key + "}}" <= tail
    ensures StartsWith("{{" + tail, Pattern(key))
  {
    assert ("{{" + tail)[..|key| + 4] == "{{" + tail[..|key| + 2];
  }

  lemma CloseKey(rest: string) returns (lit: string, key: string)
    ensures Plain(lit) && KeyOk(key) && key + "}}" <= rest + lit
  {
    var k := FirstClose(rest, 0);
    if k + 1 < |rest| && rest[k + 1] == '}' {
      lit, key := "", rest[..k];
      assert rest + lit == key + "}}" + rest[k + 2..];
    } else if k + 1 == |rest| {
      lit, key := "x}}", rest + "x";
      assert rest + lit == key + "}}";
      assert forall j :: 0 <= j < |rest| ==> key[j] == rest[j];
      ClosesNoToken(key, k);
    } else {
      lit, key := "}}", rest;
      if k < |rest| { ClosesNoToken(key, k); }
    }
  }

  /** A key whose first "}" is followed by something else. */
  lemma ClosesNoToken(key: string, k: nat)
    requires k + 1 < |key| && key[k] == '}' && key[k + 1] != '}' && forall j :: 0 <= j < k ==> key[j] != '}'
    ensures KeyOk(key)
  {
    var p := Pattern(key);
    assert forall j :: 0 <= j < |key| ==> p[j + 2] == key[j];
    assert p[..2] == "{{";
    assert FirstClose(p, 2) == k + 2;
  }

  /** How many points a text has; none is ever erased. */
  function Points(s: string): (n: nat)
    ensures n <= |s|
  {
    if s == "" then 0 else (if s[0] == '.' then 1 else 0) + Points(s[1..])
  }

  lemma {:induction false} PointsConcat(a: string, b: string)
    ensures Points(a + b) == Points(a) + Points(b)
    decreases |a|
  {
    if a == "" {
      assert a + b == b;
    } else {
      assert (a + b)[1..] == a[1..] + b;
      PointsConcat(a[1..], b);
    }
  }

  lemma {:induction false} NoPoints(s: string)
    requires '.' !in s
    ensures Points(s) == 0
    decreases |s|
  {
    if s != "" {
      NoPoints(s[1..]);
    }
  }

  lemma TokenHasNoPoint(s: string)
    ensures Points(s[..TokenLength(s)]) == 0
  {
    var n := TokenLength(s);
    if n > 0 {
      var k := n - 2;
      assert k == FirstClose(s, 2) && s[..2] == "{{" && s[k] == s[k + 1] == '}';
      WordsHaveNoPoint(s[2..k]);
      forall i | 0 <= i < n ensures s[i] != '.' {
        assert 2 <= i < k ==> s[i] == s[2..k][i - 2];
        assert i < 2 ==> s[i] == s[..2][i];
      }
    }
    NoPoints(s[..n]);
  }

  lemma WordsHaveNoPoint(inner: string)
    requires IsToken(inner)
    ensures forall i :: 0 <= i < |inner| ==> inner[i] != '.'
  {
    var a: nat, b: nat :| a < b <= |inner| && BlankWordBlank(inner, a, b);
    forall i | 0 <= i < |inner| ensures inner[i] != '.' {
      assert Space(inner[i]) || Word(inner[i]);
    }
  }

  lemma {:induction false} PointsErased(s: string)
    ensures Points(Erase(s)) == Points(s)
    decreases |s|
  {
    if s != "" {
      var n := TokenLength(s);
      if n > 0 {
        TokenHasNoPoint(s);
        PointsErased(s[n..]);
        PointsConcat(s[..n], s[n..]);
        assert s == s[..n] + s[n..];
      } else {
        PointsErased(s[1..]);
        PointsConcat([s[0]], Erase(s[1..]));
        assert [s[0]][1..] == "";
      }
    }
  }

  /** A replacement that happens brings the value's points with it. */
  lemma {:induction false} PointsReplaced(s: string, pattern: string, value: string, i: nat)
    requires pattern != "" && Occurs(s, pattern, i)
    ensures Points(ReplaceAll(s, pattern, value)) >= Points(value)
    decreases |s|
  {
    if StartsWith(s, pattern) {
      PointsConcat(value, ReplaceAll(s[|pattern|..], pattern, value));
    } else {
      assert i > 0 by { assert s[0..] == s; }
      assert s[1..][i - 1..] == s[i..];
      PointsReplaced(s[1..], pattern, value, i - 1);
      PointsConcat([s[0]], ReplaceAll(s[1..], pattern, value));
    }
  }

  function Line(n: nat): (s: string)
    ensures |s| == n && Points(s) == n && NoChar(s, '{')
  {
    if n == 0 then "" else "." + Line(n - 1)
  }

  /** A template with one token and a literal, and a second variable for the text they make. */
  lemma NotPlainIsHarmful(value: string)
    requires !Plain(value)
    ensures !Harmless(value)
  {
    var lit, key, i := Completion(value);
    var line := Line(|value + lit| + 1);
    var ps, variables, order := TemplateFilled(value, lit, key, line);
    FilledDiffers(value + lit, key, line, i);
  }

  lemma TemplateFilled(value: string, lit: string, key: string, line: string)
    returns (ps: seq<Piece>, variables: map<string, string>, order: seq<string>)
    requires Plain(lit) && KeyOk(key) && NoChar(line, '{')
    ensures Fits(value, ps, variables, order)
    ensures ReplaceInOrder(Render(ps), order, variables) == ReplaceAll(value + lit, Pattern(key), line)
    ensures Simultaneous(ps, variables) == value + lit
  {
    var name := if key == "a" then "b" else "a";
    ps, variables, order := [Tok(name), Lit(lit)], map[name := value, key := line], [name, key];
    TemplateFits(value, name, lit, key, line);
    TwoPieceTemplate(name, lit, variables);
    ReplaceBoth(Pattern(name) + lit, name, key, variables);
    ReplaceFirst(name, lit, value);
  }

  /** More points come in with the line than the text has characters. */
  lemma FilledDiffers(text: string, key: string, line: string, i: nat)
    requires Occurs(text, Pattern(key), i) && Points(line) > |text|
    ensures Erase(ReplaceAll(text, Pattern(key), line)) != text
  {
    PointsReplaced(text, Pattern(key), line, i);
    PointsErased(ReplaceAll(text, Pattern(key), line));
  }

  lemma TemplateFits(value: string, name: string, lit: string, key: string, line: string)
    requires (name == "a" || name == "b") && name != key && Plain(lit) && KeyOk(key) && NoChar(line, '{')
    ensures Fits(value, [Tok(name), Lit(lit)], map[name := value, key := line], [name, key])
  {
    PlainWithoutBraces(line);
    assert KeyOk(name);
    assert [Tok(name), Lit(lit)][1..] == [Lit(lit)];
    assert PiecesOk([Lit(lit)]);
  }

  lemma TwoPieceTemplate(name: string, lit: string, variables: map<string, string>)
    requires name in variables
    ensures Render([Tok(name), Lit(lit)]) == Pattern(name) + lit
    ensures Simultaneous([Tok(name), Lit(lit)], variables) == variables[name] + lit
  {
    assert [Tok(name), Lit(lit)][1..] == [Lit(lit)] && [Lit(lit)][1..] == [];
    assert Render([Lit(lit)]) == lit + "" == lit;
    assert Simultaneous([Lit(lit)], variables) == lit + "" == lit;
  }

  lemma ReplaceFirst(name: string, lit: string, value: string)
    requires NoChar(name, '{') && NoChar(name, '}') && Plain(lit)
    ensures ReplaceAll(Pattern(name) + lit, Pattern(name), value) == value + lit
  {
    PlainThenTemplate(lit, "");
    assert lit + "" == lit;
    ReplaceAtToken(name, lit, name, value);
    ReplaceSkipsPlain(lit, "", name, value);
  }
}
