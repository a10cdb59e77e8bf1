/** Query strings in the sniffer's editor (decodeQueryParams and encodeQueryParams in
    web/client/app/providers/Woole.js). */
module QueryParams {
  import opened PercentEncoding
  import opened Prelude

  /** String.split on one character. */
  function Split(s: string, sep: char): (parts: seq<string>)
    ensures |parts| >= 1
  {
    if s == "" then [""]
    else if s[0] == sep then [""] + Split(s[1..], sep)
    else var rest := Split(s[1..], sep); [[s[0]] + rest[0]] + rest[1..]
  }

  /** Array.join on one character. */
  function Join(parts: seq<string>, sep: char): string {
    if parts == [] then ""
    else if |parts| == 1 then parts[0]
    else parts[0] + [sep] + Join(parts[1..], sep)
  }

  type Params = map<string, string>

  /** The property a plain object does not let an assignment of a string create. */
  const PROTO: string := "__proto__"

  function SetProperty(params: Params, key: string, value: string): Params {
    if key == PROTO then params else params[key := value]
  }

  /** One "key=value" piece; text after a second "=" is dropped, a missing value is "". None is
      the URIError of decodeURIComponent. */
  function ParsePair(raw: string): Option<(string, string)> {
    var pair := Split(raw, '=');
    var key := Decode(pair[0]);
    var value := if |pair| > 1 then Decode(pair[1]) else Some("");
    if key.None? || value.None? then None else Some((key.value, value.value))
  }

  /** The pieces in order, later ones overriding earlier ones. */
  function ParsePairs(raws: seq<string>): Option<Params>
    decreases |raws|
  {
    if raws == [] then Some(map[]) else
    var before := ParsePairs(raws[..|raws| - 1]);
    var pair := ParsePair(raws[|raws| - 1]);
    if before.None? || pair.None? then None else Some(SetProperty(before.value, pair.value.0, pair.value.1))
  }

  /** What decodeQueryParams reads from a url. */
  datatype Parsed = NoQuery | Malformed | Query(params: Params)

  function Parse(url: string): Parsed {
    var parts := Split(url, '?');
    if |parts| < 2 then NoQuery else
    match ParsePairs(Split(Join(parts[1..], '?'), '&'))
    case None => Malformed
    case Some(params) => Query(params)
  }

  function BeforeQuery(url: string): string {
    Split(url, '?')[0]
  }

  function EncodePair(key: string, value: string): string {
    Encode(key) + "=" + Encode(value)
  }

  /** The keys kept by the filter, encoded, in order. */
  function EncodePairs(keys: seq<string>, params: Params): seq<string>
    requires forall k :: k in keys ==> k in params
    decreases |keys|
  {
    if keys == [] then [] else
    var last := keys[|keys| - 1];
    EncodePairs(keys[..|keys| - 1], params) + if last == "" then [] else [EncodePair(last, params[last])]
  }

  /** The url encodeQueryParams assigns, with Object.keys listing `keys`. */
  function EncodedUrl(url: string, keys: seq<string>, params: Params): string
    requires forall k :: k in keys ==> k in params
  {
    var query := Join(EncodePairs(keys, params), '&');
    if query == "" then BeforeQuery(url) else BeforeQuery(url) + "?" + query
  }

  ghost predicate Lists(keys: seq<string>, params: Params) {
    (forall k :: k in keys <==> k in params) && forall i, j :: 0 <= i < j < |keys| ==> keys[i] != keys[j]
  }

  lemma ParseOneMore(before: seq<string>, raw: string)
    ensures ParsePairs(before + [raw]) ==
            match (ParsePairs(before), ParsePair(raw))
            case (Some(params), Some(pair)) => Some(SetProperty(params, pair.0, pair.1))
            case _ => None
  {
    assert (before + [raw])[..|before|] == before;
  }

  /** The loop over the pieces, filling an object property by property. */
  method DecodePairs(rawQueryParams: seq<string>) returns (params: Option<Params>)
    ensures params == ParsePairs(rawQueryParams)
  {
    var filled: Params := map[];
    var rest := rawQueryParams;
    ghost var done: seq<string> := [];
    while rest != []
      invariant done + rest == rawQueryParams
      invariant ParsePairs(done) == Some(filled)
      decreases |rest|
    {
      var pair := DecodePair(rest[0]);
      ParseOneMore(done, rest[0]);
      done, rest := done + [rest[0]], rest[1..];
      if pair.None? {
        assert rawQueryParams[..|done|] == done;
        FailureIsFinal(rawQueryParams, |done|);
        return None;
      }
      filled := SetProperty(filled, pair.value.0, pair.value.1);
    }
    assert done == rawQueryParams;
    params := Some(filled);
  }

  method DecodePair(raw: string) returns (r: Option<(string, string)>)
    ensures r == ParsePair(raw)
  {
    var pair := Split(raw, '=');
    var key := Decode(pair[0]);
    var value := Some("");
    if |pair| > 1 {
      value := Decode(pair[1]);
    }
    r := if key.None? || value.None? then None else Some((key.value, value.value));
  }

  // ----- the object

  class Request {
    var url: string
    var queryParams: Option<Params>

    constructor (url: string, queryParams: Option<Params>)
      ensures this.url == url && this.queryParams == queryParams
    {
      this.url, this.queryParams := url, queryParams;
    }

    /** Leaves the request alone if there is no query or an escape is malformed. */
    method DecodeQueryParams() returns (threw: bool)
      modifies `queryParams
      ensures threw <==> Parse(url).Malformed?
      ensures queryParams == match Parse(url) case Query(params) => Some(params) case _ => old(queryParams)
    {
      var rawQueryArr := Split(url, '?');
      if |rawQueryArr| < 2 {
        return false;
      }
      var params := DecodePairs(Split(Join(rawQueryArr[1..], '?'), '&'));
      if params.None? {
        return true;
      }
      queryParams := params;
      threw := false;
    }

    /** Rebuilds the query from the parameters, in whatever order the keys are listed. */
    method EncodeQueryParams(keys: seq<string>)
      requires queryParams.Some? ==> Lists(keys, queryParams.value)
      modifies `url
      ensures url == if queryParams.None? then old(url) else EncodedUrl(old(url), keys, queryParams.value)
    {
      if queryParams.None? {
        return;
      }
      var query := Join(EncodePairs(keys, queryParams.value), '&');
      var base := Split(url, '?')[0];
      if query != "" {
        base := base + "?" + query;
      }
      url := base;
    }
  }

  lemma {:induction false} FailureIsFinal(raws: seq<string>, i: nat)
    requires i <= |raws| && ParsePairs(raws[..i]).None?
    ensures ParsePairs(raws).None?
    decreases |raws|
  {
    if i == |raws| {
      assert raws[..i] == raws;
    } else {
      var front := raws[..|raws| - 1];
      assert front[..i] == raws[..i];
      FailureIsFinal(front, i);
    }
  }

  // ----- splitting what was joined

  lemma {:induction false} SplitClean(s: string, sep: char)
    requires sep !in s
    ensures Split(s, sep) == [s]
  {
    if s != "" {
      SplitClean(s[1..], sep);
      assert [s[0]] + s[1..] == s;
    }
  }

  lemma {:induction false} SplitFirst(x: string, y: string, sep: char)
    requires sep !in x
    ensures Split(x + [sep] + y, sep) == [x] + Split(y, sep)
  {
    var s := x + [sep] + y;
    if x == "" {
      assert s[1..] == y;
    } else {
      assert s[1..] == x[1..] + [sep] + y;
      SplitFirst(x[1..], y, sep);
      assert [s[0]] + x[1..] == x;
    }
  }

  /** split undoes join when no part holds the separator. */
  lemma {:induction false} SplitJoin(parts: seq<string>, sep: char)
    requires parts != [] && forall p :: p in parts ==> sep !in p
    ensures Split(Join(parts, sep), sep) == parts
  {
    if |parts| == 1 {
      SplitClean(parts[0], sep);
    } else {
      SplitJoin(parts[1..], sep);
      SplitFirst(parts[0], Join(parts[1..], sep), sep);
    }
  }

  lemma JoinFirst(part: string, rest: seq<string>, sep: char, c: char)
    requires rest != []
    ensures Join([part] + rest, sep) == part + [sep] + Join(rest, sep)
    ensures Join([[c] + rest[0]] + rest[1..], sep) == [c] + Join(rest, sep)
  {
    assert ([part] + rest)[1..] == rest;
    assert ([[c] + rest[0]] + rest[1..])[1..] == rest[1..];
  }

  /** And join undoes split; no part holds the separator. So split cuts at every separator, and
      nowhere else. */
  lemma {:induction false} JoinSplit(s: string, sep: char)
    ensures Join(Split(s, sep), sep) == s
    ensures forall p :: p in Split(s, sep) ==> sep !in p
  {
    if s != "" {
      JoinSplit(s[1..], sep);
      JoinFirst("", Split(s[1..], sep), sep, s[0]);
      assert [s[0]] + s[1..] == s;
    }
  }

  lemma {:induction false} BeforeQueryClean(url: string)
    ensures '?' !in BeforeQuery(url)
  {
    if url != "" {
      BeforeQueryClean(url[1..]);
    }
  }

  lemma {:induction false} JoinClean(parts: seq<string>, sep: char, c: char)
    requires c != sep && forall p :: p in parts ==> c !in p
    ensures c !in Join(parts, sep)
  {
    if |parts| > 1 {
      JoinClean(parts[1..], sep, c);
    }
  }

  // ----- what any url means

  /** A piece without "=" has the value ""; whatever follows a second "=" is dropped. */
  lemma PairExactly(key: string, value: string, more: string)
    requires '=' !in key && '=' !in value
    ensures ParsePair(key) == if Decode(key).Some? then Some((Decode(key).value, "")) else None
    ensures var pair := if Decode(key).Some? && Decode(value).Some? then Some((Decode(key).value, Decode(value).value)) else None;
            ParsePair(key + "=" + value) == pair && ParsePair(key + "=" + value + "=" + more) == pair
  {
    SplitClean(key, '=');
    SplitClean(value, '=');
    SplitFirst(key, value, '=');
    SplitFirst(value, more, '=');
    SplitFirst(key, value + "=" + more, '=');
    assert key + "=" + (value + "=" + more) == key + "=" + value + "=" + more;
  }

  /** A url without "?" has no query; otherwise the query is everything behind the first "?". */
  lemma QueryExactly(base: string, query: string)
    requires '?' !in base
    ensures Parse(base) == NoQuery
    ensures Parse(base + "?" + query)
            == match ParsePairs(Split(query, '&')) case None => Malformed case Some(params) => Query(params)
  {
    SplitClean(base, '?');
    SplitFirst(base, query, '?');
    assert Split(base + "?" + query, '?')[1..] == Split(query, '?');
    JoinSplit(query, '?');
  }

  ghost predicate Names(pairs: seq<(string, string)>, key: string) {
    exists i :: 0 <= i < |pairs| && pairs[i].0 == key
  }

  /** Pair i is the last one with its key. */
  ghost predicate IsLast(pairs: seq<(string, string)>, i: nat)
    requires i < |pairs|
  {
    forall j :: i < j < |pairs| ==> pairs[j].0 != pairs[i].0
  }

  /** The object has the keys the pairs name, except "__proto__", each with its last value. */
  ghost predicate HoldsLast(params: Params, pairs: seq<(string, string)>) {
    && (forall key :: key in params <==> key != "__proto__" && Names(pairs, key))
    && (forall i :: 0 <= i < |pairs| && IsLast(pairs, i) && pairs[i].0 in params ==> params[pairs[i].0] == pairs[i].1)
  }

  lemma NamesOneMore(pairs: seq<(string, string)>, pair: (string, string), key: string)
    ensures Names(pairs + [pair], key) <==> key == pair.0 || Names(pairs, key)
  {
    var more := pairs + [pair];
    assert more[|pairs|] == pair;
    if Names(pairs, key) {
      var i :| 0 <= i < |pairs| && pairs[i].0 == key;
      assert more[i].0 == key;
    }
  }

  lemma LastOneMore(pairs: seq<(string, string)>, pair: (string, string), i: nat)
    requires i < |pairs| && IsLast(pairs + [pair], i)
    ensures IsLast(pairs, i) && pairs[i].0 != pair.0
  {
    var more := pairs + [pair];
    assert more[|pairs|] == pair && more[i] == pairs[i];
    forall j | i < j < |pairs| ensures pairs[j].0 != pairs[i].0 { assert more[j] == pairs[j]; }
  }

  lemma HoldsOneMore(params: Params, pairs: seq<(string, string)>, pair: (string, string))
    requires HoldsLast(params, pairs)
    ensures HoldsLast(SetProperty(params, pair.0, pair.1), pairs + [pair])
  {
    var more, after := pairs + [pair], SetProperty(params, pair.0, pair.1);
    forall key ensures key in after <==> key != "__proto__" && Names(more, key) {
      NamesOneMore(pairs, pair, key);
    }
    forall i | 0 <= i < |more| && IsLast(more, i) && more[i].0 in after ensures after[more[i].0] == more[i].1 {
      if i < |pairs| { LastOneMore(pairs, pair, i); }
    }
  }

  /** Pieces fail together exactly if one of them does. */
  lemma {:induction false} FailTogether(raws: seq<string>)
    ensures ParsePairs(raws).None? <==> exists i :: 0 <= i < |raws| && ParsePair(raws[i]).None?
    decreases |raws|
  {
    if raws != [] {
      var front := raws[..|raws| - 1];
      FailTogether(front);
      if i :| 0 <= i < |front| && ParsePair(front[i]).None? { assert raws[i] == front[i]; }
      assert forall i :: 0 <= i < |front| ==> raws[i] == front[i];
    }
  }

  /** Otherwise every key they name is set, to what its last piece says. */
  lemma {:induction false} LastPieceWins(raws: seq<string>, pairs: seq<(string, string)>)
    requires |pairs| == |raws| && forall i :: 0 <= i < |raws| ==> ParsePair(raws[i]) == Some(pairs[i])
    ensures ParsePairs(raws).Some? && HoldsLast(ParsePairs(raws).value, pairs)
    decreases |raws|
  {
    if raws == [] {
      assert pairs == [];
    } else {
      var n := |raws| - 1;
      LastPieceWins(raws[..n], pairs[..n]);
      HoldsOneMore(ParsePairs(raws[..n]).value, pairs[..n], pairs[n]);
      assert pairs[..n] + [pairs[n]] == pairs;
    }
  }

  // ----- the round trip

  lemma PairRoundTrip(key: string, value: string)
    ensures ParsePair(EncodePair(key, value)) == Some((key, value))
    ensures '?' !in EncodePair(key, value) && '&' !in EncodePair(key, value)
  {
    EncodedIsClean(key);
    EncodedIsClean(value);
    SplitFirst(Encode(key), Encode(value), '=');
    SplitClean(Encode(value), '=');
    RoundTrip(key);
    RoundTrip(value);
  }

  /** The entries a round trip keeps. */
  function Kept(params: Params): Params {
    map k | k in params && k != "" && k != PROTO :: params[k]
  }

  function Restrict(params: Params, keys: seq<string>): Params
    requires forall k :: k in keys ==> k in params
  {
    map k | k in keys && k != "" && k != PROTO :: params[k]
  }

  lemma RestrictOneMore(params: Params, front: seq<string>, last: string)
    requires (forall k :: k in front ==> k in params) && last in params
    ensures Restrict(params, front + [last])
            == if last == "" then Restrict(params, front) else SetProperty(Restrict(params, front), last, params[last])
  {
  }

  lemma {:induction false} PairsRoundTrip(keys: seq<string>, params: Params)
    requires forall k :: k in keys ==> k in params
    ensures ParsePairs(EncodePairs(keys, params)) == Some(Restrict(params, keys))
    decreases |keys|
  {
    if keys == [] {
      assert Restrict(params, keys) == map[];
    } else {
      var front, last := keys[..|keys| - 1], keys[|keys| - 1];
      PairsRoundTrip(front, params);
      RestrictOneMore(params, front, last);
      assert front + [last] == keys;
      PairRoundTrip(last, params[last]);
      ParseOneMore(EncodePairs(front, params), EncodePair(last, params[last]));
      assert EncodePairs(front, params) + [] == EncodePairs(front, params);
    }
  }

  lemma {:induction false} PairsAreClean(keys: seq<string>, params: Params)
    requires forall k :: k in keys ==> k in params
    ensures forall p :: p in EncodePairs(keys, params) ==> '?' !in p && '&' !in p && p != ""
    decreases |keys|
  {
    if keys != [] {
      PairsAreClean(keys[..|keys| - 1], params);
      PairRoundTrip(keys[|keys| - 1], params[keys[|keys| - 1]]);
    }
  }

  /** The pieces follow the listing of the keys: the encoded key, "=" and the encoded value. */
  lemma {:induction false} PairsInOrder(keys: seq<string>, params: Params)
    requires (forall k :: k in keys ==> k in params) && "" !in keys
    ensures |EncodePairs(keys, params)| == |keys|
    ensures forall i :: 0 <= i < |keys| ==> EncodePairs(keys, params)[i] == Encode(keys[i]) + "=" + Encode(params[keys[i]])
    decreases |keys|
  {
    if keys != [] {
      PairsInOrder(keys[..|keys| - 1], params);
    }
  }

  /** No key has any text. */
  ghost predicate AllBlank(keys: seq<string>) {
    forall k :: k in keys ==> k == ""
  }

  lemma BlankOneMore(keys: seq<string>)
    requires keys != []
    ensures AllBlank(keys) <==> AllBlank(keys[..|keys| - 1]) && keys[|keys| - 1] == ""
  {
    var front, last := keys[..|keys| - 1], keys[|keys| - 1];
    assert keys == front + [last];
    assert last in keys;
    if AllBlank(keys) {
      forall k | k in front ensures k == "" { assert k in keys; }
    }
  }

  lemma PairsOneMore(keys: seq<string>, params: Params)
    requires keys != [] && forall k :: k in keys ==> k in params
    ensures EncodePairs(keys, params) == [] <==> EncodePairs(keys[..|keys| - 1], params) == [] && keys[|keys| - 1] == ""
  {
  }

  lemma {:induction false} NoPairsIffBlank(keys: seq<string>, params: Params)
    requires forall k :: k in keys ==> k in params
    ensures EncodePairs(keys, params) == [] <==> AllBlank(keys)
    decreases |keys|
  {
    if keys != [] {
      NoPairsIffBlank(keys[..|keys| - 1], params);
      PairsOneMore(keys, params);
      BlankOneMore(keys);
    }
  }

  lemma JoinNotEmpty(parts: seq<string>, sep: char)
    requires parts != [] && parts[0] != ""
    ensures Join(parts, sep) != ""
  {
  }

  /** Parsing what was encoded, exactly: for every url, every map and every key order, the part
      before "?" is kept; if some key is not "", the entries come back, except "" and
      "__proto__"; otherwise the url has no query. */
  lemma EncodeThenParse(url: string, keys: seq<string>, params: Params)
    requires Lists(keys, params)
    ensures BeforeQuery(EncodedUrl(url, keys, params)) == BeforeQuery(url)
    ensures Parse(EncodedUrl(url, keys, params))
            == if forall k :: k in params ==> k == "" then NoQuery else Query(Kept(params))
  {
    var pairs := EncodePairs(keys, params);
    var base, query := BeforeQuery(url), Join(pairs, '&');
    PairsRoundTrip(keys, params);
    PairsAreClean(keys, params);
    NoPairsIffBlank(keys, params);
    BeforeQueryClean(url);
    if pairs == [] {
      SplitClean(base, '?');
    } else {
      assert pairs[0] in pairs;
      JoinNotEmpty(pairs, '&');
      JoinClean(pairs, '&', '?');
      SplitFirst(base, query, '?');
      SplitClean(query, '?');
      SplitJoin(pairs, '&');
      assert Split(base + "?" + query, '?')[1..] == [query];
      assert Restrict(params, keys) == Kept(params);
    }
  }

  /** The round trip gives the same map back exactly when the map is not empty and has neither
      the key "" nor "__proto__". */
  lemma RoundTripExactly(url: string, keys: seq<string>, params: Params)
    requires Lists(keys, params)
    ensures Parse(EncodedUrl(url, keys, params)) == Query(params)
            <==> params != map[] && "" !in params && PROTO !in params
  {
    EncodeThenParse(url, keys, params);
    if "" !in params && PROTO !in params {
      assert Kept(params) == params;
      if params != map[] {
        var k :| k in params;
        assert k != "";
      }
    }
    assert "" !in Kept(params) && PROTO !in Kept(params);
  }

  /** The same on the object: encoding and decoding a request. */
  method RoundTripRequest(req: Request, keys: seq<string>) returns (threw: bool)
    requires req.queryParams.Some? && Lists(keys, req.queryParams.value)
    modifies req
    ensures !threw
    ensures BeforeQuery(req.url) == BeforeQuery(old(req.url))
    ensures var params := old(req.queryParams.value);
            req.queryParams == Some(params) <==> (forall k :: k in params ==> k == "") || ("" !in params && PROTO !in params)
  {
    ghost var url, params := req.url, req.queryParams.value;
    req.EncodeQueryParams(keys);
    EncodeThenParse(url, keys, params);
    RoundTripExactly(url, keys, params);
    threw := req.DecodeQueryParams();
  }
}
