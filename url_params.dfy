/** `URLSearchParams` as the client uses it: an ordered list of name/value pairs with
    `set` and `get`, `toString` through the form encoder, and the constructor that parses a
    query string. The encoder itself is library code and is a parameter here; the round
    trip holds for any encoder its decoder undoes and that never emits `&` or `=`. */
module UrlParams {
  import opened Text
  import opened Browser

  type Params = seq<(string, string)>

  predicate HasKey(ps: Params, k: string)
  {
    exists i :: 0 <= i < |ps| && ps[i].0 == k
  }

  /** `params.get(k)`: the value of the first pair named `k`. */
  function Get(ps: Params, k: string): (r: Option<string>)
    ensures r.None? <==> !HasKey(ps, k)
    ensures r.Some? ==> exists i :: 0 <= i < |ps| && ps[i] == (k, r.value) && !HasKey(ps[..i], k)
  {
    if ps == [] then None
    else if ps[0].0 == k then (assert ps[..0] == []; Some(ps[0].1))
    else
      var r := Get(ps[1..], k);
      assert HasKey(ps, k) ==> HasKey(ps[1..], k) by {
        if HasKey(ps, k) {
          var i :| 0 <= i < |ps| && ps[i].0 == k;
          assert ps[1..][i - 1].0 == k;
        }
      }
      if r.Some? then
        var i :| 0 <= i < |ps[1..]| && ps[1..][i] == (k, r.value) && !HasKey(ps[1..][..i], k);
        var pre := ps[..i + 1];
        assert pre == [ps[0]] + ps[1..][..i];
        assert !HasKey(pre, k) by {
          forall j | 0 <= j < |pre| ensures pre[j].0 != k {
            if j > 0 { assert pre[j] == ps[1..][..i][j - 1]; }
          }
        }
        r
      else r
  }

  /** `params.get(k) || ''`. */
  function GetOr(ps: Params, k: string): (r: string)
    ensures Get(ps, k).Some? ==> r == Get(ps, k).value
    ensures Get(ps, k).None? ==> r == ""
  {
    match Get(ps, k)
    case None => ""
    case Some(v) => v
  }

  /** The pairs not named `k`, in order. */
  function Without(ps: Params, k: string): (r: Params)
    ensures !HasKey(r, k)
    ensures forall k' :: k' != k ==> Get(r, k') == Get(ps, k')
  {
    if ps == [] then []
    else if ps[0].0 == k then Without(ps[1..], k)
    else [ps[0]] + Without(ps[1..], k)
  }

  /** `params.set(k, v)` at a key that is present: the first pair takes the new value and
      the later pairs with the same name are dropped. */
  function Replace(ps: Params, k: string, v: string): (r: Params)
    requires HasKey(ps, k)
    ensures Get(r, k) == Some(v)
    ensures forall k' :: k' != k ==> Get(r, k') == Get(ps, k')
  {
    if ps[0].0 == k then [(k, v)] + Without(ps[1..], k)
    else
      assert HasKey(ps[1..], k) by {
        var i :| 0 <= i < |ps| && ps[i].0 == k;
        assert ps[1..][i - 1].0 == k;
      }
      [ps[0]] + Replace(ps[1..], k, v)
  }

  /** `params.set(k, v)`: replaces as above, or appends the pair when `k` is absent. */
  function Set(ps: Params, k: string, v: string): (r: Params)
    ensures Get(r, k) == Some(v)
    ensures forall k' :: k' != k ==> Get(r, k') == Get(ps, k')
    ensures !HasKey(ps, k) ==> r == ps + [(k, v)]
  {
    if HasKey(ps, k) then Replace(ps, k, v)
    else
      var r := ps + [(k, v)];
      GetAppend(ps, k, v);
      r
  }

  /** Looking up a key in a list with one pair appended. */
  lemma {:induction false} GetAppend(ps: Params, k: string, v: string)
    ensures forall k' :: Get(ps + [(k, v)], k') == if HasKey(ps, k') then Get(ps, k') else if k' == k then Some(v) else None
  {
    if ps == [] {
      assert ps + [(k, v)] == [(k, v)];
    } else {
      GetAppend(ps[1..], k, v);
      assert (ps + [(k, v)])[1..] == ps[1..] + [(k, v)];
      forall k' ensures HasKey(ps, k') <==> ps[0].0 == k' || HasKey(ps[1..], k') {
        if HasKey(ps, k') && ps[0].0 != k' {
          var i :| 0 <= i < |ps| && ps[i].0 == k';
          assert ps[1..][i - 1].0 == k';
        }
        if HasKey(ps[1..], k') {
          var i :| 0 <= i < |ps[1..]| && ps[1..][i].0 == k';
          assert ps[i + 1].0 == k';
        }
      }
    }
  }

  /** One serialised pair: `name=value` through the encoder. */
  function Pair(p: (string, string), encode: string -> string): string
  {
    encode(p.0) + "=" + encode(p.1)
  }

  function Pairs(ps: Params, encode: string -> string): (r: seq<string>)
    ensures |r| == |ps| && forall i :: 0 <= i < |ps| ==> r[i] == Pair(ps[i], encode)
  {
    if ps == [] then [] else [Pair(ps[0], encode)] + Pairs(ps[1..], encode)
  }

  /** `params.toString()`: the serialised pairs joined by `&`. */
  function Serialize(ps: Params, encode: string -> string): (r: string)
    ensures r == "" <==> ps == []
  {
    var xs := Pairs(ps, encode);
    if ps == [] then "" else JoinNonEmpty(xs, "&"); Join(xs, "&")
  }

  /** A join of a non-empty list whose first piece is non-empty is non-empty. */
  lemma JoinNonEmpty(xs: seq<string>, sep: string)
    requires |xs| > 0 && xs[0] != ""
    ensures Join(xs, sep) != ""
  {
    if |xs| > 1 {
      assert |Join(xs, sep)| >= |xs[0]|;
    }
  }

  /** One piece of a query string: the name before the first `=`, the value after it
      (the empty value when there is no `=`), both decoded. */
  function ParsePair(piece: string, decode: string -> string): (string, string)
  {
    match IndexOf(piece, "=")
    case None => (decode(piece), "")
    case Some(i) => (decode(piece[..i]), decode(piece[i + 1..]))
  }

  /** The pairs of the `&`-separated pieces, empty pieces skipped. */
  function ParsePieces(pieces: seq<string>, decode: string -> string): (r: Params)
    ensures |r| <= |pieces|
  {
    if pieces == [] then []
    else (if pieces[0] == "" then [] else [ParsePair(pieces[0], decode)]) + ParsePieces(pieces[1..], decode)
  }

  /** `new URLSearchParams(query)`: one leading `?` is ignored. */
  function Parse(query: string, decode: string -> string): (r: Params)
    ensures query == "" || query == "?" ==> r == []
  {
    var body := if StartsWith(query, "?") then query[1..] else query;
    ParsePieces(Split(body, "&"), decode)
  }

  /** Parsing one serialised pair gives the pair back. */
  lemma ParsePairOfPair(p: (string, string), encode: string -> string, decode: string -> string)
    requires QueryCodec(encode, decode)
    ensures ParsePair(Pair(p, encode), decode) == p
  {
    var a, b := encode(p.0), encode(p.1);
    assert '=' !in a;
    IndexOfFirst(a, '=', b);
    assert Pair(p, encode) == a + ['='] + b;
    assert (a + ['='] + b)[..|a|] == a;
    assert (a + ['='] + b)[|a| + 1..] == b;
  }

  lemma {:induction false} ParsePiecesOfPairs(ps: Params, encode: string -> string, decode: string -> string)
    requires QueryCodec(encode, decode)
    ensures ParsePieces(Pairs(ps, encode), decode) == ps
    decreases |ps|
  {
    if ps != [] {
      var xs := Pairs(ps, encode);
      assert xs[0] == Pair(ps[0], encode);
      assert xs[1..] == Pairs(ps[1..], encode);
      ParsePairOfPair(ps[0], encode, decode);
      ParsePiecesOfPairs(ps[1..], encode, decode);
    }
  }

  /** Round trip: the query `?` + `params.toString()` parses back to the same pairs. */
  lemma ParseSerialize(ps: Params, encode: string -> string, decode: string -> string)
    requires QueryCodec(encode, decode)
    ensures Parse("?" + Serialize(ps, encode), decode) == ps
  {
    var s := Serialize(ps, encode);
    assert ("?" + s)[1..] == s;
    if ps != [] {
      var xs := Pairs(ps, encode);
      forall k | 0 <= k < |xs| ensures '&' !in xs[k] {
        assert '&' !in encode(ps[k].0) && '&' !in encode(ps[k].1);
        assert xs[k] == encode(ps[k].0) + "=" + encode(ps[k].1);
      }
      SplitJoin(xs, '&');
      ParsePiecesOfPairs(ps, encode, decode);
    } else {
      assert s == "";
    }
  }
}
