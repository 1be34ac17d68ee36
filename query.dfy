/** `new URLSearchParams(search).get(name)`: the query string of a URL, split
    into name/value pairs the way the URL Standard's urlencoded parser does,
    before percent-decoding. */
module Query {
  import opened Wrappers
  import opened Text

  /** One `name=value` piece: split at the first `=`; a piece without `=` has
      the empty value. */
  function SplitPair(piece: string): (string, string)
  {
    if '=' in piece then
      var i := IndexOf(piece, '=');
      (piece[..i], piece[i + 1..])
    else (piece, "")
  }

  /** The pairs of the non-empty pieces, in order. */
  function PairsOf(pieces: seq<string>): seq<(string, string)>
  {
    if pieces == [] then []
    else (if pieces[0] == "" then [] else [SplitPair(pieces[0])]) + PairsOf(pieces[1..])
  }

  /** The pairs of a query string; one leading `?` is dropped. */
  function Pairs(search: string): seq<(string, string)>
  {
    var body := if |search| > 0 && search[0] == '?' then search[1..] else search;
    PairsOf(Split(body, '&'))
  }

  /** The value of the first pair named `name`. */
  function Lookup(pairs: seq<(string, string)>, name: string): (r: Option<string>)
    ensures r.None? <==> forall i :: 0 <= i < |pairs| ==> pairs[i].0 != name
    ensures r.Some? ==> exists i :: 0 <= i < |pairs| && pairs[i] == (name, r.value) &&
                                    forall j :: 0 <= j < i ==> pairs[j].0 != name
  {
    if pairs == [] then None
    else if pairs[0].0 == name then Some(pairs[0].1)
    else
      var r := Lookup(pairs[1..], name);
      assert forall i :: 1 <= i < |pairs| ==> pairs[1..][i - 1] == pairs[i];
      r
  }

  /** `params.get(name)`: the first value given for `name`, or null. */
  function Get(search: string, name: string): Option<string>
  {
    Lookup(Pairs(search), name)
  }

  /** A query string written from pairs: `?n1=v1&n2=v2…`. */
  function Serialize(pairs: seq<(string, string)>): string
  {
    "?" + Join(Pieces(pairs), '&')
  }

  function Pieces(pairs: seq<(string, string)>): (ps: seq<string>)
    ensures |ps| == |pairs|
    ensures forall i :: 0 <= i < |pairs| ==> ps[i] == pairs[i].0 + "=" + pairs[i].1
  {
    if pairs == [] then [] else [pairs[0].0 + "=" + pairs[0].1] + Pieces(pairs[1..])
  }

  /** A pair that survives the round trip: no `&` anywhere, no `=` in the name. */
  predicate PlainPair(p: (string, string)) {
    '&' !in p.0 && '=' !in p.0 && '&' !in p.1
  }

  lemma SplitPairOfPiece(name: string, value: string)
    requires '=' !in name
    ensures SplitPair(name + "=" + value) == (name, value)
  {
    var piece := name + "=" + value;
    assert piece[..|name|] == name;
    assert piece[|name|] == '=';
    var i := IndexOf(piece, '=');
    assert i <= |name| ==> piece[..|name|][i..] == name[i..];
    assert i == |name|;
    assert piece[..i] == name;
    assert piece[i + 1..] == value;
  }

  lemma {:induction false} PairsOfPieces(pairs: seq<(string, string)>)
    requires forall i :: 0 <= i < |pairs| ==> PlainPair(pairs[i])
    ensures PairsOf(Pieces(pairs)) == pairs
  {
    if pairs != [] {
      var ps := Pieces(pairs);
      assert ps[1..] == Pieces(pairs[1..]);
      SplitPairOfPiece(pairs[0].0, pairs[0].1);
      assert ps[0] != "";
      PairsOfPieces(pairs[1..]);
      assert [pairs[0]] + pairs[1..] == pairs;
    }
  }

  /** Reading a serialized query string back gives the pairs it was written
      from, so `get` finds the first value given for each name. */
  lemma {:induction false} GetSerialized(pairs: seq<(string, string)>, name: string)
    requires forall i :: 0 <= i < |pairs| ==> PlainPair(pairs[i])
    ensures Pairs(Serialize(pairs)) == pairs
    ensures Get(Serialize(pairs), name) == Lookup(pairs, name)
  {
    var ps := Pieces(pairs);
    var s := Serialize(pairs);
    assert s[1..] == Join(ps, '&');
    if pairs == [] {
      assert Join(ps, '&') == "";
      assert Split("", '&') == [""];
      assert PairsOf([""]) == PairsOf([]);
    } else {
      forall i | 0 <= i < |ps| ensures '&' !in ps[i] {
        assert ps[i] == pairs[i].0 + "=" + pairs[i].1;
        assert PlainPair(pairs[i]);
      }
      SplitJoin(ps, '&');
      PairsOfPieces(pairs);
    }
  }

  /** `location.search` of a URL whose `?`, if any, comes before any `#`: from
      the first `?` up to the first `#` after it, or "" when there is no `?`. */
  function SearchOf(url: string): string
  {
    if '?' !in url then ""
    else
      var rest := url[IndexOf(url, '?')..];
      if '#' in rest then rest[..IndexOf(rest, '#')] else rest
  }

  /** The search part of `prefix + search`, for a prefix with no `?` or `#`
      and a search with no `#`, is `search`. */
  lemma SearchAfterPlainPrefix(prefix: string, search: string)
    requires '?' !in prefix && '#' !in prefix
    requires |search| > 0 && search[0] == '?' && '#' !in search
    ensures SearchOf(prefix + search) == search
  {
    var url := prefix + search;
    assert url[|prefix|] == '?';
    var i := IndexOf(url, '?');
    assert url[..|prefix|] == prefix;
    assert i <= |prefix| ==> url[..|prefix|][i..] == prefix[i..];
    assert i == |prefix|;
    assert url[i..] == search;
  }
}
