/**
 * `queryString(parameters, prefix = "?")`: a flat object becomes `prefix`
 * followed by `key=value` pairs in key order, joined by `&`, each side of a
 * pair passed through `encodeURIComponent`. The encoder is a parameter; the one
 * thing assumed of it is that it escapes `&` and `=`.
 */
module Query {
  import opened States

  /** `encodeURIComponent` applied to a key, or to the text of a value. */
  type Encoder = string -> string

  /** The encoder never emits the two characters the query syntax uses. */
  ghost predicate Escapes(enc: Encoder) {
    forall s :: '&' !in enc(s) && '=' !in enc(s)
  }

  const DefaultPrefix: string := "?"

  /** One `key=value` pair of the query. */
  function Pair(enc: Encoder, key: string, value: string): (p: string)
    ensures |p| == |enc(key)| + 1 + |enc(value)|
    ensures p[..|enc(key)|] == enc(key) && p[|enc(key)|] == '=' && p[|enc(key)| + 1..] == enc(value)
  {
    enc(key) + "=" + enc(value)
  }

  /** The pairs, one per parameter, in key order. */
  function Pairs(enc: Encoder, params: seq<(string, string)>): (ps: seq<string>)
    ensures |ps| == |params|
    ensures forall i :: 0 <= i < |params| ==> ps[i] == Pair(enc, params[i].0, params[i].1)
  {
    if params == [] then [] else [Pair(enc, params[0].0, params[0].1)] + Pairs(enc, params[1..])
  }

  /** `parts.join(sep)`. */
  function Join(sep: char, parts: seq<string>): (s: string)
    ensures parts == [] ==> s == []
    ensures parts != [] ==> parts[0] <= s
  {
    if parts == [] then ""
    else if |parts| == 1 then parts[0]
    else parts[0] + [sep] + Join(sep, parts[1..])
  }

  /**
   * `queryString(parameters, prefix)`: absent parameters give the empty string;
   * otherwise the prefix (by default `?`) followed by the joined pairs. The
   * parameters are the object's entries in key order, values already turned
   * into text.
   */
  function QueryString(enc: Encoder, params: Option<seq<(string, string)>>, prefix: Option<string>): (q: string)
    ensures params.None? ==> q == ""
    ensures params.Some? ==> prefix.GetOr(DefaultPrefix) <= q
    ensures params == Some([]) ==> q == prefix.GetOr(DefaultPrefix)
  {
    if params.None? then ""
    else prefix.GetOr(DefaultPrefix) + Join('&', Pairs(enc, params.value))
  }

  // ---------------------------------------------------------------------------
  // Reading a query back

  /** `s.split(sep)`: the pieces between separators, always at least one. */
  function Split(s: string, sep: char): (parts: seq<string>)
    ensures |parts| >= 1
  {
    if s == [] then [""]
    else
      var rest := Split(s[1..], sep);
      if s[0] == sep then [""] + rest
      else [[s[0]] + rest[0]] + rest[1..]
  }

  /** How many times `c` occurs in `s`. */
  function Occurrences(s: string, c: char): nat {
    if s == [] then 0 else (if s[0] == c then 1 else 0) + Occurrences(s[1..], c)
  }

  /** Splitting yields one more piece than there are separators. */
  lemma {:induction false} SplitPieces(s: string, sep: char)
    ensures |Split(s, sep)| == Occurrences(s, sep) + 1
  {
    if s != [] {
      SplitPieces(s[1..], sep);
    }
  }

  /** A string without the separator splits into itself alone. */
  lemma {:induction false} SplitNoSeparator(s: string, sep: char)
    requires sep !in s
    ensures Split(s, sep) == [s]
  {
    if s != [] {
      SplitNoSeparator(s[1..], sep);
      assert [s[0]] + s[1..] == s;
    }
  }

  /** Splitting at the first separator. */
  lemma {:induction false} SplitFirst(a: string, b: string, sep: char)
    requires sep !in a
    ensures Split(a + [sep] + b, sep) == [a] + Split(b, sep)
  {
    if a == [] {
      assert a + [sep] + b == [sep] + b;
      assert ([sep] + b)[1..] == b;
    } else {
      var s := a + [sep] + b;
      assert s[0] == a[0] && s[1..] == a[1..] + [sep] + b;
      SplitFirst(a[1..], b, sep);
      assert [a[0]] + a[1..] == a;
    }
  }

  /** Splitting a join recovers the parts, when no part holds the separator. */
  lemma {:induction false} SplitJoin(parts: seq<string>, sep: char)
    requires |parts| >= 1
    requires forall i :: 0 <= i < |parts| ==> sep !in parts[i]
    ensures Split(Join(sep, parts), sep) == parts
  {
    if |parts| == 1 {
      SplitNoSeparator(parts[0], sep);
    } else {
      SplitJoin(parts[1..], sep);
      SplitFirst(parts[0], Join(sep, parts[1..]), sep);
    }
  }

  /** A pair splits at `=` into its encoded key and encoded value. */
  lemma PairSplits(enc: Encoder, key: string, value: string)
    requires Escapes(enc)
    ensures Split(Pair(enc, key, value), '=') == [enc(key), enc(value)]
    ensures '&' !in Pair(enc, key, value)
  {
    assert Pair(enc, key, value) == enc(key) + ['='] + enc(value);
    SplitFirst(enc(key), enc(value), '=');
    SplitNoSeparator(enc(value), '=');
  }

  /**
   * With an encoder that escapes `&` and `=`, the body of a query over n >= 1
   * parameters holds exactly n - 1 `&` separators; splitting it on `&` gives the
   * pairs in key order, and splitting each pair on `=` gives the encoded key and
   * the encoded value.
   */
  lemma QueryParses(enc: Encoder, params: seq<(string, string)>, prefix: Option<string>)
    requires Escapes(enc) && |params| >= 1
    ensures var q := QueryString(enc, Some(params), prefix);
      var body := q[|prefix.GetOr(DefaultPrefix)|..];
      && q == prefix.GetOr(DefaultPrefix) + body
      && Occurrences(body, '&') == |params| - 1
      && Split(body, '&') == Pairs(enc, params)
      && forall i :: 0 <= i < |params| ==> Split(Split(body, '&')[i], '=') == [enc(params[i].0), enc(params[i].1)]
  {
    var p := prefix.GetOr(DefaultPrefix);
    var ps := Pairs(enc, params);
    var body := Join('&', ps);
    assert QueryString(enc, Some(params), prefix)[|p|..] == body;
    forall i | 0 <= i < |ps| ensures '&' !in ps[i] && Split(ps[i], '=') == [enc(params[i].0), enc(params[i].1)] {
      PairSplits(enc, params[i].0, params[i].1);
    }
    SplitJoin(ps, '&');
    SplitPieces(body, '&');
  }

  /**
   * The source's example: `{first: "thing", numerical: 20, complex: "thing with
   * spaces"}` with the default prefix, given what `encodeURIComponent` returns
   * on those six texts, is
   * `?first=thing&numerical=20&complex=thing%20with%20spaces`, written below in
   * its pieces.
   */
  lemma QueryExample(enc: Encoder)
    requires enc("first") == "first" && enc("thing") == "thing"
    requires enc("numerical") == "numerical" && enc("20") == "20"
    requires enc("complex") == "complex" && enc("thing with spaces") == "thing%20with%20spaces"
    ensures QueryString(enc, Some([("first", "thing"), ("numerical", "20"), ("complex", "thing with spaces")]), None)
         == "?" + ("first" + "=" + "thing") + "&" + ("numerical" + "=" + "20") + "&" + ("complex" + "=" + "thing%20with%20spaces")
  {
    var params := [("first", "thing"), ("numerical", "20"), ("complex", "thing with spaces")];
    var ps := Pairs(enc, params);
    var p1, p2, p3 := "first" + "=" + "thing", "numerical" + "=" + "20", "complex" + "=" + "thing%20with%20spaces";
    assert ps[0] == p1 && ps[1] == p2 && ps[2] == p3;
    assert ps == [p1, p2, p3];
    JoinThree('&', p1, p2, p3);
    assert QueryString(enc, Some(params), None) == "?" + Join('&', ps);
  }

  /** Joining three parts puts the separator between each two. */
  lemma JoinThree(sep: char, p1: string, p2: string, p3: string)
    ensures Join(sep, [p1, p2, p3]) == p1 + [sep] + p2 + [sep] + p3
  {
    assert [p1, p2, p3][1..] == [p2, p3];
    assert [p2, p3][1..] == [p3];
    assert Join(sep, [p2, p3]) == p2 + [sep] + p3;
  }
}
