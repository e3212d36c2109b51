/** internal/platform/hopcodec/hopcodec.go: the stored form of a classification's provider hops. */
module HopCodec {
  import opened Prelude
  import opened Strings

  datatype Hop = Hop(provider: string, result: string)

  const PAIR_SEP := ','
  const FIELD_SEP := ':'

  predicate Plain(s: string) {
    s != "" && PAIR_SEP !in s && FIELD_SEP !in s
  }

  predicate Writable(h: Hop) {
    Plain(h.provider) && Plain(h.result)
  }

  function Pair(h: Hop): string {
    h.provider + [FIELD_SEP] + h.result
  }

  function Pairs(hops: seq<Hop>): (ps: seq<string>)
    ensures |ps| == |hops|
  {
    if hops == [] then [] else Pairs(hops[..|hops| - 1]) + [Pair(hops[|hops| - 1])]
  }

  function Encoded(hops: seq<Hop>): Result<string> {
    if forall h <- hops :: Writable(h) then Ok(Join(Pairs(hops), PAIR_SEP)) else Err
  }

  /** One stored pair, cut at its first separator. */
  function ParsePair(p: string): Result<Hop> {
    var i := IndexOf(p, FIELD_SEP);
    if i == |p| || i == 0 || i == |p| - 1 then Err else Ok(Hop(p[..i], p[i + 1..]))
  }

  function ParsePairs(ps: seq<string>): Result<seq<Hop>> {
    if ps == [] then Ok([])
    else
      var init, last := ParsePairs(ps[..|ps| - 1]), ParsePair(ps[|ps| - 1]);
      if init.Err? || last.Err? then Err else Ok(init.value + [last.value])
  }

  function Decoded(s: string): Result<seq<Hop>> {
    if s == "" then Ok([]) else ParsePairs(Split(s, PAIR_SEP))
  }

  method Encode(hops: seq<Hop>) returns (r: Result<string>)
    ensures r == Encoded(hops)
  {
    if hops == [] {
      return Ok("");
    }
    var parts := [];
    for i := 0 to |hops|
      invariant forall h <- hops[..i] :: Writable(h)
      invariant parts == Pairs(hops[..i])
    {
      var provider, result := hops[i].provider, hops[i].result;
      assert hops[i] in hops && hops[..i + 1][..i] == hops[..i];
      if provider == "" || result == "" {
        return Err;
      }
      if PAIR_SEP in provider || FIELD_SEP in provider || PAIR_SEP in result || FIELD_SEP in result {
        return Err;
      }
      parts := parts + [provider + [FIELD_SEP] + result];
    }
    assert hops[..|hops|] == hops;
    return Ok(Join(parts, PAIR_SEP));
  }

  method Decode(s: string) returns (r: Result<seq<Hop>>)
    ensures r == Decoded(s)
  {
    if s == "" {
      return Ok([]);
    }
    var parts := Split(s, PAIR_SEP);
    var hops := [];
    for k := 0 to |parts|
      invariant ParsePairs(parts[..k]) == Ok(hops)
    {
      ParseNext(parts, k);
      var hop := Cut(parts[k]);
      if hop.Err? {
        PrefixFails(parts, k + 1);
        return Err;
      }
      hops := hops + [hop.value];
    }
    assert parts[..|parts|] == parts;
    return Ok(hops);
  }

  /** strings.Cut at the field separator, then both fields must be there. */
  method Cut(p: string) returns (r: Result<Hop>)
    ensures r == ParsePair(p)
  {
    var i := IndexOf(p, FIELD_SEP);
    if i == |p| || p[..i] == "" || p[i + 1..] == "" {
      return Err;
    }
    return Ok(Hop(p[..i], p[i + 1..]));
  }

  lemma ParseNext(ps: seq<string>, k: nat)
    requires k < |ps|
    ensures var init, last := ParsePairs(ps[..k]), ParsePair(ps[k]);
            ParsePairs(ps[..k + 1]) == if init.Err? || last.Err? then Err else Ok(init.value + [last.value])
  {
    assert ps[..k + 1] == ps[..k] + [ps[k]];
    ParseOneMore(ps[..k], ps[k]);
  }

  lemma {:induction false} PrefixFails(ps: seq<string>, n: nat)
    requires n <= |ps| && ParsePairs(ps[..n]).Err?
    ensures ParsePairs(ps).Err?
    decreases |ps|
  {
    if n < |ps| {
      assert ps[..|ps| - 1][..n] == ps[..n];
      PrefixFails(ps[..|ps| - 1], n);
    } else {
      assert ps[..n] == ps;
    }
  }

  // ---- round trips --------------------------------------------------------------------------

  lemma PairRoundTrip(h: Hop)
    requires Writable(h)
    ensures ParsePair(Pair(h)) == Ok(h) && PAIR_SEP !in Pair(h)
  {
    IndexOfFirst(h.provider, FIELD_SEP, h.result);
    assert Pair(h)[..|h.provider|] == h.provider && Pair(h)[|h.provider| + 1..] == h.result;
  }

  lemma ParseOneMore(ps: seq<string>, p: string)
    ensures var init, last := ParsePairs(ps), ParsePair(p);
            ParsePairs(ps + [p]) == if init.Err? || last.Err? then Err else Ok(init.value + [last.value])
  {
    assert (ps + [p])[..|ps|] == ps;
  }

  lemma {:induction false} PairsRoundTrip(hops: seq<Hop>)
    requires forall h <- hops :: Writable(h)
    ensures ParsePairs(Pairs(hops)) == Ok(hops) && forall p <- Pairs(hops) :: PAIR_SEP !in p
  {
    if hops != [] {
      var n := |hops| - 1;
      PairsRoundTrip(hops[..n]);
      PairRoundTrip(hops[n]);
      ParseOneMore(Pairs(hops[..n]), Pair(hops[n]));
      assert hops == hops[..n] + [hops[n]];
    }
  }

  /** What Encode writes, Decode reads back. */
  lemma EncodeThenDecode(hops: seq<Hop>)
    requires Encoded(hops).Ok?
    ensures Decoded(Encoded(hops).value) == Ok(hops)
  {
    if hops != [] {
      PairsRoundTrip(hops);
      SplitOfJoin(Pairs(hops), PAIR_SEP);
      assert Encoded(hops).value != "" by {
        assert Pairs(hops)[|hops| - 1] == Pair(hops[|hops| - 1]);
        assert Join(Pairs(hops), PAIR_SEP) == "" ==> Split("", PAIR_SEP) == [""] == Pairs(hops);
      }
    }
  }

  /** So no two hop lists share a stored form. */
  lemma EncodeInjective(a: seq<Hop>, b: seq<Hop>)
    requires Encoded(a).Ok? && Encoded(a) == Encoded(b)
    ensures a == b
  {
    EncodeThenDecode(a);
    EncodeThenDecode(b);
  }

  lemma ParsedPair(p: string)
    requires ParsePair(p).Ok? && PAIR_SEP !in p
    ensures Pair(ParsePair(p).value) == p
    ensures Writable(ParsePair(p).value) <==> FIELD_SEP !in ParsePair(p).value.result
  {
    var i := IndexOf(p, FIELD_SEP);
    assert p == p[..i] + [FIELD_SEP] + p[i + 1..];
  }

  lemma PairsOne(hops: seq<Hop>, h: Hop)
    ensures Pairs(hops + [h]) == Pairs(hops) + [Pair(h)]
  {
    assert (hops + [h])[..|hops|] == hops;
  }

  /** `hops` are what `ps` read as. */
  ghost predicate ReadFrom(hops: seq<Hop>, ps: seq<string>) {
    && Pairs(hops) == ps
    && (forall h <- hops :: Writable(h) <==> FIELD_SEP !in h.result)
  }

  lemma ReadFromOne(hops: seq<Hop>, ps: seq<string>, h: Hop, p: string)
    requires ReadFrom(hops, ps) && Pair(h) == p && (Writable(h) <==> FIELD_SEP !in h.result)
    ensures ReadFrom(hops + [h], ps + [p])
  {
    PairsOne(hops, h);
  }

  lemma {:induction false} ParsedPairs(ps: seq<string>)
    requires ParsePairs(ps).Ok? && forall p <- ps :: PAIR_SEP !in p
    ensures ReadFrom(ParsePairs(ps).value, ps)
  {
    if ps != [] {
      var init, last := ps[..|ps| - 1], ps[|ps| - 1];
      ParsedPairs(init);
      ParsedPair(last);
      ReadFromOne(ParsePairs(init).value, init, ParsePair(last).value, last);
      assert ps == init + [last];
    }
  }

  /** What Decode reads, Encode writes back unchanged, or refuses; and it refuses exactly when some
      result holds the field separator. */
  lemma DecodeThenEncode(s: string)
    requires Decoded(s).Ok?
    ensures var hops := Decoded(s).value;
            Encoded(hops) == if exists h <- hops :: FIELD_SEP in h.result then Err else Ok(s)
  {
    if s != "" {
      ParsedPairs(Split(s, PAIR_SEP));
      JoinOfSplit(s, PAIR_SEP);
    }
  }
}
