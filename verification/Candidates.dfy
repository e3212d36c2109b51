/** web/src/lib/decisionTrace.ts: the winning candidate, and its agreement with the display order. */
module Candidates {
  import opened Prelude

  /** A scored candidate; `action` stands for the rest of it. */
  datatype Candidate = Candidate(evPaise: int, action: string)

  /** The earliest candidate of maximal positive value, or none when no value is positive. */
  ghost predicate IsWinner(cs: seq<Candidate>, w: Option<Candidate>) {
    match w
    case None => forall c <- cs :: c.evPaise <= 0
    case Some(best) =>
      && best.evPaise > 0
      && exists k :: 0 <= k < |cs| && cs[k] == best
                     && (forall i :: 0 <= i < k ==> cs[i].evPaise < best.evPaise)
                     && (forall i :: k <= i < |cs| ==> cs[i].evPaise <= best.evPaise)
  }

  /** An absent list and an empty one are treated alike. */
  method PickWinningCandidate(candidates: Option<seq<Candidate>>) returns (best: Option<Candidate>)
    ensures IsWinner(if candidates.Some? then candidates.value else [], best)
  {
    best := None;
    if candidates.None? || candidates.value == [] {
      return;
    }
    var cs := candidates.value;
    ghost var k := 0;
    for n := 0 to |cs|
      invariant best.None? ==> forall i :: 0 <= i < n ==> cs[i].evPaise <= 0
      invariant best.Some? ==>
                  && best.value.evPaise > 0 && 0 <= k < n && cs[k] == best.value
                  && (forall i :: 0 <= i < k ==> cs[i].evPaise < best.value.evPaise)
                  && (forall i :: k <= i < n ==> cs[i].evPaise <= best.value.evPaise)
    {
      if cs[n].evPaise <= 0 {
        continue;
      }
      if best.None? || cs[n].evPaise > best.value.evPaise {
        best := Some(cs[n]);
        k := n;
      }
    }
  }

  /** The winner is unique: any two answers that meet the rule agree. */
  lemma WinnerIsUnique(cs: seq<Candidate>, a: Option<Candidate>, b: Option<Candidate>)
    requires IsWinner(cs, a) && IsWinner(cs, b)
    ensures a == b
  {}

  // ---- the display order --------------------------------------------------------------------

  /** The candidates of one value, in order. */
  function Of(cs: seq<Candidate>, ev: int): seq<Candidate> {
    if cs == [] then []
    else if cs[0].evPaise == ev then [cs[0]] + Of(cs[1..], ev)
    else Of(cs[1..], ev)
  }

  ghost predicate Descending(cs: seq<Candidate>) {
    forall i, j :: 0 <= i < j < |cs| ==> cs[i].evPaise >= cs[j].evPaise
  }

  /** A descending stable permutation, the outcome section 23.1.3.30 of ECMA-262 prescribes: values in
      order, and the candidates of each value exactly as they were. */
  ghost predicate IsStableSort(cs: seq<Candidate>, sorted: seq<Candidate>) {
    Descending(sorted) && forall ev :: Of(sorted, ev) == Of(cs, ev)
  }

  /** Puts `c` before the first candidate that is not greater: it came before all of them. */
  function Insert(c: Candidate, sorted: seq<Candidate>): seq<Candidate> {
    if sorted == [] || c.evPaise >= sorted[0].evPaise then [c] + sorted
    else [sorted[0]] + Insert(c, sorted[1..])
  }

  function SortCandidatesByEv(cs: seq<Candidate>): seq<Candidate> {
    if cs == [] then [] else Insert(cs[0], SortCandidatesByEv(cs[1..]))
  }

  lemma {:induction false} InsertSorts(c: Candidate, sorted: seq<Candidate>)
    requires Descending(sorted)
    ensures Descending(Insert(c, sorted))
    ensures forall x <- Insert(c, sorted) :: x == c || x in sorted
  {
    if sorted != [] && c.evPaise < sorted[0].evPaise {
      InsertSorts(c, sorted[1..]);
      assert forall x <- sorted[1..] :: x in sorted && x.evPaise <= sorted[0].evPaise;
    }
  }

  lemma {:induction false} InsertIsStable(c: Candidate, sorted: seq<Candidate>, ev: int)
    requires Descending(sorted)
    ensures Of(Insert(c, sorted), ev) == Of([c] + sorted, ev)
  {
    assert ([c] + sorted)[1..] == sorted;
    if sorted != [] && c.evPaise < sorted[0].evPaise {
      InsertIsStable(c, sorted[1..], ev);
      assert Insert(c, sorted)[1..] == Insert(c, sorted[1..]);
      assert ([c] + sorted[1..])[1..] == sorted[1..];
    }
  }

  lemma {:induction false} SortIsStable(cs: seq<Candidate>)
    ensures IsStableSort(cs, SortCandidatesByEv(cs))
  {
    if cs != [] {
      var rest := SortCandidatesByEv(cs[1..]);
      SortIsStable(cs[1..]);
      InsertSorts(cs[0], rest);
      forall ev ensures Of(SortCandidatesByEv(cs), ev) == Of(cs, ev) {
        InsertIsStable(cs[0], rest, ev);
        assert ([cs[0]] + rest)[1..] == rest;
      }
    }
  }

  lemma {:induction false} OfHolds(cs: seq<Candidate>, ev: int)
    ensures forall c <- Of(cs, ev) :: c in cs && c.evPaise == ev
    ensures Of(cs, ev) == [] <==> forall c <- cs :: c.evPaise != ev
  {
    if cs != [] {
      OfHolds(cs[1..], ev);
      assert cs == [cs[0]] + cs[1..];
    }
  }

  /** The first candidate of its value leads that value's list. */
  lemma {:induction false} FirstOf(cs: seq<Candidate>, k: nat)
    requires k < |cs| && forall i :: 0 <= i < k ==> cs[i].evPaise != cs[k].evPaise
    ensures Of(cs, cs[k].evPaise) != [] && Of(cs, cs[k].evPaise)[0] == cs[k]
  {
    if k > 0 { FirstOf(cs[1..], k - 1); }
  }

  /** A stable descending order starts with the earliest candidate of the greatest value. */
  lemma HeadIsEarliestGreatest(cs: seq<Candidate>, sorted: seq<Candidate>, k: nat)
    requires IsStableSort(cs, sorted) && k < |cs|
    requires forall i :: 0 <= i < k ==> cs[i].evPaise < cs[k].evPaise
    requires forall i :: k <= i < |cs| ==> cs[i].evPaise <= cs[k].evPaise
    ensures sorted != [] && sorted[0] == cs[k]
  {
    var ev := cs[k].evPaise;
    FirstOf(cs, k);
    assert Of(sorted, ev) == Of(cs, ev);
    OfHolds(sorted, ev);
    var d :| d in sorted && d.evPaise == ev;
    var top := sorted[0].evPaise;
    OfHolds(sorted, top);
    OfHolds(cs, top);
    assert Of(sorted, top) == Of(cs, top) && sorted[0] in sorted;
    var c :| c in cs && c.evPaise == top;
    assert ev <= top <= ev;
    FirstOf(sorted, 0);
  }

  /** The head of any stable descending order is the winner whenever a winner exists; and without one
      no value in it is positive. */
  lemma HeadIsWinner(cs: seq<Candidate>, sorted: seq<Candidate>, w: Option<Candidate>)
    requires IsWinner(cs, w) && IsStableSort(cs, sorted)
    ensures w.Some? ==> sorted != [] && sorted[0] == w.value
    ensures w.None? <==> sorted == [] || sorted[0].evPaise <= 0
  {
    if w.Some? {
      var k :| 0 <= k < |cs| && cs[k] == w.value
               && (forall i :: 0 <= i < k ==> cs[i].evPaise < w.value.evPaise)
               && (forall i :: k <= i < |cs| ==> cs[i].evPaise <= w.value.evPaise);
      HeadIsEarliestGreatest(cs, sorted, k);
    } else if sorted != [] {
      var top := sorted[0].evPaise;
      OfHolds(sorted, top);
      OfHolds(cs, top);
      assert Of(sorted, top) == Of(cs, top) && sorted[0] in sorted;
    }
  }
}
