/** The single committer of internal/platform/kafkax/keyed.go: finished records in, offset commits
    out, one at a time. */
module Committing {
  import opened Prelude
  import opened CommitTracking

  /** What completing the `n`-th record makes safe to commit. */
  function HandedOut(t: Tracker, rs: seq<Record>, n: nat): Option<Record>
    requires Known(t, rs) && n < |rs|
  {
    Advanced(CompleteFirst(t, rs, n), rs[n])
  }

  /** Everything handed out over the first `n` records. */
  function Advances(t: Tracker, rs: seq<Record>, n: nat): seq<Record>
    requires Known(t, rs) && n <= |rs|
  {
    if n == 0 then []
    else
      var a := HandedOut(t, rs, n - 1);
      if a.None? then Advances(t, rs, n - 1) else Advances(t, rs, n - 1) + [a.value]
  }

  /** Completing a record moves its own partition only, and hands out the record below the new gap
      exactly when the gap moved. */
  lemma AdvanceStep(t: Tracker, r: Record)
    requires r.partition in t
    ensures var p, u := r.partition, Completed(t, r);
            && u.Keys == t.Keys && t[p].next <= u[p].next && u == t[p := u[p]]
            && Advanced(t, r) == if u[p].next == t[p].next then None else Some(Record(p, u[p].next - 1))
  {}

  /** The offset last handed out of partition `p`. */
  function Latest(out: seq<Record>, p: int): Option<int> {
    if out == [] then None
    else if out[|out| - 1].partition == p then Some(out[|out| - 1].offset)
    else Latest(out[..|out| - 1], p)
  }

  lemma LatestOne(out: seq<Record>, r: Record, p: int)
    ensures Latest(out + [r], p) == if r.partition == p then Some(r.offset) else Latest(out, p)
  {
    assert (out + [r])[..|out|] == out;
  }

  /** Each record lies above the one handed out of its partition before. */
  predicate Rising(out: seq<Record>) {
    if out == [] then true
    else
      var init, last := out[..|out| - 1], out[|out| - 1];
      Rising(init) && (Latest(init, last.partition).Some? ==> Latest(init, last.partition).value < last.offset)
  }

  lemma RisingOne(out: seq<Record>, r: Record)
    requires Rising(out) && (Latest(out, r.partition).Some? ==> Latest(out, r.partition).value < r.offset)
    ensures Rising(out + [r])
  {
    assert (out + [r])[..|out|] == out;
  }

  lemma {:induction false} RisingBelowLatest(out: seq<Record>, i: nat)
    requires Rising(out) && i < |out|
    ensures Latest(out, out[i].partition).Some? && out[i].offset <= Latest(out, out[i].partition).value
  {
    if i < |out| - 1 { RisingBelowLatest(out[..|out| - 1], i); }
  }

  lemma {:induction false} RisingIncreases(out: seq<Record>)
    requires Rising(out)
    ensures Increasing(out)
  {
    if out != [] {
      var init, last := out[..|out| - 1], out[|out| - 1];
      RisingIncreases(init);
      forall i | 0 <= i < |init| && init[i].partition == last.partition ensures init[i].offset < last.offset {
        RisingBelowLatest(init, i);
      }
    }
  }

  /** From `t` to `u`, partition `p` had nothing handed out if its gap is where it was, and otherwise the
      record just below its gap last. */
  predicate Reached(t: Tracker, u: Tracker, out: seq<Record>, p: int) {
    if p in t && p in u then
      && t[p].next <= u[p].next
      && Latest(out, p) == if u[p].next == t[p].next then None else Some(u[p].next - 1)
    else p !in t && p !in u && Latest(out, p) == None
  }

  /** Completing a record hands out at most one more. */
  lemma ReachedStep(t: Tracker, u: Tracker, out: seq<Record>, r: Record, p: int)
    requires r.partition in u && Reached(t, u, out, p)
    ensures var a := Advanced(u, r);
            Reached(t, Completed(u, r), if a.None? then out else out + [a.value], p)
  {
    AdvanceStep(u, r);
    var a := Advanced(u, r);
    if a.Some? { LatestOne(out, a.value, p); }
  }

  /** What is handed out ends, partition by partition, just below the gap reached. */
  lemma {:induction false} AdvancesReach(t: Tracker, rs: seq<Record>, n: nat, p: int)
    requires Known(t, rs) && n <= |rs|
    ensures Reached(t, CompleteFirst(t, rs, n), Advances(t, rs, n), p)
  {
    if n > 0 {
      AdvancesReach(t, rs, n - 1, p);
      ReachedStep(t, CompleteFirst(t, rs, n - 1), Advances(t, rs, n - 1), rs[n - 1], p);
    }
  }

  lemma {:induction false} AdvancesRise(t: Tracker, rs: seq<Record>, n: nat)
    requires Known(t, rs) && n <= |rs|
    ensures Rising(Advances(t, rs, n))
  {
    if n > 0 {
      var u, out, r := CompleteFirst(t, rs, n - 1), Advances(t, rs, n - 1), rs[n - 1];
      AdvancesRise(t, rs, n - 1);
      AdvancesReach(t, rs, n - 1, r.partition);
      AdvanceStep(u, r);
      if Advanced(u, r).Some? { RisingOne(out, Advanced(u, r).value); }
    }
  }

  /** Offsets are handed out in increasing order per partition. */
  lemma AdvancesIncrease(t: Tracker, rs: seq<Record>, n: nat)
    requires Known(t, rs) && n <= |rs|
    ensures Increasing(Advances(t, rs, n))
  {
    AdvancesRise(t, rs, n);
    RisingIncreases(Advances(t, rs, n));
  }

  /** The last commit issued was refused: nothing more is to be issued. */
  predicate Refused(issued: seq<Record>, accepts: nat -> bool) {
    issued != [] && !accepts(|issued| - 1)
  }

  /** The commits issued over the first `n` records, when the `i`-th call is answered by `accepts(i)`. */
  function Issued(t: Tracker, rs: seq<Record>, n: nat, accepts: nat -> bool): seq<Record>
    requires Known(t, rs) && n <= |rs|
  {
    if n == 0 then []
    else
      var before, a := Issued(t, rs, n - 1, accepts), HandedOut(t, rs, n - 1);
      if a.None? || Refused(before, accepts) then before else before + [a.value]
  }

  /** `issued` is everything handed out, or everything up to and including the first commit refused. */
  ghost predicate UntilRefused(issued: seq<Record>, out: seq<Record>, accepts: nat -> bool) {
    && issued <= out
    && (forall i: nat :: i + 1 < |issued| ==> accepts(i))
    && (issued == out || Refused(issued, accepts))
  }

  lemma UntilRefusedStep(issued: seq<Record>, out: seq<Record>, a: Record, accepts: nat -> bool)
    requires UntilRefused(issued, out, accepts)
    ensures UntilRefused(if Refused(issued, accepts) then issued else issued + [a], out + [a], accepts)
  {}

  lemma {:induction false} IssuedUntilRefused(t: Tracker, rs: seq<Record>, n: nat, accepts: nat -> bool)
    requires Known(t, rs) && n <= |rs|
    ensures UntilRefused(Issued(t, rs, n, accepts), Advances(t, rs, n), accepts)
  {
    if n > 0 {
      IssuedUntilRefused(t, rs, n - 1, accepts);
      var before, out, a := Issued(t, rs, n - 1, accepts), Advances(t, rs, n - 1), HandedOut(t, rs, n - 1);
      if a.Some? {
        UntilRefusedStep(before, out, a.value, accepts);
      }
    }
  }

  /** Commits never go backwards on a partition, refused or not. */
  lemma IssuedIncrease(t: Tracker, rs: seq<Record>, n: nat, accepts: nat -> bool)
    requires Known(t, rs) && n <= |rs|
    ensures Increasing(Issued(t, rs, n, accepts))
  {
    IssuedUntilRefused(t, rs, n, accepts);
    AdvancesIncrease(t, rs, n);
  }

  lemma IssuedNext(t: Tracker, rs: seq<Record>, n: nat, accepts: nat -> bool, u: Tracker, issued: seq<Record>)
    requires Known(t, rs) && n < |rs| && u == Completed(CompleteFirst(t, rs, n), rs[n])
    requires var before, a := Issued(t, rs, n, accepts), Advanced(CompleteFirst(t, rs, n), rs[n]);
             issued == if a.None? || Refused(before, accepts) then before else before + [a.value]
    ensures u == CompleteFirst(t, rs, n + 1) && issued == Issued(t, rs, n + 1, accepts)
  {}

  /** The loop body of runCommitter: folds one record in, and commits what that hands out unless a commit
      was refused before. */
  method CommitOne(tracker: CommitTracker, r: Record, issued: seq<Record>, accepts: nat -> bool, broken: bool)
    returns (issued': seq<Record>, broken': bool)
    requires tracker.Valid() && r.partition in tracker.value && broken == Refused(issued, accepts)
    modifies tracker
    ensures tracker.Valid() && tracker.value == Completed(old(tracker.value), r)
    ensures var a := Advanced(old(tracker.value), r);
            issued' == if a.None? || broken then issued else issued + [a.value]
    ensures broken' == Refused(issued', accepts)
  {
    issued', broken' := issued, broken;
    var advanced := tracker.Complete(r);
    if advanced.None? || broken {
      return;
    }
    issued' := issued + [advanced.value];
    broken' := !accepts(|issued'| - 1);
  }

  /** runCommitter. `completed` is what the channel yields until it is closed: every record of it is
      folded in, even after a refused commit. */
  method RunCommitter(tracker: CommitTracker, completed: seq<Record>, accepts: nat -> bool)
    returns (issued: seq<Record>, failures: nat)
    requires tracker.Valid() && Known(tracker.value, completed)
    modifies tracker
    ensures tracker.Valid() && tracker.value == CompleteFirst(old(tracker.value), completed, |completed|)
    ensures issued == Issued(old(tracker.value), completed, |completed|, accepts)
    ensures failures == if Refused(issued, accepts) then 1 else 0
  {
    ghost var t := tracker.value;
    issued, failures := [], 0;
    var broken := false;
    for i := 0 to |completed|
      invariant tracker.Valid() && tracker.value == CompleteFirst(t, completed, i)
      invariant issued == Issued(t, completed, i, accepts)
      invariant broken == Refused(issued, accepts)
      invariant failures == if broken then 1 else 0
    {
      var wasBroken := broken;
      issued, broken := CommitOne(tracker, completed[i], issued, accepts, broken);
      IssuedNext(t, completed, i, accepts, tracker.value, issued);
      if broken && !wasBroken {
        failures := failures + 1;
      }
    }
  }
}
