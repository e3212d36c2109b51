/** Whole runs of the delayed-outcome queue: schedules, poller ticks and peeks in any order, without
    Redis errors. */
module OutcomeRuns {
  import opened Prelude
  import opened MemberCodec
  import opened OutcomeQueues

  datatype Op = Schedule(m: string, at: int) | Tick(now: int) | Peek

  /** What is due at `limit` and what stays. */
  function Left(entries: map<string, int>, limit: int): map<string, int> {
    map m | m in entries && limit < entries[m] :: entries[m]
  }

  /** The queue's contract says a clean tick leaves exactly the members not yet due. */
  lemma CleanTickLeaves(entries: map<string, int>, now: int, scan: seq<string>)
    requires IsScan(entries, Unix(now), scan)
    ensures Ticked(entries, scan, |scan|).0 == Left(entries, Unix(now))
  {
    WithoutIs(entries, scan[..|scan|]);
    assert scan[..|scan|] == scan;
    forall m ensures m in Without(entries, scan) <==> m in Left(entries, Unix(now)) {
      assert m in scan <==> m in DueSet(entries, Unix(now));
    }
  }

  function Entries(ops: seq<Op>): map<string, int> {
    if ops == [] then map[]
    else
      var before := Entries(ops[..|ops| - 1]);
      match ops[|ops| - 1]
      case Schedule(m, at) => before[m := Unix(at)]
      case Tick(now) => Left(before, Unix(now))
      case Peek => before
  }

  predicate DrainedBy(ops: seq<Op>, m: string)
    requires ops != []
  {
    var last, before := ops[|ops| - 1], Entries(ops[..|ops| - 1]);
    last.Tick? && m in before && before[m] <= Unix(last.now)
  }

  /** How many ticks of the run drained `m`. */
  function Drains(ops: seq<Op>, m: string): nat {
    if ops == [] then 0 else Drains(ops[..|ops| - 1], m) + if DrainedBy(ops, m) then 1 else 0
  }

  /** How many schedules of the run found `m` not pending; the others moved the one pending entry. */
  function FreshSchedules(ops: seq<Op>, m: string): nat {
    if ops == [] then 0
    else
      var last, before := ops[|ops| - 1], ops[..|ops| - 1];
      FreshSchedules(before, m) + if last.Schedule? && last.m == m && m !in Entries(before) then 1 else 0
  }

  /** Conservation: what was newly scheduled has been drained once or is pending once. */
  lemma {:induction false} ScheduledIsDrainedOrPending(ops: seq<Op>, m: string)
    ensures FreshSchedules(ops, m) == Drains(ops, m) + if m in Entries(ops) then 1 else 0
  {
    if ops != [] {
      ScheduledIsDrainedOrPending(ops[..|ops| - 1], m);
    }
  }

  /** The tick at `now` reaches an entry due at `at`. */
  predicate Reaches(op: Op, at: int) {
    op.Tick? && Unix(at) <= Unix(op.now)
  }

  lemma {:induction false} WaitsForReachingTick(before: seq<Op>, m: string, at: int, after: seq<Op>)
    requires forall op <- after :: op.Schedule? ==> op.m != m
    ensures var ops := before + [Schedule(m, at)] + after;
            if exists op <- after :: Reaches(op, at) then m !in Entries(ops)
            else m in Entries(ops) && Entries(ops)[m] == Unix(at)
  {
    var ops := before + [Schedule(m, at)] + after;
    if after == [] {
      assert ops[..|ops| - 1] == before;
    } else {
      var last, earlier := after[|after| - 1], after[..|after| - 1];
      assert after == earlier + [last];
      WaitsForReachingTick(before, m, at, earlier);
      assert ops[..|ops| - 1] == before + [Schedule(m, at)] + earlier && ops[|ops| - 1] == last;
      assert last in after;
      if Reaches(last, at) {
      } else if op :| op in earlier && Reaches(op, at) {
        assert op in after;
      }
    }
  }

  /** An entry not re-scheduled is drained by the first tick whose whole second reaches its score, by
      that tick only, and never before. */
  lemma DrainedByFirstReachingTick(before: seq<Op>, m: string, at: int, quiet: seq<Op>, now: int)
    requires forall op <- quiet :: !(op.Schedule? && op.m == m) && !Reaches(op, at)
    ensures var ops := before + [Schedule(m, at)] + quiet + [Tick(now)];
            DrainedBy(ops, m) <==> Reaches(Tick(now), at)
  {
    var ops := before + [Schedule(m, at)] + quiet + [Tick(now)];
    WaitsForReachingTick(before, m, at, quiet);
    assert ops[..|ops| - 1] == before + [Schedule(m, at)] + quiet;
  }

  /** A tick at or after the due time always reaches the entry; one that reaches it is less than a
      second early. */
  lemma ReachedWithinASecond(now: int, at: int)
    ensures at <= now ==> Reaches(Tick(now), at)
    ensures Reaches(Tick(now), at) ==> at - SECOND < now
  {}
}
