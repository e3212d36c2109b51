/** getBatchReport of web/src/lib/mockEngine.ts: the aggregates over a batch's records, and the
    conservation laws between them. */
module BatchReports {
  import opened Prelude
  import opened Domain
  import opened RecordLifecycle
  import opened MockEngines

  // ---- sums over records --------------------------------------------------------------------

  /** The records in one state, in order. */
  function InState(rs: seq<Rec>, s: RecordState): seq<Rec> {
    if rs == [] then []
    else if rs[|rs| - 1].state == s then InState(rs[..|rs| - 1], s) + [rs[|rs| - 1]]
    else InState(rs[..|rs| - 1], s)
  }

  /** The places of the records in state `s`. */
  ghost function PlacesOf(rs: seq<Rec>, s: RecordState): set<int> {
    set i | 0 <= i < |rs| && rs[i].state == s
  }

  lemma PlacesOneMore(rs: seq<Rec>, r: Rec, s: RecordState)
    ensures |PlacesOf(rs + [r], s)| == |PlacesOf(rs, s)| + if r.state == s then 1 else 0
  {
    var before := PlacesOf(rs, s);
    assert PlacesOf(rs + [r], s) == if r.state == s then before + {|rs|} else before;
  }

  /** Filtering by state keeps exactly the records in it, each as often as it occurs. */
  lemma {:induction false} InStateExact(rs: seq<Rec>, s: RecordState)
    ensures |InState(rs, s)| == |PlacesOf(rs, s)|
    ensures forall r :: multiset(InState(rs, s))[r] == if r.state == s then multiset(rs)[r] else 0
  {
    if rs != [] {
      var init, last := rs[..|rs| - 1], rs[|rs| - 1];
      InStateExact(init, s);
      assert rs == init + [last];
      PlacesOneMore(init, last, s);
    }
  }

  function InFlight(rs: seq<Rec>): nat {
    if rs == [] then 0 else InFlight(rs[..|rs| - 1]) + if rs[|rs| - 1].state.Terminal() then 0 else 1
  }

  /** A measure summed over records. */
  function Total(m: Rec -> nat, rs: seq<Rec>): nat {
    if rs == [] then 0 else Total(m, rs[..|rs| - 1]) + m(rs[|rs| - 1])
  }

  function AmountPaise(r: Rec): nat {
    r.amount
  }

  /** The records of one bucket, in order. */
  function InBucket(rs: seq<Rec>, b: Bucket): seq<Rec> {
    if rs == [] then []
    else if rs[|rs| - 1].bucket == b then InBucket(rs[..|rs| - 1], b) + [rs[|rs| - 1]]
    else InBucket(rs[..|rs| - 1], b)
  }

  /** Every intervention of the batch, record by record. */
  function Interventions(rs: seq<Rec>): seq<Intervention> {
    if rs == [] then [] else Interventions(rs[..|rs| - 1]) + rs[|rs| - 1].interventions
  }

  function Spend(ivs: seq<Intervention>): nat {
    if ivs == [] then 0 else Spend(ivs[..|ivs| - 1]) + ivs[|ivs| - 1].cost
  }

  // ---- the breakdown by intervention --------------------------------------------------------

  datatype Breakdown = Breakdown(attempts: nat, successes: nat, spend: nat, recovered: nat)

  const NOTHING := Breakdown(0, 0, 0, 0)

  function Counted(b: Breakdown, iv: Intervention): Breakdown {
    Breakdown(b.attempts + 1, b.successes + (if iv.success then 1 else 0), b.spend + iv.cost,
              b.recovered + if iv.success then iv.amount else 0)
  }

  /** What one action contributes over `ivs`. */
  function BreakdownOf(ivs: seq<Intervention>, a: ActionType): Breakdown {
    if ivs == [] then NOTHING
    else
      var before, last := BreakdownOf(ivs[..|ivs| - 1], a), ivs[|ivs| - 1];
      if last.action == a then Counted(before, last) else before
  }

  lemma BreakdownOne(ivs: seq<Intervention>, iv: Intervention, a: ActionType)
    ensures BreakdownOf(ivs + [iv], a)
            == if iv.action == a then Counted(BreakdownOf(ivs, a), iv) else BreakdownOf(ivs, a)
  {
    assert (ivs + [iv])[..|ivs|] == ivs;
  }

  /** An action is listed exactly when it was attempted, with its exact totals. */
  ghost predicate IsByIntervention(table: map<ActionType, Breakdown>, ivs: seq<Intervention>) {
    && (forall a :: a in table <==> BreakdownOf(ivs, a).attempts > 0)
    && (forall a <- table :: table[a] == BreakdownOf(ivs, a))
  }

  lemma OneMoreCounted(table: map<ActionType, Breakdown>, ivs: seq<Intervention>, iv: Intervention)
    requires IsByIntervention(table, ivs)
    ensures var existing := if iv.action in table then table[iv.action] else NOTHING;
            IsByIntervention(table[iv.action := Counted(existing, iv)], ivs + [iv])
  {
    forall a ensures BreakdownOf(ivs + [iv], a)
                     == if iv.action == a then Counted(BreakdownOf(ivs, a), iv) else BreakdownOf(ivs, a)
    {
      BreakdownOne(ivs, iv, a);
    }
    NeverAttempted(ivs, iv.action);
  }

  lemma {:induction false} NeverAttempted(ivs: seq<Intervention>, a: ActionType)
    ensures BreakdownOf(ivs, a).attempts == 0 ==> BreakdownOf(ivs, a) == NOTHING
  {
    if ivs != [] { NeverAttempted(ivs[..|ivs| - 1], a); }
  }

  /** The report's accumulating double loop: records outside, their interventions inside. */
  method ByIntervention(rs: seq<Rec>) returns (table: map<ActionType, Breakdown>)
    ensures IsByIntervention(table, Interventions(rs))
  {
    table := map[];
    for i := 0 to |rs|
      invariant IsByIntervention(table, Interventions(rs[..i]))
    {
      assert rs[..i + 1][..i] == rs[..i];
      table := AddRecord(table, rs[i].interventions, Interventions(rs[..i]));
    }
    assert rs[..|rs|] == rs;
  }

  method AddRecord(start: map<ActionType, Breakdown>, ivs: seq<Intervention>, ghost before: seq<Intervention>)
    returns (table: map<ActionType, Breakdown>)
    requires IsByIntervention(start, before)
    ensures IsByIntervention(table, before + ivs)
  {
    table := start;
    assert before + ivs[..0] == before;
    for k := 0 to |ivs|
      invariant IsByIntervention(table, before + ivs[..k])
    {
      OneMoreCounted(table, before + ivs[..k], ivs[k]);
      assert before + ivs[..k + 1] == (before + ivs[..k]) + [ivs[k]];
      var existing := if ivs[k].action in table then table[ivs[k].action] else NOTHING;
      table := table[ivs[k].action := Counted(existing, ivs[k])];
    }
    assert before + ivs[..|ivs|] == before + ivs;
  }

  // ---- the breakdown by root cause ----------------------------------------------------------

  datatype CauseBreakdown = CauseBreakdown(count: nat, atRisk: nat, recovered: nat)

  function CauseOf(inBucket: seq<Rec>): CauseBreakdown {
    CauseBreakdown(|inBucket|, Total(AmountPaise, inBucket), Total(RecoveredPaise, inBucket))
  }

  /** A bucket is listed exactly when some record is in it, with the totals of its records. */
  ghost predicate IsByRootCause(table: map<Bucket, CauseBreakdown>, rs: seq<Rec>, bs: seq<Bucket>) {
    && (forall b :: b in table <==> b in bs && exists r <- rs :: r.bucket == b)
    && (forall b <- table :: table[b] == CauseOf(InBucket(rs, b)))
  }

  lemma {:induction false} InBucketEmpty(rs: seq<Rec>, b: Bucket)
    ensures InBucket(rs, b) == [] <==> forall r <- rs :: r.bucket != b
  {
    if rs != [] {
      InBucketEmpty(rs[..|rs| - 1], b);
      assert rs == rs[..|rs| - 1] + [rs[|rs| - 1]];
    }
  }

  method ByRootCause(rs: seq<Rec>, bs: seq<Bucket>) returns (table: map<Bucket, CauseBreakdown>)
    ensures IsByRootCause(table, rs, bs)
  {
    table := map[];
    for i := 0 to |bs|
      invariant IsByRootCause(table, rs, bs[..i])
    {
      assert bs[..i + 1] == bs[..i] + [bs[i]];
      var inBucket := InBucket(rs, bs[i]);
      InBucketEmpty(rs, bs[i]);
      if inBucket == [] {
        continue;
      }
      table := table[bs[i] := CauseOf(inBucket)];
    }
    assert bs[..|bs|] == bs;
  }

  /** A column of a table, summed over the keys `ks`. */
  function Column<K, V>(table: map<K, V>, m: V -> nat, ks: seq<K>): nat {
    if ks == [] then 0 else (if ks[0] in table then m(table[ks[0]]) else 0) + Column(table, m, ks[1..])
  }

  function CauseCount(c: CauseBreakdown): nat { c.count }

  function CauseAtRisk(c: CauseBreakdown): nat { c.atRisk }

  function CauseRecovered(c: CauseBreakdown): nat { c.recovered }

  function ActionSpend(b: Breakdown): nat { b.spend }

  function ActionRecovered(b: Breakdown): nat { b.recovered }

  function One(r: Rec): nat { 1 }

  lemma {:induction false} TotalOfOnes(rs: seq<Rec>)
    ensures Total(One, rs) == |rs|
  {
    if rs != [] { TotalOfOnes(rs[..|rs| - 1]); }
  }

  /** A column of the root-cause table sums the buckets' totals: an unlisted bucket has none. */
  lemma {:induction false} CauseColumn(table: map<Bucket, CauseBreakdown>, rs: seq<Rec>, all: seq<Bucket>,
                                       v: CauseBreakdown -> nat, m: Rec -> nat, bs: seq<Bucket>)
    requires IsByRootCause(table, rs, all) && forall i :: 0 <= i < |bs| ==> bs[i] in all
    requires forall inBucket :: v(CauseOf(inBucket)) == Total(m, inBucket)
    ensures Column(table, v, bs) == ByBucket(m, rs, bs)
  {
    if bs != [] {
      InBucketEmpty(rs, bs[0]);
      CauseColumn(table, rs, all, v, m, bs[1..]);
    }
  }

  /** The columns of the intervention table: an unlisted action spent and earned nothing. */
  lemma {:induction false} ActionColumns(table: map<ActionType, Breakdown>, ivs: seq<Intervention>,
                                         actions: seq<ActionType>)
    requires IsByIntervention(table, ivs)
    ensures Column(table, ActionSpend, actions) == SpendByAction(ivs, actions)
    ensures Column(table, ActionRecovered, actions) == RecoveredByAction(ivs, actions)
  {
    if actions != [] {
      NeverAttempted(ivs, actions[0]);
      ActionColumns(table, ivs, actions[1..]);
    }
  }

  // ---- conservation -------------------------------------------------------------------------

  const ALL_BUCKETS: seq<Bucket> :=
    [TransientBank, InsufficientFunds, HardDecline, UserActionNeeded, RiskHold, Abandonment, Overdue]

  const ALL_ACTIONS: seq<ActionType> := [ActionUnspecified, Retry, NudgeMethodUpdate, NudgeReminder, Escalate, NoAction]

  /** Every record is in flight, recovered, escalated or closed, and in one of these only. */
  lemma {:induction false} EveryRecordIsCountedOnce(rs: seq<Rec>)
    ensures |rs| == InFlight(rs) + |InState(rs, Recovered)| + |InState(rs, Escalated)|
                    + |InState(rs, ClosedUneconomic)|
  {
    if rs != [] { EveryRecordIsCountedOnce(rs[..|rs| - 1]); }
  }

  /** The per-root-cause totals, summed over the buckets `bs`. */
  function ByBucket(m: Rec -> nat, rs: seq<Rec>, bs: seq<Bucket>): nat {
    if bs == [] then 0 else Total(m, InBucket(rs, bs[0])) + ByBucket(m, rs, bs[1..])
  }

  predicate NoRepeats<T(==)>(xs: seq<T>) {
    forall i, j :: 0 <= i < j < |xs| ==> xs[i] != xs[j]
  }

  lemma {:induction false} OneRecordMore(m: Rec -> nat, rs: seq<Rec>, r: Rec, bs: seq<Bucket>)
    requires NoRepeats(bs)
    ensures ByBucket(m, rs + [r], bs) == ByBucket(m, rs, bs) + if r.bucket in bs then m(r) else 0
  {
    if bs != [] {
      OneRecordMore(m, rs, r, bs[1..]);
      assert (rs + [r])[..|rs|] == rs;
      var grown := InBucket(rs, bs[0]) + [r];
      assert grown[..|grown| - 1] == InBucket(rs, bs[0]);
      assert bs == [bs[0]] + bs[1..] && bs[0] !in bs[1..];
    }
  }

  lemma {:induction false} NoRecords(m: Rec -> nat, bs: seq<Bucket>)
    ensures ByBucket(m, [], bs) == 0
  {
    if bs != [] { NoRecords(m, bs[1..]); }
  }

  /** Any measure's per-root-cause amounts sum to its total. */
  lemma {:induction false} BucketsSumToTotal(m: Rec -> nat, rs: seq<Rec>, bs: seq<Bucket>)
    requires NoRepeats(bs) && forall i :: 0 <= i < |rs| ==> rs[i].bucket in bs
    ensures ByBucket(m, rs, bs) == Total(m, rs)
  {
    if rs == [] {
      NoRecords(m, bs);
    } else {
      var init, last := rs[..|rs| - 1], rs[|rs| - 1];
      BucketsSumToTotal(m, init, bs);
      assert rs == init + [last];
      OneRecordMore(m, init, last, bs);
    }
  }

  function SpendByAction(ivs: seq<Intervention>, actions: seq<ActionType>): nat {
    if actions == [] then 0 else BreakdownOf(ivs, actions[0]).spend + SpendByAction(ivs, actions[1..])
  }

  function RecoveredByAction(ivs: seq<Intervention>, actions: seq<ActionType>): nat {
    if actions == [] then 0 else BreakdownOf(ivs, actions[0]).recovered + RecoveredByAction(ivs, actions[1..])
  }

  lemma {:induction false} OneInterventionMore(ivs: seq<Intervention>, iv: Intervention, actions: seq<ActionType>)
    requires NoRepeats(actions)
    ensures SpendByAction(ivs + [iv], actions)
            == SpendByAction(ivs, actions) + if iv.action in actions then iv.cost else 0
    ensures RecoveredByAction(ivs + [iv], actions)
            == RecoveredByAction(ivs, actions) + if iv.action in actions && iv.success then iv.amount else 0
  {
    if actions != [] {
      OneInterventionMore(ivs, iv, actions[1..]);
      BreakdownOne(ivs, iv, actions[0]);
      assert actions == [actions[0]] + actions[1..] && actions[0] !in actions[1..];
    }
  }

  lemma {:induction false} NoInterventions(actions: seq<ActionType>)
    ensures SpendByAction([], actions) == RecoveredByAction([], actions) == 0
  {
    if actions != [] { NoInterventions(actions[1..]); }
  }

  /** Per-intervention spend sums to total spend, and per-intervention recovery to what the successful
      interventions earned. */
  lemma {:induction false} ActionsSumToTotals(ivs: seq<Intervention>, actions: seq<ActionType>)
    requires NoRepeats(actions) && forall iv <- ivs :: iv.action in actions
    ensures SpendByAction(ivs, actions) == Spend(ivs) && RecoveredByAction(ivs, actions) == SuccessPaise(ivs)
  {
    if ivs == [] {
      NoInterventions(actions);
    } else {
      var init, last := ivs[..|ivs| - 1], ivs[|ivs| - 1];
      ActionsSumToTotals(init, actions);
      OneInterventionMore(init, last, actions);
      assert ivs == init + [last];
    }
  }

  lemma {:induction false} SuccessJoins(a: seq<Intervention>, b: seq<Intervention>)
    ensures SuccessPaise(a + b) == SuccessPaise(a) + SuccessPaise(b)
  {
    if b == [] {
      assert a + b == a;
    } else {
      assert (a + b)[..|a + b| - 1] == a + b[..|b| - 1];
      SuccessJoins(a, b[..|b| - 1]);
    }
  }

  /** A sound record has recovered no more than its interventions earned, and exactly that unless it is
      being executed. */
  ghost predicate SoundSomehow(r: Rec) {
    exists armed :: Sound(r, armed)
  }

  lemma {:induction false} RecoveredWithinEarned(rs: seq<Rec>)
    requires forall r <- rs :: SoundSomehow(r)
    ensures Total(RecoveredPaise, rs) <= SuccessPaise(Interventions(rs))
    ensures (forall r <- rs :: !r.state.Executing()) ==> Total(RecoveredPaise, rs) == SuccessPaise(Interventions(rs))
  {
    if rs != [] {
      var init, last := rs[..|rs| - 1], rs[|rs| - 1];
      RecoveredWithinEarned(init);
      SuccessJoins(Interventions(init), last.interventions);
      assert SoundSomehow(last);
      var armed :| Sound(last, armed);
    }
  }

  // ---- the report of a running engine -------------------------------------------------------

  /** The records of a batch, in order; an id without a record is skipped. */
  function BatchRecords(records: map<string, Rec>, ids: seq<string>): seq<Rec> {
    if ids == [] then []
    else
      var before, last := BatchRecords(records, ids[..|ids| - 1]), ids[|ids| - 1];
      if last in records then before + [records[last]] else before
  }

  lemma {:induction false} BatchRecordsSound(e: Engine, ids: seq<string>)
    requires EngineSound(e)
    ensures forall r <- BatchRecords(e.records, ids) :: SoundSomehow(r)
  {
    if ids != [] {
      BatchRecordsSound(e, ids[..|ids| - 1]);
      var last := ids[|ids| - 1];
      if last in e.records { assert Sound(e.records[last], e.Armed(last)); }
    }
  }

  lemma {:induction false} SumIsBatchRecovered(records: map<string, Rec>, ids: seq<string>)
    ensures Total(RecoveredPaise, BatchRecords(records, ids)) == BatchRecovered(records, ids)
  {
    if ids != [] {
      SumIsBatchRecovered(records, ids[..|ids| - 1]);
      var rs := BatchRecords(records, ids);
      if ids[|ids| - 1] in records {
        assert rs[..|rs| - 1] == BatchRecords(records, ids[..|ids| - 1]);
      }
    }
  }

  datatype Report = Report(
    totalRecords: nat, inFlight: nat, atRisk: nat, recovered: nat, escalated: nat, closed: nat, closedPaise: nat,
    spend: nat, netRecovered: int, byRootCause: map<Bucket, CauseBreakdown>, byIntervention: map<ActionType, Breakdown>)

  /** What the recovered records are worth, whichever way it is added up. */
  lemma {:induction false} RecoveredIsInState(rs: seq<Rec>)
    ensures Total(RecoveredPaise, rs) == Total(AmountPaise, InState(rs, Recovered))
  {
    if rs != [] {
      RecoveredIsInState(rs[..|rs| - 1]);
      var before := InState(rs[..|rs| - 1], Recovered);
      assert (before + [rs[|rs| - 1]])[..|before|] == before;
    }
  }

  /** The interventions of one action, and the successful ones among them. */
  ghost function AttemptsOf(ivs: seq<Intervention>, a: ActionType): set<int> {
    set i | 0 <= i < |ivs| && ivs[i].action == a
  }

  ghost function SuccessesOf(ivs: seq<Intervention>, a: ActionType): set<int> {
    set i | 0 <= i < |ivs| && ivs[i].action == a && ivs[i].success
  }

  lemma AttemptsOneMore(ivs: seq<Intervention>, iv: Intervention, a: ActionType)
    ensures |AttemptsOf(ivs + [iv], a)| == |AttemptsOf(ivs, a)| + if iv.action == a then 1 else 0
    ensures |SuccessesOf(ivs + [iv], a)| == |SuccessesOf(ivs, a)| + if iv.action == a && iv.success then 1 else 0
  {
    var attempts, successes := AttemptsOf(ivs, a), SuccessesOf(ivs, a);
    assert AttemptsOf(ivs + [iv], a) == if iv.action == a then attempts + {|ivs|} else attempts;
    assert SuccessesOf(ivs + [iv], a) == if iv.action == a && iv.success then successes + {|ivs|} else successes;
  }

  /** A line of the intervention table counts its attempts and successes one by one. */
  lemma {:induction false} LineCounts(ivs: seq<Intervention>, a: ActionType)
    ensures BreakdownOf(ivs, a).attempts == |AttemptsOf(ivs, a)|
    ensures BreakdownOf(ivs, a).successes == |SuccessesOf(ivs, a)|
  {
    if ivs != [] {
      var init, last := ivs[..|ivs| - 1], ivs[|ivs| - 1];
      LineCounts(init, a);
      assert ivs == init + [last];
      AttemptsOneMore(init, last, a);
    }
  }

  /** What interventions cost at the price of their actions. */
  ghost function PriceOf(ivs: seq<Intervention>): nat {
    20 * |AttemptsOf(ivs, Retry)| + 35 * |AttemptsOf(ivs, NudgeMethodUpdate)| + 25 * |AttemptsOf(ivs, NudgeReminder)|
  }

  ghost predicate PricedSomehow(iv: Intervention) {
    exists b :: Priced(b, iv.action, iv.cost)
  }

  lemma {:induction false} SpendIsPrice(ivs: seq<Intervention>)
    requires forall iv <- ivs :: PricedSomehow(iv)
    ensures Spend(ivs) == PriceOf(ivs)
  {
    if ivs != [] {
      var init, last := ivs[..|ivs| - 1], ivs[|ivs| - 1];
      assert ivs == init + [last] && last in ivs;
      SpendIsPrice(init);
      AttemptsOneMore(init, last, Retry);
      AttemptsOneMore(init, last, NudgeMethodUpdate);
      AttemptsOneMore(init, last, NudgeReminder);
    }
  }

  lemma {:induction false} BatchIsPriced(rs: seq<Rec>)
    requires forall r <- rs :: SoundSomehow(r)
    ensures forall iv <- Interventions(rs) :: PricedSomehow(iv)
  {
    if rs != [] {
      var init, last := rs[..|rs| - 1], rs[|rs| - 1];
      BatchIsPriced(init);
      assert SoundSomehow(last);
      assert Charged(last);
      forall iv <- last.interventions ensures PricedSomehow(iv) {
        assert Priced(last.bucket, iv.action, iv.cost);
      }
    }
  }

  /** The headline figures are what they say. */
  ghost predicate Figures(rs: seq<Rec>, report: Report) {
    && report.totalRecords == |rs|
    && report.escalated == |PlacesOf(rs, Escalated)| && report.closed == |PlacesOf(rs, ClosedUneconomic)|
    && report.atRisk == Total(AmountPaise, rs) && report.recovered == Total(RecoveredPaise, rs)
    && report.closedPaise == Total(AmountPaise, InState(rs, ClosedUneconomic))
    && report.spend == Spend(Interventions(rs))
    && report.netRecovered == report.recovered - report.spend
    && IsByRootCause(report.byRootCause, rs, ALL_BUCKETS)
    && IsByIntervention(report.byIntervention, Interventions(rs))
    && (forall a <- report.byIntervention ::
          && report.byIntervention[a].attempts == |AttemptsOf(Interventions(rs), a)|
          && report.byIntervention[a].successes == |SuccessesOf(Interventions(rs), a)|)
  }

  /** The books balance: every record counted once, each table's columns summing to the totals, and
      nothing recovered that was not at risk or that no intervention earned. */
  ghost predicate Balanced(rs: seq<Rec>, report: Report) {
    && report.totalRecords == report.inFlight + |PlacesOf(rs, Recovered)| + report.escalated + report.closed
    && report.totalRecords == Column(report.byRootCause, CauseCount, ALL_BUCKETS)
    && report.atRisk == Column(report.byRootCause, CauseAtRisk, ALL_BUCKETS)
    && report.recovered == Column(report.byRootCause, CauseRecovered, ALL_BUCKETS)
    && report.spend == Column(report.byIntervention, ActionSpend, ALL_ACTIONS) == PriceOf(Interventions(rs))
    && report.recovered + report.closedPaise <= report.atRisk
    && ((forall r <- rs :: r.state.Recovered?) ==> report.recovered == report.atRisk)
    && report.recovered <= Column(report.byIntervention, ActionRecovered, ALL_ACTIONS)
    && ((forall r <- rs :: !r.state.Executing()) ==>
          report.recovered == Column(report.byIntervention, ActionRecovered, ALL_ACTIONS))
  }

  /** Recovered and closed records are different parts of what is at risk. */
  lemma {:induction false} PartsOfAtRisk(rs: seq<Rec>)
    ensures Total(RecoveredPaise, rs) + Total(AmountPaise, InState(rs, ClosedUneconomic)) <= Total(AmountPaise, rs)
    ensures (forall r <- rs :: r.state.Recovered?) ==> Total(RecoveredPaise, rs) == Total(AmountPaise, rs)
  {
    if rs != [] {
      var init, last := rs[..|rs| - 1], rs[|rs| - 1];
      PartsOfAtRisk(init);
      var before := InState(init, ClosedUneconomic);
      assert (before + [last])[..|before|] == before;
    }
  }

  /** getBatchReport, at any moment of a sound engine; an unknown batch is an error. */
  method GetBatchReport(e: Engine, batches: map<string, seq<string>>, batchId: string) returns (report: Result<Report>)
    requires EngineSound(e)
    ensures report.Err? <==> batchId !in batches
    ensures report.Ok? ==>
              var rs := BatchRecords(e.records, batches[batchId]);
              && Figures(rs, report.value) && Balanced(rs, report.value)
              && report.value.recovered == BatchRecovered(e.records, batches[batchId])
  {
    if batchId !in batches {
      return Err;
    }
    var ids := batches[batchId];
    var rs := BatchRecords(e.records, ids);
    BatchRecordsSound(e, ids);
    SumIsBatchRecovered(e.records, ids);
    var aggregated := Aggregated(rs);
    return Ok(aggregated);
  }

  method Aggregated(rs: seq<Rec>) returns (report: Report)
    requires forall r <- rs :: SoundSomehow(r)
    ensures Figures(rs, report) && Balanced(rs, report)
  {
    var causes := ByRootCause(rs, ALL_BUCKETS);
    var actions := ByIntervention(rs);
    var recovered: int := Total(AmountPaise, InState(rs, Recovered));
    var spend: int := Spend(Interventions(rs));
    var closed := InState(rs, ClosedUneconomic);
    report := Report(|rs|, InFlight(rs), Total(AmountPaise, rs), recovered, |InState(rs, Escalated)|,
                     |closed|, Total(AmountPaise, closed), spend, recovered - spend, causes, actions);
    InStateExact(rs, Escalated);
    InStateExact(rs, ClosedUneconomic);
    RecoveredIsInState(rs);
    forall a <- actions ensures actions[a].attempts == |AttemptsOf(Interventions(rs), a)|
                                && actions[a].successes == |SuccessesOf(Interventions(rs), a)|
    {
      LineCounts(Interventions(rs), a);
    }
    FiguresBalance(rs, report);
  }

  /** True figures balance, in a batch of sound records. */
  lemma FiguresBalance(rs: seq<Rec>, report: Report)
    requires Figures(rs, report) && report.inFlight == InFlight(rs) && forall r <- rs :: SoundSomehow(r)
    ensures Balanced(rs, report)
  {
    EveryRecordIsCountedOnce(rs);
    InStateExact(rs, Recovered);
    InStateExact(rs, Escalated);
    InStateExact(rs, ClosedUneconomic);
    PartsOfAtRisk(rs);
    BatchIsPriced(rs);
    SpendIsPrice(Interventions(rs));
    RecoveredWithinEarned(rs);
    NothingListedTwice();
    KnownBuckets(rs);
    CausesBalance(rs, report.byRootCause, ALL_BUCKETS);
    KnownActions(Interventions(rs));
    ActionsBalance(Interventions(rs), report.byIntervention, ALL_ACTIONS);
  }

  lemma ActionsBalance(ivs: seq<Intervention>, table: map<ActionType, Breakdown>, actions: seq<ActionType>)
    requires IsByIntervention(table, ivs) && NoRepeats(actions) && forall iv <- ivs :: iv.action in actions
    ensures Column(table, ActionSpend, actions) == Spend(ivs)
    ensures Column(table, ActionRecovered, actions) == SuccessPaise(ivs)
  {
    ActionsSumToTotals(ivs, actions);
    ActionColumns(table, ivs, actions);
  }

  lemma CausesBalance(rs: seq<Rec>, table: map<Bucket, CauseBreakdown>, bs: seq<Bucket>)
    requires IsByRootCause(table, rs, bs) && NoRepeats(bs) && forall i :: 0 <= i < |rs| ==> rs[i].bucket in bs
    ensures Column(table, CauseCount, bs) == |rs|
    ensures Column(table, CauseAtRisk, bs) == Total(AmountPaise, rs)
    ensures Column(table, CauseRecovered, bs) == Total(RecoveredPaise, rs)
  {
    forall inBucket ensures CauseCount(CauseOf(inBucket)) == Total(One, inBucket) { TotalOfOnes(inBucket); }
    CauseColumn(table, rs, bs, CauseCount, One, bs);
    CauseColumn(table, rs, bs, CauseAtRisk, AmountPaise, bs);
    CauseColumn(table, rs, bs, CauseRecovered, RecoveredPaise, bs);
    BucketsSumToTotal(One, rs, bs);
    BucketsSumToTotal(AmountPaise, rs, bs);
    BucketsSumToTotal(RecoveredPaise, rs, bs);
    TotalOfOnes(rs);
  }

  lemma NothingListedTwice()
    ensures NoRepeats(ALL_BUCKETS) && NoRepeats(ALL_ACTIONS)
  {}

  lemma KnownActions(ivs: seq<Intervention>)
    ensures forall iv <- ivs :: iv.action in ALL_ACTIONS
  {
    forall iv <- ivs ensures iv.action in ALL_ACTIONS {
      var all := ALL_ACTIONS;
      match iv.action
      case ActionUnspecified => assert all[0] == iv.action;
      case Retry => assert all[1] == iv.action;
      case NudgeMethodUpdate => assert all[2] == iv.action;
      case NudgeReminder => assert all[3] == iv.action;
      case Escalate => assert all[4] == iv.action;
      case NoAction => assert all[5] == iv.action;
    }
  }

  lemma KnownBuckets(rs: seq<Rec>)
    requires forall r <- rs :: SoundSomehow(r)
    ensures forall r <- rs :: r.bucket in ALL_BUCKETS
  {
    forall r <- rs ensures r.bucket in ALL_BUCKETS {
      assert SoundSomehow(r);
      var armed :| Sound(r, armed);
      assert r.bucket != BucketUnspecified;
      var all := ALL_BUCKETS;
      match r.bucket
      case TransientBank => assert all[0] == r.bucket;
      case InsufficientFunds => assert all[1] == r.bucket;
      case HardDecline => assert all[2] == r.bucket;
      case UserActionNeeded => assert all[3] == r.bucket;
      case RiskHold => assert all[4] == r.bucket;
      case Abandonment => assert all[5] == r.bucket;
      case Overdue => assert all[6] == r.bucket;
    }
  }
}
