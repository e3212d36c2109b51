/** The engine of web/src/lib/mockEngine.ts: records, timers and listeners, driven by timer callbacks in
    any order. */
module MockEngines {
  import opened Prelude
  import opened Domain
  import opened RecordLifecycle

  /** The engine's maps as one value; `emitted` is what a listener subscribed from the start has seen. */
  datatype Engine = Engine(records: map<string, Rec>, timers: map<string, Callback>, emitted: seq<Update>)
  {
    function Armed(id: string): Option<Callback> {
      if id in timers then Some(timers[id]) else None
    }
  }

  /** buildRecord. */
  function NewRecord(amount: nat, bucket: Bucket): Rec {
    Rec(amount, New, bucket, 0, [], [], false, None)
  }

  /** One line of the timeline's plan. */
  datatype Planned = Planned(amount: nat, bucket: Bucket, dueAt: int)

  /** seedPendingTimelineRecords leaves a record scheduled for good, with no timer behind it. */
  function TimelineRecord(amount: nat, bucket: Bucket, dueAt: int): Rec {
    WithEntry(WithEntry(NewRecord(amount, bucket), Scoring, 0, 0), RetryScheduled, 0, 0).(dueAt := Some(dueAt))
  }

  function After(e: Engine, id: string, m: Moved): Engine {
    Engine(e.records[id := m.r],
           if m.armed.Some? then e.timers[id := m.armed.value] else e.timers - {id},
           e.emitted + m.updates)
  }

  datatype Action =
    | Seed(id: string, amount: nat, bucket: Bucket)
    | Fire(id: string, ch: Chance)

  /** A demo batch adds fresh ids; a timer fires only if it is armed. */
  predicate Possible(e: Engine, a: Action) {
    match a
    case Seed(id, _, bucket) => id !in e.records && id !in e.timers && bucket != BucketUnspecified
    case Fire(id, ch) => id in e.timers && id in e.records && ch.bucket != BucketUnspecified
  }

  function Acted(e: Engine, a: Action): Engine
    requires Possible(e, a)
  {
    match a
    case Seed(id, amount, bucket) =>
      e.(records := e.records[id := NewRecord(amount, bucket)], timers := e.timers[id := StepDue])
    case Fire(id, ch) => After(e, id, Fired(id, e.records[id], e.timers[id], ch))
  }

  // ---- the object ---------------------------------------------------------------------------

  class MockEngine {
    var records: map<string, Rec>
    var timers: map<string, Callback>
    var emitted: seq<Update>

    ghost function State(): Engine
      reads this
    {
      Engine(records, timers, emitted)
    }

    /** A new engine holds one batch that has already run its course. */
    constructor (ids: seq<string>, drawn: seq<(nat, Bucket)>, outcomes: (nat, nat) -> bool, closes: nat -> bool,
                 pending: seq<string>, plan: seq<Planned>)
      requires |drawn| == |ids| && forall d <- drawn :: d.1 != BucketUnspecified
      requires |plan| == |pending| && forall p <- plan :: p.bucket.TransientBank? || p.bucket.InsufficientFunds?
      ensures EngineSound(State()) && timers == map[] && emitted == []
      ensures forall id <- records :: records[id].state.Terminal() || records[id].state.RetryScheduled?
      ensures records.Keys == (set id <- ids + pending)
    {
      records, timers, emitted := map[], map[], [];
      new;
      SeedCompletedBatch(ids, drawn, outcomes, closes);
      SeedPendingTimelineRecords(pending, plan);
    }

    /** Each record is run to its end on the spot: the `k`-th attempt of record `i` succeeds if
        `outcomes(i, k)`. */
    method SeedCompletedBatch(ids: seq<string>, drawn: seq<(nat, Bucket)>, outcomes: (nat, nat) -> bool,
                              closes: nat -> bool)
      requires AllSound(records)
      requires |drawn| == |ids| && forall d <- drawn :: d.1 != BucketUnspecified
      modifies this`records
      ensures AllSound(records) && forall id :: id in records <==> id in old(records) || id in ids
      ensures forall id <- records :: id in ids ==> records[id].state.Recovered? || records[id].state.Escalated?
      ensures forall id <- records :: id !in ids ==> records[id] == old(records)[id]
    {
      for i := 0 to |ids|
        invariant AllSound(records)
        invariant forall id :: id in records <==> id in old(records) || id in ids[..i]
        invariant forall id <- records :: id in ids[..i] ==>
                    records[id].state.Recovered? || records[id].state.Escalated?
        invariant forall id <- records :: id !in ids[..i] ==> records[id] == old(records)[id]
      {
        StoreCompleted(ids[i], drawn[i].0, drawn[i].1, (k: nat) => outcomes(i, k), closes(i));
        assert ids[..i + 1] == ids[..i] + [ids[i]];
      }
      assert ids[..|ids|] == ids;
    }

    method StoreCompleted(id: string, amount: nat, bucket: Bucket, outcomes: nat -> bool, closes: bool)
      requires AllSound(records) && bucket != BucketUnspecified
      modifies this`records
      ensures AllSound(records) && id in records && records == old(records)[id := records[id]]
      ensures records[id].state.Recovered? || records[id].state.Escalated?
    {
      var r := RunToCompletion(amount, bucket, outcomes, closes);
      records := records[id := r];
    }

    method SeedPendingTimelineRecords(ids: seq<string>, plan: seq<Planned>)
      requires AllSound(records)
      requires |plan| == |ids| && forall p <- plan :: p.bucket.TransientBank? || p.bucket.InsufficientFunds?
      modifies this`records
      ensures AllSound(records) && forall id :: id in records <==> id in old(records) || id in ids
      ensures forall id <- records :: id in ids ==> records[id].state.RetryScheduled?
      ensures forall id <- records :: id !in ids ==> records[id] == old(records)[id]
    {
      for i := 0 to |ids|
        invariant AllSound(records)
        invariant forall id :: id in records <==> id in old(records) || id in ids[..i]
        invariant forall id <- records :: id in ids[..i] ==> records[id].state.RetryScheduled?
        invariant forall id <- records :: id !in ids[..i] ==> records[id] == old(records)[id]
      {
        StorePlanned(ids[i], plan[i]);
        assert ids[..i + 1] == ids[..i] + [ids[i]];
      }
      assert ids[..|ids|] == ids;
    }

    method StorePlanned(id: string, p: Planned)
      requires AllSound(records) && (p.bucket.TransientBank? || p.bucket.InsufficientFunds?)
      modifies this`records
      ensures AllSound(records) && id in records && records == old(records)[id := records[id]]
      ensures records[id].state.RetryScheduled?
    {
      TimelineRecordSound(p.amount, p.bucket, p.dueAt);
      records := records[id := TimelineRecord(p.amount, p.bucket, p.dueAt)];
    }

    method AddEntry(id: string, to: RecordState, attempt: nat, cost: nat)
      requires id in records
      modifies this`records
      ensures records == old(records)[id := WithEntry(old(records[id]), to, attempt, cost)]
    {
      var r := records[id];
      records := records[id := r.(entries := r.entries + [Entry(r.state, to, attempt, cost)], state := to)];
    }

    method Emit(id: string, from: RecordState, to: RecordState, delta: nat)
      modifies this`emitted
      ensures emitted == old(emitted) + [Update(id, from, to, delta)]
    {
      emitted := emitted + [Update(id, from, to, delta)];
    }

    method ProcessRecord(id: string)
      requires id in records
      modifies this`timers
      ensures timers == if records[id].processed then old(timers) else old(timers)[id := StepDue]
    {
      if records[id].processed { return; }
      timers := timers[id := StepDue];
    }

    method Step(id: string, ch: Chance)
      requires id in records && id !in timers
      modifies this
      ensures State() == After(old(State()), id, Stepped(id, old(records[id]), ch))
    {
      assert timers - {id} == timers;
      if records[id].processed {
        return;
      }
      if records[id].state.Terminal() {
        records := records[id := records[id].(processed := true)];
        return;
      }
      if records[id].state.New? {
        records := records[id := records[id].(bucket := ch.bucket)];
        AddEntry(id, Scoring, 0, 0);
        Emit(id, New, Scoring, 0);
        timers := timers[id := StepDue];
        return;
      }
      if records[id].state.Scoring? {
        var action := DecideAction(records[id].bucket, records[id].attempts);
        if action.Escalate? {
          AddEntry(id, Escalated, 0, 0);
          Emit(id, Scoring, Escalated, 0);
          records := records[id := records[id].(processed := true)];
          return;
        }
        var to := ScheduledStateFor(action);
        records := records[id := records[id].(dueAt := Some(ch.dueAt))];
        AddEntry(id, to, 0, 0);
        Emit(id, Scoring, to, 0);
        timers := timers[id := ExecuteDue(action)];
      }
    }

    method ExecuteAttempt(id: string, action: ActionType, ch: Chance)
      requires id in records && id !in timers
      modifies this
      ensures State() == After(old(State()), id, Executed(id, old(records[id]), action, ch))
    {
      assert timers - {id} == timers;
      if records[id].processed {
        return;
      }
      var scheduledState := records[id].state;
      records := records[id := records[id].(dueAt := None, attempts := records[id].attempts + 1)];
      var cost := ActionCostPaise(action);
      var executingState := ExecutingStateFor(action);
      AddEntry(id, executingState, records[id].attempts, cost);
      Emit(id, scheduledState, executingState, 0);
      var r := records[id];
      var iv := Intervention(action, cost, r.amount, ch.success);
      records := records[id := r.(interventions := r.interventions + [iv])];
      timers := timers[id := SettleDue(action, ch.success)];
    }

    method Settle(id: string, action: ActionType, success: bool)
      requires id in records && id !in timers
      modifies this
      ensures State() == After(old(State()), id, Settled(id, old(records[id]), action, success))
    {
      assert timers - {id} == timers;
      var from := records[id].state;
      if success {
        AddEntry(id, Recovered, 0, 0);
        Emit(id, from, Recovered, records[id].amount);
        records := records[id := records[id].(processed := true)];
        return;
      }
      var budgetExhausted := records[id].attempts >= 3 || (IsNudge(action) && records[id].attempts >= 2);
      if budgetExhausted {
        AddEntry(id, Escalated, 0, 0);
        Emit(id, from, Escalated, 0);
        records := records[id := records[id].(processed := true)];
      } else {
        AddEntry(id, Scoring, 0, 0);
        Emit(id, from, Scoring, 0);
        timers := timers[id := ReprocessDue];
      }
    }

    /** The event loop runs the callback behind a timer. */
    method FireTimer(id: string, ch: Chance)
      requires Possible(State(), Fire(id, ch))
      modifies this
      ensures State() == Acted(old(State()), Fire(id, ch))
    {
      var cb := timers[id];
      timers := timers - {id};
      match cb {
        case StepDue => Step(id, ch);
        case ExecuteDue(action) => ExecuteAttempt(id, action, ch);
        case SettleDue(action, success) => Settle(id, action, success);
        case ReprocessDue => ProcessRecord(id);
      }
      assert State() == Acted(old(State()), Fire(id, ch));
    }

    /** seedDemoBatch, once its records are drawn: all are stored, then all are started. The whole is a
        run of single seedings, so the engine stays sound and every claim about runs covers the batch. */
    method SeedDemoBatch(ids: seq<string>, drawn: seq<(nat, Bucket)>)
      requires |drawn| == |ids| && Distinct(ids) && forall d <- drawn :: d.1 != BucketUnspecified
      requires forall id <- ids :: id !in records && id !in timers
      modifies this`records, this`timers
      ensures Seeded(old(State()), ids, drawn, State())
    {
      ghost var e := State();
      BatchSeeded(e, ids, drawn);
      StoreAll(ids, drawn);
      StartAll(ids);
    }

    method StoreAll(ids: seq<string>, drawn: seq<(nat, Bucket)>)
      requires |drawn| == |ids|
      modifies this`records
      ensures records == Stored(old(records), ids, drawn)
    {
      for i := 0 to |ids|
        invariant records == Stored(old(records), ids[..i], drawn[..i])
      {
        assert ids[..i + 1][..i] == ids[..i] && drawn[..i + 1][..i] == drawn[..i];
        records := records[ids[i] := NewRecord(drawn[i].0, drawn[i].1)];
      }
      assert ids[..|ids|] == ids && drawn[..|ids|] == drawn;
    }

    method StartAll(ids: seq<string>)
      requires forall i :: 0 <= i < |ids| ==> ids[i] in records && !records[ids[i]].processed
      modifies this`timers
      ensures timers == Started(old(timers), ids)
    {
      for i := 0 to |ids|
        invariant timers == Started(old(timers), ids[..i])
      {
        assert ids[..i + 1][..i] == ids[..i];
        ProcessRecord(ids[i]);
      }
      assert ids[..|ids|] == ids;
    }
  }

  function Stored(records: map<string, Rec>, ids: seq<string>, drawn: seq<(nat, Bucket)>): map<string, Rec>
    requires |drawn| == |ids|
  {
    if ids == [] then records
    else
      var n := |ids| - 1;
      Stored(records, ids[..n], drawn[..n])[ids[n] := NewRecord(drawn[n].0, drawn[n].1)]
  }

  function Started(timers: map<string, Callback>, ids: seq<string>): map<string, Callback> {
    if ids == [] then timers else Started(timers, ids[..|ids| - 1])[ids[|ids| - 1] := StepDue]
  }

  lemma {:induction false} StoredHolds(after: map<string, Rec>, records: map<string, Rec>, ids: seq<string>,
                                       drawn: seq<(nat, Bucket)>)
    requires |drawn| == |ids| && Distinct(ids) && after == Stored(records, ids, drawn)
    ensures forall i :: 0 <= i < |ids| ==> ids[i] in after && after[ids[i]] == NewRecord(drawn[i].0, drawn[i].1)
    ensures forall id :: id !in ids ==> (id in after <==> id in records)
  {
    if ids != [] {
      var n := |ids| - 1;
      StoredHolds(Stored(records, ids[..n], drawn[..n]), records, ids[..n], drawn[..n]);
    }
  }

  lemma {:induction false} StartedHolds(after: map<string, Callback>, timers: map<string, Callback>, ids: seq<string>)
    requires after == Started(timers, ids)
    ensures forall id <- ids :: id in after && after[id] == StepDue
    ensures forall id :: id !in ids ==> (id in after <==> id in timers)
  {
    if ids != [] {
      var n := |ids| - 1;
      StartedHolds(Started(timers, ids[..n]), timers, ids[..n]);
      assert ids == ids[..n] + [ids[n]];
    }
  }

  /** A demo batch as single actions. */
  function SeedsOf(ids: seq<string>, drawn: seq<(nat, Bucket)>): seq<Action>
    requires |drawn| == |ids|
  {
    if ids == [] then []
    else
      var n := |ids| - 1;
      SeedsOf(ids[..n], drawn[..n]) + [Seed(ids[n], drawn[n].0, drawn[n].1)]
  }

  lemma {:induction false} RunOneMore(e: Engine, run: seq<Action>, a: Action)
    requires ValidRun(e, run) && Possible(Ran(e, run), a)
    ensures ValidRun(e, run + [a]) && Ran(e, run + [a]) == Acted(Ran(e, run), a)
    decreases |run|
  {
    if run == [] {
      assert run + [a] == [a];
    } else {
      assert (run + [a])[1..] == run[1..] + [a];
      RunOneMore(Acted(e, run[0]), run[1..], a);
    }
  }

  /** Storing and then starting a batch of fresh records is seeding them one by one. */
  lemma {:induction false} SeedsAreRun(e: Engine, ids: seq<string>, drawn: seq<(nat, Bucket)>)
    requires |drawn| == |ids| && Distinct(ids) && forall d <- drawn :: d.1 != BucketUnspecified
    requires forall id <- ids :: id !in e.records && id !in e.timers
    ensures ValidRun(e, SeedsOf(ids, drawn))
    ensures Ran(e, SeedsOf(ids, drawn)) == Engine(Stored(e.records, ids, drawn), Started(e.timers, ids), e.emitted)
  {
    if ids != [] {
      var n := |ids| - 1;
      SeedsAreRun(e, ids[..n], drawn[..n]);
      var before := Ran(e, SeedsOf(ids[..n], drawn[..n]));
      StoredHolds(before.records, e.records, ids[..n], drawn[..n]);
      StartedHolds(before.timers, e.timers, ids[..n]);
      assert ids[n] in ids && ids[n] !in ids[..n] && drawn[n] in drawn;
      RunOneMore(e, SeedsOf(ids[..n], drawn[..n]), Seed(ids[n], drawn[n].0, drawn[n].1));
    }
  }

  /** `after` is `e` with a demo batch: a valid run of single seedings leads there, a sound engine stays
      sound, and every record of the batch is new with its first step armed. */
  ghost predicate Seeded(e: Engine, ids: seq<string>, drawn: seq<(nat, Bucket)>, after: Engine)
    requires |drawn| == |ids|
  {
    && ValidRun(e, SeedsOf(ids, drawn)) && after == Ran(e, SeedsOf(ids, drawn))
    && (EngineSound(e) ==> EngineSound(after))
    && (forall i :: 0 <= i < |ids| ==>
          && ids[i] in after.records && after.records[ids[i]] == NewRecord(drawn[i].0, drawn[i].1)
          && ids[i] in after.timers && after.timers[ids[i]] == StepDue)
  }

  lemma BatchSeeded(e: Engine, ids: seq<string>, drawn: seq<(nat, Bucket)>)
    requires |drawn| == |ids| && Distinct(ids) && forall d <- drawn :: d.1 != BucketUnspecified
    requires forall id <- ids :: id !in e.records && id !in e.timers
    ensures Seeded(e, ids, drawn, Engine(Stored(e.records, ids, drawn), Started(e.timers, ids), e.emitted))
    ensures forall i :: 0 <= i < |ids| ==>
              ids[i] in Stored(e.records, ids, drawn) && !Stored(e.records, ids, drawn)[ids[i]].processed
  {
    StoredHolds(Stored(e.records, ids, drawn), e.records, ids, drawn);
    StartedHolds(Started(e.timers, ids), e.timers, ids);
    SeedsAreRun(e, ids, drawn);
    if EngineSound(e) { RunKeepsSound(e, SeedsOf(ids, drawn)); }
  }

  /** One record of seedCompletedBatch, run to its end on the spot with `outcomes` for its rolls. It
      always ends recovered or escalated: the uneconomic close after the loop is never reached. */
  method RunToCompletion(amount: nat, bucket: Bucket, outcomes: nat -> bool, closesUneconomic: bool) returns (r: Rec)
    requires bucket != BucketUnspecified
    ensures Sound(r, None) && r.processed && r.bucket == bucket && r.amount == amount
    ensures r.state.Recovered? || r.state.Escalated?
    ensures forall i: nat :: i < |r.interventions| ==> r.interventions[i].success == outcomes(i)
    ensures r.state.Recovered? <==> r.attempts > 0 && outcomes(r.attempts - 1)
    ensures r.state.Escalated? <==> forall k: nat :: k < Budget(bucket) ==> !outcomes(k)
  {
    r := RunRounds(amount, bucket, outcomes);
    if !r.state.Recovered? && !r.state.Escalated? && closesUneconomic {
      assert false;
    }
    MidwayEnds(r);
    RollsDecide(r, outcomes);
    r := r.(processed := true);
  }

  /** The attempt loop. */
  method RunRounds(amount: nat, bucket: Bucket, outcomes: nat -> bool) returns (r: Rec)
    requires bucket != BucketUnspecified
    ensures Midway(r) && !r.state.Scoring? && AsRolled(r, outcomes) && r.bucket == bucket && r.amount == amount
  {
    r := WithEntry(NewRecord(amount, bucket), Scoring, 0, 0);
    ClassifiedMidway(amount, bucket);
    var recovered := false;
    while r.attempts < 3 && !recovered && !r.state.Escalated? && !r.state.ClosedUneconomic?
      invariant Midway(r) && r.bucket == bucket && r.amount == amount && (recovered <==> r.state.Recovered?)
      invariant AsRolled(r, outcomes)
      decreases 3 - r.attempts, r.state.Scoring?
    {
      r := Round(r, outcomes(r.attempts));
      recovered := r.state.Recovered?;
    }
  }

  predicate AsRolled(r: Rec, outcomes: nat -> bool) {
    && |r.interventions| == r.attempts
    && forall i: nat :: i < |r.interventions| ==> r.interventions[i].success == outcomes(i)
  }

  /** Only the last attempt can succeed, and a record is given up only with its budget used up. */
  lemma RollsDecide(r: Rec, outcomes: nat -> bool)
    requires Midway(r) && !r.state.Scoring? && AsRolled(r, outcomes)
    ensures r.state.Recovered? <==> r.attempts > 0 && outcomes(r.attempts - 1)
    ensures r.state.Escalated? <==> forall k: nat :: k < Budget(r.bucket) ==> !outcomes(k)
  {
    var n := |r.interventions|;
    if r.state.Recovered? {
      assert r.interventions[n - 1].success && n - 1 < Budget(r.bucket);
    } else {
      forall k: nat | k < Budget(r.bucket) ensures !outcomes(k) { assert !r.interventions[k].success; }
    }
  }

  lemma ClassifiedMidway(amount: nat, bucket: Bucket)
    requires bucket != BucketUnspecified
    ensures Midway(WithEntry(NewRecord(amount, bucket), Scoring, 0, 0))
  {
    TrailExtends([], Entry(New, Scoring, 0, 0));
    NotedMove([], [], Entry(New, Scoring, 0, 0));
  }

  lemma MidwayEnds(r: Rec)
    requires Midway(r) && !r.state.Scoring?
    ensures Sound(r.(processed := true), None)
  {}

  /** One turn of the loop: escalate at once, or attempt and settle. */
  method Round(r: Rec, success: bool) returns (r': Rec)
    requires Midway(r) && r.state.Scoring?
    ensures Midway(r') && r'.bucket == r.bucket && r'.amount == r.amount
    ensures var action := DecideAction(r.bucket, r.attempts);
            if action.Escalate? then
              r'.state.Escalated? && r'.interventions == r.interventions && r'.attempts == r.attempts
            else
              && (r'.state.Recovered? <==> success) && r'.attempts == r.attempts + 1
              && r'.interventions
                 == r.interventions + [Intervention(action, ActionCostPaise(action), r.amount, success)]
  {
    var action := DecideAction(r.bucket, r.attempts);
    if action.Escalate? {
      r' := MovedTo(r, Escalated);
    } else {
      ghost var iv := Intervention(action, ActionCostPaise(action), r.amount, success);
      r' := Attempted(r, action, success);
      r' := SettledNow(r', action, success);
      AttemptBooked(r, iv, r');
    }
  }

  /** One more attempt on the books of a record that had not succeeded yet. */
  lemma AttemptBooked(r: Rec, iv: Intervention, r': Rec)
    requires Charged(r) && Won(r, None) && r.state.Scoring? && r.attempts == |r.interventions|
    requires r.bucket != BucketUnspecified && !DecideAction(r.bucket, r.attempts).Escalate?
    requires iv == Intervention(DecideAction(r.bucket, r.attempts), ActionCostPaise(iv.action), r.amount, iv.success)
    requires r'.interventions == r.interventions + [iv] && r'.bucket == r.bucket && r'.amount == r.amount
    requires r'.state.Recovered? == iv.success
    ensures Charged(r') && Won(r', None)
  {}

  method SettledNow(r: Rec, action: ActionType, success: bool) returns (r': Rec)
    requires Traced(r) && Noted(r.entries, r.interventions)
    requires r.state.Executing() && r.state == ExecutingStateFor(action)
    requires action.Retry? || r.attempts == 1
    ensures Traced(r') && Noted(r'.entries, r'.interventions) && r' == r.(state := r'.state, entries := r'.entries)
    ensures r'.state == if success then Recovered
                        else if r.attempts >= 3 || (IsNudge(action) && r.attempts >= 2) then Escalated else Scoring
  {
    if success {
      r' := MovedTo(r, Recovered);
    } else if r.attempts >= 3 || (IsNudge(action) && r.attempts >= 2) {
      r' := MovedTo(r, Escalated);
    } else {
      r' := MovedTo(r, Scoring);
    }
  }

  /** A record of the synchronous loop between rounds. */
  predicate Midway(r: Rec) {
    && Traced(r) && !r.processed && r.dueAt.None? && r.bucket != BucketUnspecified
    && r.attempts <= Budget(r.bucket)
    && (|| r.state.Recovered?
        || (r.state.Escalated? && r.attempts == Budget(r.bucket))
        || (r.state.Scoring? && r.attempts < 3))
    && Booked(r, None)
    && SuccessPaise(r.interventions) == if r.state.Recovered? then r.amount else 0
  }

  method MovedTo(r: Rec, to: RecordState) returns (r': Rec)
    requires Traced(r) && Noted(r.entries, r.interventions) && Edge(r.state, to) && !to.Executing()
    ensures Traced(r') && Noted(r'.entries, r'.interventions) && r' == r.(state := to, entries := r'.entries)
  {
    MoveKept(r, to);
    r' := WithEntry(r, to, 0, 0);
  }

  /** The scheduled and the executed entry of one attempt, with its intervention between them. */
  method Attempted(r: Rec, action: ActionType, success: bool) returns (r': Rec)
    requires Traced(r) && Noted(r.entries, r.interventions) && r.state.Scoring? && (action.Retry? || IsNudge(action))
    ensures Traced(r') && Noted(r'.entries, r'.interventions) && r'.state == ExecutingStateFor(action)
    ensures r' == r.(state := r'.state, entries := r'.entries, attempts := r.attempts + 1,
                     interventions := r.interventions
                                      + [Intervention(action, ActionCostPaise(action), r.amount, success)])
    ensures SuccessPaise(r'.interventions) == SuccessPaise(r.interventions) + if success then r.amount else 0
  {
    var cost, scheduled := ActionCostPaise(action), ScheduledStateFor(action);
    var iv := Intervention(action, cost, r.amount, success);
    TrailExtends(r.entries, Entry(Scoring, scheduled, 0, 0));
    NotedMove(r.entries, r.interventions, Entry(Scoring, scheduled, 0, 0));
    r' := WithEntry(r, scheduled, 0, 0);
    r' := r'.(attempts := r'.attempts + 1);
    r' := r'.(interventions := r'.interventions + [Intervention(action, cost, r'.amount, success)]);
    InterventionEarns(r.interventions, Intervention(action, cost, r.amount, success));
    TrailExtends(r'.entries, Entry(scheduled, ExecutingStateFor(action), r'.attempts, cost));
    NotedAttempt(r'.entries, r.interventions, Entry(scheduled, ExecutingStateFor(action), r'.attempts, cost), iv);
    r' := WithEntry(r', ExecutingStateFor(action), r'.attempts, cost);
  }

  // ---- runs ---------------------------------------------------------------------------------

  predicate ValidRun(e: Engine, run: seq<Action>)
    decreases |run|
  {
    run == [] || (Possible(e, run[0]) && ValidRun(Acted(e, run[0]), run[1..]))
  }

  function Ran(e: Engine, run: seq<Action>): Engine
    requires ValidRun(e, run)
    decreases |run|
  {
    if run == [] then e else Ran(Acted(e, run[0]), run[1..])
  }

  /** What one record has announced as recovered. */
  function Announced(us: seq<Update>, id: string): nat {
    if us == [] then 0
    else Announced(us[..|us| - 1], id) + if us[|us| - 1].id == id then us[|us| - 1].deltaPaise else 0
  }

  function RecoveredPaise(r: Rec): nat {
    if r.state.Recovered? then r.amount else 0
  }

  /** Records with no timer behind them. */
  ghost predicate AllSound(records: map<string, Rec>) {
    forall id <- records :: Sound(records[id], None)
  }

  ghost predicate EngineSound(e: Engine) {
    && (forall id <- e.timers :: id in e.records)
    && (forall id <- e.records :: Sound(e.records[id], e.Armed(id)))
  }

  /** What `id` has announced is what it has recovered. */
  predicate Tracked(e: Engine, id: string) {
    Announced(e.emitted, id) == if id in e.records then RecoveredPaise(e.records[id]) else 0
  }

  lemma SeedKeepsSound(e: Engine, id: string, amount: nat, bucket: Bucket)
    requires EngineSound(e) && Possible(e, Seed(id, amount, bucket))
    ensures EngineSound(Acted(e, Seed(id, amount, bucket)))
  {
    var e' := Acted(e, Seed(id, amount, bucket));
    assert Sound(e'.records[id], e'.Armed(id));
  }

  lemma FireKeepsSound(e: Engine, id: string, ch: Chance)
    requires EngineSound(e) && Possible(e, Fire(id, ch))
    ensures EngineSound(Acted(e, Fire(id, ch)))
  {
    FiredSound(id, e.records[id], e.timers[id], ch);
  }

  /** Every record of every reachable engine: its trail is an unbroken path from NEW, its attempts equal
      its interventions and executed entries and stay within the bucket's budget, its due time is set
      exactly while it is scheduled, and its armed callback fits its state. */
  lemma {:induction false} RunKeepsSound(e: Engine, run: seq<Action>)
    requires EngineSound(e) && ValidRun(e, run)
    ensures EngineSound(Ran(e, run))
    decreases |run|
  {
    if run != [] {
      match run[0] {
        case Seed(id, amount, bucket) => SeedKeepsSound(e, id, amount, bucket);
        case Fire(id, ch) => FireKeepsSound(e, id, ch);
      }
      RunKeepsSound(Acted(e, run[0]), run[1..]);
    }
  }

  /** A record in a terminal state is never touched again. */
  lemma {:induction false} TerminalStays(e: Engine, run: seq<Action>, id: string)
    requires EngineSound(e) && ValidRun(e, run) && id in e.records && e.records[id].state.Terminal()
    ensures id in Ran(e, run).records && Ran(e, run).records[id] == e.records[id]
    decreases |run|
  {
    if run != [] {
      assert Sound(e.records[id], e.Armed(id));
      RunKeepsSound(e, [run[0]]);
      assert Ran(Acted(e, run[0]), []) == Acted(e, run[0]);
      TerminalStays(Acted(e, run[0]), run[1..], id);
    }
  }

  lemma {:induction false} AnnouncedMore(us: seq<Update>, more: seq<Update>, id: string)
    ensures Announced(us + more, id) == Announced(us, id) + Announced(more, id)
  {
    if more == [] {
      assert us + more == us;
    } else {
      assert (us + more)[..|us + more| - 1] == us + more[..|more| - 1];
      AnnouncedMore(us, more[..|more| - 1], id);
    }
  }

  lemma {:induction false} NothingAnnounced(us: seq<Update>, id: string)
    requires forall u <- us :: u.id != id
    ensures Announced(us, id) == 0
  {
    if us != [] { NothingAnnounced(us[..|us| - 1], id); }
  }

  lemma ArmedFits(e: Engine, id: string)
    requires EngineSound(e) && id in e.timers
    ensures id in e.records && Fitting(e.records[id], Some(e.timers[id]))
  {
    assert Sound(e.records[id], e.Armed(id));
  }

  /** One callback announces exactly what its record recovers by it, and nothing for others. */
  lemma FireKeepsTracked(e: Engine, id: string, ch: Chance, other: string)
    requires EngineSound(e) && Possible(e, Fire(id, ch)) && Tracked(e, other)
    ensures Tracked(Acted(e, Fire(id, ch)), other)
  {
    ArmedFits(e, id);
    FiredKeepsTracked(e, id, Fired(id, e.records[id], e.timers[id], ch), other) by {
      FiredAnnounces(id, e.records[id], e.timers[id], ch);
      FiredDelta(id, e.records[id], e.timers[id], ch);
    }
  }

  lemma FiredKeepsTracked(e: Engine, id: string, m: Moved, other: string)
    requires id in e.records && Tracked(e, other) && forall u <- m.updates :: u.id == id
    requires Announced(m.updates, id) + RecoveredPaise(e.records[id]) == RecoveredPaise(m.r)
    ensures Tracked(After(e, id, m), other)
  {
    AnnouncedMore(e.emitted, m.updates, other);
    if other != id { NothingAnnounced(m.updates, other); }
  }

  lemma FiredAnnounces(id: string, r: Rec, cb: Callback, ch: Chance)
    requires Fitting(r, Some(cb))
    ensures var m := Fired(id, r, cb, ch);
            Announced(m.updates, id) + RecoveredPaise(r) == RecoveredPaise(m.r)
  {
    var m := Fired(id, r, cb, ch);
    FiredDelta(id, r, cb, ch);
    if m.updates != [] {
      assert m.updates[..|m.updates| - 1] == [];
    }
  }

  lemma {:induction false} RunKeepsTracked(e: Engine, run: seq<Action>, id: string)
    requires EngineSound(e) && ValidRun(e, run) && Tracked(e, id)
    ensures Tracked(Ran(e, run), id)
    decreases |run|
  {
    if run != [] {
      if run[0].Fire? {
        FireKeepsTracked(e, run[0].id, run[0].ch, id);
      }
      assert Ran(Acted(e, run[0]), []) == Acted(e, run[0]);
      RunKeepsSound(e, [run[0]]);
      RunKeepsTracked(Acted(e, run[0]), run[1..], id);
    }
  }

  // ---- a whole batch ------------------------------------------------------------------------

  /** Everything a listener of the batch has seen recovered. */
  function Streamed(us: seq<Update>, batch: seq<string>): nat {
    if us == [] then 0
    else Streamed(us[..|us| - 1], batch) + if us[|us| - 1].id in batch then us[|us| - 1].deltaPaise else 0
  }

  function AnnouncedByAll(us: seq<Update>, batch: seq<string>): nat {
    if batch == [] then 0
    else AnnouncedByAll(us, batch[..|batch| - 1]) + Announced(us, batch[|batch| - 1])
  }

  predicate Distinct(batch: seq<string>) {
    forall i, j :: 0 <= i < j < |batch| ==> batch[i] != batch[j]
  }

  lemma {:induction false} OneUpdateMore(us: seq<Update>, u: Update, batch: seq<string>)
    requires Distinct(batch)
    ensures AnnouncedByAll(us + [u], batch)
            == AnnouncedByAll(us, batch) + if u.id in batch then u.deltaPaise else 0
  {
    if batch != [] {
      var init, last := batch[..|batch| - 1], batch[|batch| - 1];
      OneUpdateMore(us, u, init);
      assert (us + [u])[..|us|] == us;
      assert batch == init + [last] && last !in init;
    }
  }

  lemma {:induction false} StreamedIsAnnounced(us: seq<Update>, batch: seq<string>)
    requires Distinct(batch)
    ensures Streamed(us, batch) == AnnouncedByAll(us, batch)
  {
    if us == [] {
      NoUpdates(batch);
    } else {
      var init, last := us[..|us| - 1], us[|us| - 1];
      StreamedIsAnnounced(init, batch);
      OneUpdateMore(init, last, batch);
      assert us == init + [last];
    }
  }

  lemma {:induction false} NoUpdates(batch: seq<string>)
    ensures AnnouncedByAll([], batch) == 0
  {
    if batch != [] { NoUpdates(batch[..|batch| - 1]); }
  }

  /** recovered_paise of the batch's records. */
  function BatchRecovered(records: map<string, Rec>, batch: seq<string>): nat {
    if batch == [] then 0
    else
      var last := batch[|batch| - 1];
      BatchRecovered(records, batch[..|batch| - 1]) + if last in records then RecoveredPaise(records[last]) else 0
  }

  lemma {:induction false} TrackedBatch(e: Engine, batch: seq<string>)
    requires forall id <- batch :: Tracked(e, id)
    ensures AnnouncedByAll(e.emitted, batch) == BatchRecovered(e.records, batch)
  {
    if batch != [] {
      TrackedBatch(e, batch[..|batch| - 1]);
      assert batch[|batch| - 1] in batch;
    }
  }

  /** For a listener there from the start of a demo batch, the streamed deltas sum to the batch's
      recovered amount after every run, whatever else the engine is doing. */
  lemma StreamSumsToRecovered(e: Engine, run: seq<Action>, batch: seq<string>)
    requires EngineSound(e) && ValidRun(e, run) && Distinct(batch)
    requires forall id <- batch :: id !in e.records && forall u <- e.emitted :: u.id != id
    ensures Streamed(Ran(e, run).emitted, batch) == BatchRecovered(Ran(e, run).records, batch)
  {
    forall id <- batch ensures Tracked(Ran(e, run), id) {
      NothingAnnounced(e.emitted, id);
      RunKeepsTracked(e, run, id);
    }
    StreamedIsAnnounced(Ran(e, run).emitted, batch);
    TrackedBatch(Ran(e, run), batch);
  }

  /** The records the constructor leaves scheduled are sound too, with no timer behind them. */
  lemma TimelineRecordSound(amount: nat, bucket: Bucket, dueAt: int)
    requires bucket.TransientBank? || bucket.InsufficientFunds?
    ensures Sound(TimelineRecord(amount, bucket, dueAt), None)
  {
    var r := NewRecord(amount, bucket);
    MoveKept(r, Scoring);
    MoveKept(WithEntry(r, Scoring, 0, 0), RetryScheduled);
    WaitingSound(WithEntry(WithEntry(r, Scoring, 0, 0), RetryScheduled, 0, 0), dueAt);
  }

  lemma WaitingSound(r: Rec, dueAt: int)
    requires Traced(r) && Noted(r.entries, r.interventions) && r.state.RetryScheduled? && !r.processed
    requires r.interventions == [] && (r.bucket.TransientBank? || r.bucket.InsufficientFunds?)
    ensures Sound(r.(dueAt := Some(dueAt)), None)
  {}

  lemma MoveKept(r: Rec, to: RecordState)
    requires Traced(r) && Noted(r.entries, r.interventions) && Edge(r.state, to) && !to.Executing()
    ensures var r' := WithEntry(r, to, 0, 0); Traced(r') && Noted(r'.entries, r'.interventions)
  {
    TrailExtends(r.entries, Entry(r.state, to, 0, 0));
    NotedMove(r.entries, r.interventions, Entry(r.state, to, 0, 0));
  }
}
