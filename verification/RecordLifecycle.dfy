/** The record state machine of web/src/lib/mockEngine.ts. Each timer callback is one atomic step; what
    Math.random would decide is a parameter. */
module RecordLifecycle {
  import opened Prelude
  import opened Domain

  datatype RecordState =
    | New | Scoring | RetryScheduled | Retrying | NudgeScheduled | Nudged
    | Recovered | Escalated | ClosedUneconomic
  {
    predicate Terminal() {
      Recovered? || Escalated? || ClosedUneconomic?
    }

    predicate Scheduled() {
      RetryScheduled? || NudgeScheduled?
    }

    predicate Executing() {
      Retrying? || Nudged?
    }
  }

  datatype Entry = Entry(from: RecordState, to: RecordState, attempt: nat, cost: nat)

  datatype Intervention = Intervention(action: ActionType, cost: nat, amount: nat, success: bool)

  datatype Rec = Rec(
    amount: nat, state: RecordState, bucket: Bucket, attempts: nat,
    entries: seq<Entry>, interventions: seq<Intervention>, processed: bool, dueAt: Option<int>)

  // ---- the decision helpers -----------------------------------------------------------------

  predicate NudgeBucket(b: Bucket) {
    b.HardDecline? || b.UserActionNeeded? || b.Abandonment? || b.Overdue?
  }

  function NudgeActionFor(b: Bucket): ActionType {
    if b.HardDecline? || b.UserActionNeeded? then NudgeMethodUpdate else NudgeReminder
  }

  function DecideAction(b: Bucket, attempts: nat): ActionType {
    if b.RiskHold? then Escalate
    else if NudgeBucket(b) then (if attempts == 0 then NudgeActionFor(b) else Escalate)
    else if attempts >= 3 then Escalate
    else Retry
  }

  function ScheduledStateFor(a: ActionType): RecordState {
    if a.Retry? then RetryScheduled
    else if IsNudge(a) then NudgeScheduled
    else if a.Escalate? then Escalated
    else ClosedUneconomic
  }

  function ExecutingStateFor(a: ActionType): RecordState {
    if a.Retry? then Retrying else Nudged
  }

  function ActionCostPaise(a: ActionType): nat {
    match a
    case Retry => 20
    case NudgeMethodUpdate => 35
    case NudgeReminder => 25
    case _ => 0
  }

  /** How many interventions a bucket may ever see. */
  function Budget(b: Bucket): nat {
    if b.RiskHold? then 0 else if NudgeBucket(b) then 1 else 3
  }

  // ---- one record under one callback --------------------------------------------------------

  /** addEntry: append to the trail and move. */
  function WithEntry(r: Rec, to: RecordState, attempt: nat, cost: nat): Rec {
    r.(entries := r.entries + [Entry(r.state, to, attempt, cost)], state := to)
  }

  /** The callback a timer holds for a record. */
  datatype Callback =
    | StepDue
    | ExecuteDue(action: ActionType)
    | SettleDue(action: ActionType, success: bool)
    | ReprocessDue

  datatype Update = Update(id: string, from: RecordState, to: RecordState, deltaPaise: nat)

  /** What the random draws and the clock give one callback. */
  datatype Chance = Chance(bucket: Bucket, success: bool, dueAt: int)

  /** A record, the callback armed for it, and what was emitted on the way. */
  datatype Moved = Moved(r: Rec, armed: Option<Callback>, updates: seq<Update>)

  function Stepped(id: string, r: Rec, ch: Chance): Moved {
    if r.processed then Moved(r, None, [])
    else if r.state.Terminal() then Moved(r.(processed := true), None, [])
    else if r.state.New? then
      Moved(WithEntry(r.(bucket := ch.bucket), Scoring, 0, 0), Some(StepDue), [Update(id, New, Scoring, 0)])
    else if r.state.Scoring? then
      var action := DecideAction(r.bucket, r.attempts);
      if action.Escalate? then
        Moved(WithEntry(r, Escalated, 0, 0).(processed := true), None, [Update(id, Scoring, Escalated, 0)])
      else
        var to := ScheduledStateFor(action);
        Moved(WithEntry(r.(dueAt := Some(ch.dueAt)), to, 0, 0), Some(ExecuteDue(action)), [Update(id, Scoring, to, 0)])
    else Moved(r, None, [])
  }

  function Executed(id: string, r: Rec, action: ActionType, ch: Chance): Moved {
    if r.processed then Moved(r, None, [])
    else
      var to, cost := ExecutingStateFor(action), ActionCostPaise(action);
      var r' := WithEntry(r.(dueAt := None, attempts := r.attempts + 1), to, r.attempts + 1, cost);
      Moved(r'.(interventions := r.interventions + [Intervention(action, cost, r.amount, ch.success)]),
            Some(SettleDue(action, ch.success)), [Update(id, r.state, to, 0)])
  }

  function Settled(id: string, r: Rec, action: ActionType, success: bool): Moved {
    if success then
      Moved(WithEntry(r, Recovered, 0, 0).(processed := true), None, [Update(id, r.state, Recovered, r.amount)])
    else if r.attempts >= 3 || (IsNudge(action) && r.attempts >= 2) then
      Moved(WithEntry(r, Escalated, 0, 0).(processed := true), None, [Update(id, r.state, Escalated, 0)])
    else
      Moved(WithEntry(r, Scoring, 0, 0), Some(ReprocessDue), [Update(id, r.state, Scoring, 0)])
  }

  function Fired(id: string, r: Rec, cb: Callback, ch: Chance): Moved {
    match cb
    case StepDue => Stepped(id, r, ch)
    case ExecuteDue(action) => Executed(id, r, action, ch)
    case SettleDue(action, success) => Settled(id, r, action, success)
    case ReprocessDue => Moved(r, if r.processed then None else Some(StepDue), [])
  }

  // ---- the invariant of a record ------------------------------------------------------------

  /** The edges a trail may take. */
  predicate Edge(from: RecordState, to: RecordState) {
    match from
    case New => to.Scoring?
    case Scoring => to.RetryScheduled? || to.NudgeScheduled? || to.Escalated?
    case RetryScheduled => to.Retrying?
    case NudgeScheduled => to.Nudged?
    case Retrying => to.Recovered? || to.Escalated? || to.Scoring?
    case Nudged => to.Recovered? || to.Scoring?
    case _ => false
  }

  /** An unbroken path from NEW to `state`. */
  predicate Trail(entries: seq<Entry>, state: RecordState) {
    if entries == [] then state.New?
    else
      var last := entries[|entries| - 1];
      last.to == state && Edge(last.from, last.to) && Trail(entries[..|entries| - 1], last.from)
  }

  function ExecutedEntries(entries: seq<Entry>): nat {
    if entries == [] then 0
    else ExecutedEntries(entries[..|entries| - 1]) + if entries[|entries| - 1].to.Executing() then 1 else 0
  }

  /** What the successful interventions recovered. */
  function SuccessPaise(ivs: seq<Intervention>): nat {
    if ivs == [] then 0
    else SuccessPaise(ivs[..|ivs| - 1]) + if ivs[|ivs| - 1].success then ivs[|ivs| - 1].amount else 0
  }

  /** How far into its budget a record is; it is given up only when the budget is used up. */
  predicate BudgetLeft(r: Rec) {
    match r.state
    case New => r.attempts == 0
    case RetryScheduled => !NudgeBucket(r.bucket) && !r.bucket.RiskHold? && r.attempts < 3
    case NudgeScheduled => NudgeBucket(r.bucket) && r.attempts == 0
    case Retrying => !NudgeBucket(r.bucket) && !r.bucket.RiskHold? && 0 < r.attempts <= 3
    case Nudged => NudgeBucket(r.bucket) && r.attempts == 1
    case Scoring => r.attempts <= Budget(r.bucket) && r.attempts < 3
    case Escalated => r.attempts == Budget(r.bucket)
    case _ => r.attempts <= Budget(r.bucket)
  }

  /** The armed callback matches the state; without one a record is terminal, not yet started, or one of
      the records seeded to stay scheduled. */
  predicate ArmedRight(r: Rec, armed: Option<Callback>) {
    match armed
    case None => r.state.Terminal() || r.state.New? || r.state.RetryScheduled?
    case Some(StepDue) => r.state.New? || r.state.Scoring?
    case Some(ReprocessDue) => r.state.Scoring?
    case Some(ExecuteDue(action)) => r.state.Scheduled() && action == DecideAction(r.bucket, r.attempts)
    case Some(SettleDue(action, _)) => r.state.Executing() && r.state == ExecutingStateFor(action)
                                       && (action.Retry? || IsNudge(action))
  }

  /** What the interventions have earned is what is recovered, or about to be. */
  predicate Earned(r: Rec, armed: Option<Callback>) {
    SuccessPaise(r.interventions)
    == if r.state.Recovered? then r.amount
       else if armed.Some? && armed.value.SettleDue? && armed.value.success then r.amount
       else 0
  }

  /** The trail is a path to the current state and counts the attempts. */
  predicate Traced(r: Rec) {
    Trail(r.entries, r.state) && r.attempts == |r.interventions| == ExecutedEntries(r.entries)
  }

  /** Flags, due time, budget and callback fit the state. */
  predicate Fitting(r: Rec, armed: Option<Callback>) {
    && (r.processed <==> r.state.Terminal())
    && (r.dueAt.Some? <==> r.state.Scheduled())
    && r.attempts <= Budget(r.bucket) && BudgetLeft(r) && r.bucket != BucketUnspecified
    && ArmedRight(r, armed)
  }

  /** The one action a bucket calls for, and what an attempt of it costs in paise. */
  predicate Priced(b: Bucket, action: ActionType, cost: nat) {
    match b
    case TransientBank => action == Retry && cost == 20
    case InsufficientFunds => action == Retry && cost == 20
    case HardDecline => action == NudgeMethodUpdate && cost == 35
    case UserActionNeeded => action == NudgeMethodUpdate && cost == 35
    case Abandonment => action == NudgeReminder && cost == 25
    case Overdue => action == NudgeReminder && cost == 25
    case _ => false
  }

  /** Every intervention is the action of the bucket at its price, on the record's whole amount. */
  predicate Charged(r: Rec) {
    forall iv <- r.interventions :: Priced(r.bucket, iv.action, iv.cost) && iv.amount == r.amount
  }

  /** Only the last attempt can have succeeded, and then the record is recovered or about to be. */
  predicate Won(r: Rec, armed: Option<Callback>) {
    var won := r.state.Recovered? || (armed.Some? && armed.value.SettleDue? && armed.value.success);
    && (forall i :: 0 <= i < |r.interventions| - 1 ==> !r.interventions[i].success)
    && (won ==> r.interventions != [])
    && (r.interventions != [] ==> r.interventions[|r.interventions| - 1].success == won)
  }

  /** The trail numbers its executed entries from 1 and repeats the price of each attempt; other entries
      carry neither. */
  predicate Noted(entries: seq<Entry>, ivs: seq<Intervention>) {
    if entries == [] then ivs == []
    else
      var init, last := entries[..|entries| - 1], entries[|entries| - 1];
      if last.to.Executing() then
        && ivs != [] && last.attempt == |ivs| && last.cost == ivs[|ivs| - 1].cost
        && Noted(init, ivs[..|ivs| - 1])
      else last.attempt == 0 && last.cost == 0 && Noted(init, ivs)
  }

  /** The accounts of a record. */
  predicate Booked(r: Rec, armed: Option<Callback>) {
    Charged(r) && Won(r, armed) && Noted(r.entries, r.interventions)
  }

  predicate Sound(r: Rec, armed: Option<Callback>) {
    Traced(r) && Fitting(r, armed) && Earned(r, armed) && Booked(r, armed)
  }

  lemma TrailExtends(entries: seq<Entry>, e: Entry)
    requires Trail(entries, e.from) && Edge(e.from, e.to)
    ensures Trail(entries + [e], e.to)
    ensures ExecutedEntries(entries + [e]) == ExecutedEntries(entries) + if e.to.Executing() then 1 else 0
  {
    assert (entries + [e])[..|entries|] == entries;
  }

  lemma InterventionEarns(ivs: seq<Intervention>, iv: Intervention)
    ensures SuccessPaise(ivs + [iv]) == SuccessPaise(ivs) + if iv.success then iv.amount else 0
  {
    assert (ivs + [iv])[..|ivs|] == ivs;
  }

  /** A callback moves a record along the lifecycle graph. */
  lemma FiredFitting(id: string, r: Rec, cb: Callback, ch: Chance)
    requires Fitting(r, Some(cb)) && ch.bucket != BucketUnspecified
    ensures var m := Fired(id, r, cb, ch);
            Fitting(m.r, m.armed) && (m.r.state != r.state ==> Edge(r.state, m.r.state))
  {}

  /** A callback that moves a record adds exactly that move to its trail, one that does not leaves the
      trail alone; interventions grow exactly with executed entries. */
  lemma FiredTrail(id: string, r: Rec, cb: Callback, ch: Chance)
    requires Fitting(r, Some(cb))
    ensures var m := Fired(id, r, cb, ch);
            && (m.r.entries == r.entries
                || (exists attempt: nat, cost: nat ::
                      m.r.entries == r.entries + [Entry(r.state, m.r.state, attempt, cost)]))
            && (m.r.entries == r.entries <==> m.r.state == r.state)
            && m.r.attempts == r.attempts + (if m.r.state.Executing() && m.r.state != r.state then 1 else 0)
            && |m.r.interventions|
               == |r.interventions| + (if m.r.state.Executing() && m.r.state != r.state then 1 else 0)
  {}

  lemma FiredTraced(id: string, r: Rec, cb: Callback, ch: Chance)
    requires Traced(r) && Fitting(r, Some(cb)) && ch.bucket != BucketUnspecified
    ensures Traced(Fired(id, r, cb, ch).r)
  {
    var m := Fired(id, r, cb, ch);
    FiredFitting(id, r, cb, ch);
    FiredTrail(id, r, cb, ch);
    if m.r.state != r.state {
      var attempt: nat, cost: nat :| m.r.entries == r.entries + [Entry(r.state, m.r.state, attempt, cost)];
      TrailExtends(r.entries, Entry(r.state, m.r.state, attempt, cost));
    }
  }

  lemma FiredEarned(id: string, r: Rec, cb: Callback, ch: Chance)
    requires Fitting(r, Some(cb)) && Earned(r, Some(cb))
    ensures var m := Fired(id, r, cb, ch); Earned(m.r, m.armed)
  {
    if cb.ExecuteDue? {
      InterventionEarns(r.interventions, Intervention(cb.action, ActionCostPaise(cb.action), r.amount, ch.success));
    }
  }

  lemma NotedMove(entries: seq<Entry>, ivs: seq<Intervention>, e: Entry)
    requires Noted(entries, ivs) && !e.to.Executing() && e.attempt == 0 && e.cost == 0
    ensures Noted(entries + [e], ivs)
  {
    assert (entries + [e])[..|entries|] == entries;
  }

  lemma NotedAttempt(entries: seq<Entry>, ivs: seq<Intervention>, e: Entry, iv: Intervention)
    requires Noted(entries, ivs) && e.to.Executing() && e.attempt == |ivs| + 1 && e.cost == iv.cost
    ensures Noted(entries + [e], ivs + [iv])
  {
    assert (entries + [e])[..|entries|] == entries && (ivs + [iv])[..|ivs|] == ivs;
  }

  lemma FiredNoted(id: string, r: Rec, cb: Callback, ch: Chance)
    requires Noted(r.entries, r.interventions) && Fitting(r, Some(cb)) && r.attempts == |r.interventions|
    ensures var m := Fired(id, r, cb, ch); Noted(m.r.entries, m.r.interventions)
  {
    var m := Fired(id, r, cb, ch);
    if cb.ExecuteDue? {
      var cost := ActionCostPaise(cb.action);
      NotedAttempt(r.entries, r.interventions, Entry(r.state, ExecutingStateFor(cb.action), r.attempts + 1, cost),
                   Intervention(cb.action, cost, r.amount, ch.success));
    } else if m.r.state != r.state {
      NotedMove(r.entries, r.interventions, Entry(r.state, m.r.state, 0, 0));
    }
  }

  lemma FiredCharged(id: string, r: Rec, cb: Callback, ch: Chance)
    requires Charged(r) && Fitting(r, Some(cb)) && r.attempts == |r.interventions|
    ensures Charged(Fired(id, r, cb, ch).r)
  {}

  lemma FiredWon(id: string, r: Rec, cb: Callback, ch: Chance)
    requires Won(r, Some(cb)) && Fitting(r, Some(cb)) && r.attempts == |r.interventions|
    ensures var m := Fired(id, r, cb, ch); Won(m.r, m.armed)
  {}

  /** What the draws decide of one callback: classification sets the bucket and nothing else does, the
      wait ends when the clock says, and the attempt goes as rolled. */
  lemma FiredByChance(id: string, r: Rec, cb: Callback, ch: Chance)
    requires Fitting(r, Some(cb))
    ensures var m := Fired(id, r, cb, ch);
            && m.r.bucket == (if r.state.New? && cb.StepDue? then ch.bucket else r.bucket)
            && (m.r.state.Scheduled() && !r.state.Scheduled() ==> m.r.dueAt == Some(ch.dueAt))
            && (m.r.state.Executing() && !r.state.Executing() ==>
                  m.armed == Some(SettleDue(DecideAction(r.bucket, r.attempts), ch.success)))
            && (cb.SettleDue? ==> (m.r.state.Recovered? <==> cb.success))
            && (cb.SettleDue? && !m.r.state.Terminal() ==> m.armed == Some(ReprocessDue))
            && (cb.ReprocessDue? ==> m.r == r && m.armed == Some(StepDue))
  {}

  /** Every callback, whatever the draws, keeps the record sound. */
  lemma FiredSound(id: string, r: Rec, cb: Callback, ch: Chance)
    requires Sound(r, Some(cb)) && ch.bucket != BucketUnspecified
    ensures var m := Fired(id, r, cb, ch); Sound(m.r, m.armed)
  {
    FiredFitting(id, r, cb, ch);
    FiredTraced(id, r, cb, ch);
    FiredEarned(id, r, cb, ch);
    FiredCharged(id, r, cb, ch);
    FiredWon(id, r, cb, ch);
    FiredNoted(id, r, cb, ch);
  }

  /** What a callback announces is what it recovers: the deltas it emits change with the record. */
  lemma FiredDelta(id: string, r: Rec, cb: Callback, ch: Chance)
    requires Fitting(r, Some(cb))
    ensures var m := Fired(id, r, cb, ch);
            && |m.updates| <= 1 && m.r.amount == r.amount
            && (forall u <- m.updates :: u.id == id && u.from == r.state && u.to == m.r.state)
            && (m.updates != [] ==> m.updates[0].deltaPaise == if m.r.state.Recovered? then r.amount else 0)
            && (m.updates == [] ==> m.r.state == r.state)
  {}
}
