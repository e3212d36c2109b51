/** Whole runs of the World Simulator: batches are seeded, calls arrive and the poller drains, in any
    order. What makes two such runs answer alike, and what does not. */
module SeededRuns {
  import opened Prelude
  import opened Decimal
  import opened Domain
  import opened MemberCodec
  import opened OutcomeQueues
  import opened SyntheticRecords
  import opened WorldSimulator
  import opened Seeding

  /** The server's seed, the rows stored by all its batches so far, and the queue. */
  datatype Sim = Sim(seed: int, rows: seq<Row>, entries: map<string, int>)

  /** A SimulateOutcome call: `other` is what the store answers for a record no batch has seeded. */
  datatype Call = Call(req: Request, other: Lookup, now: int, shared: real, zaddOk: bool)

  datatype Step =
    | Seeds(batch: Batch)
    | Calls(call: Call)
    | Drains(taken: seq<string>)

  function Found(s: Sim, c: Call): Lookup {
    var l := Stored(s.rows, c.req.recordId);
    if l.Missing? then c.other else l
  }

  function Answered(w: World, s: Sim, c: Call): (Response, map<string, int>) {
    Simulated(w, s.seed, s.entries, Found(s, c), c.req, c.now, c.shared, c.zaddOk)
  }

  function Stepped<R>(w: World, recipe: Recipe<R>, s: Sim, step: Step): Sim {
    match step
    case Seeds(b) => s.(seed := if b.Accepted() then b.Seed() else s.seed, rows := s.rows + b.Rows(recipe))
    case Calls(c) => s.(entries := Answered(w, s, c).1)
    case Drains(taken) => s.(entries := Without(s.entries, taken))
  }

  function Ran<R>(w: World, recipe: Recipe<R>, s: Sim, steps: seq<Step>): Sim {
    if steps == [] then s
    else Stepped(w, recipe, Ran(w, recipe, s, steps[..|steps| - 1]), steps[|steps| - 1])
  }

  /** The seed the last accepted batch request of the run stored, or `seed` when there was none. */
  function LastSeed(seed: int, steps: seq<Step>): int {
    if steps == [] then seed
    else
      var last := steps[|steps| - 1];
      if last.Seeds? && last.batch.Accepted() then last.batch.Seed() else LastSeed(seed, steps[..|steps| - 1])
  }

  /** Calls and drains leave seed and rows alone; a batch overwrites the one and extends the other. */
  lemma {:induction false} RunKeepsRows<R>(w: World, recipe: Recipe<R>, s: Sim, steps: seq<Step>)
    ensures Ran(w, recipe, s, steps).seed == LastSeed(s.seed, steps)
    ensures s.rows <= Ran(w, recipe, s, steps).rows
  {
    if steps != [] { RunKeepsRows(w, recipe, s, steps[..|steps| - 1]); }
  }

  // ---- one verdict --------------------------------------------------------------------------

  /** The odds a call is rolled against. */
  function Odds(p: Profile, action: ActionType): real {
    if action == CorrectActionFor(p.trueBucket) then p.recoveryProbability else p.wrongActionProbability
  }

  /** A draw function and the shared source's next value in two runs, all in [0, 1). */
  ghost predicate Draws(draw: string -> real, u: real, v: real) {
    (forall x :: 0.0 <= draw(x) < 1.0) && 0.0 <= u < 1.0 && 0.0 <= v < 1.0
  }

  predicate Verdict(draw: string -> real, seed: int, rp: RecordProfile, attempt: int32, action: ActionType,
                    shared: real)
  {
    (if seed != 0 then draw(RollInput(seed, rp.rollKey, attempt)) else shared) < Odds(rp.profile, action)
  }

  lemma VerdictIsSuccess(w: World, seed: int, rp: RecordProfile, req: Request, shared: real)
    requires rp.rollKey != ""
    ensures Succeeds(w, seed, Sealed(rp), req, shared)
            <==> Verdict(w.draw, seed, rp, req.attempt, req.action, shared)
  {}

  /** Under every draw the two seeds give `rp` the same verdict. */
  ghost predicate AlwaysAgree(seed: int, seed': int, rp: RecordProfile, attempt: int32, action: ActionType) {
    forall draw: string -> real, u: real, v: real | Draws(draw, u, v) ::
      Verdict(draw, seed, rp, attempt, action, u) == Verdict(draw, seed', rp, attempt, action, v)
  }

  /** A draw that succeeds under `seed` alone. */
  lemma SeedsCanDiffer(seed: int, seed': int, rp: RecordProfile, attempt: int32, action: ActionType)
    returns (draw: string -> real, u: real, v: real)
    requires 0.0 < Odds(rp.profile, action) < 1.0 && (seed != seed' || seed == 0)
    ensures Draws(draw, u, v)
    ensures Verdict(draw, seed, rp, attempt, action, u) && !Verdict(draw, seed', rp, attempt, action, v)
  {
    var p := Odds(rp.profile, action);
    var hit := RollInput(seed, rp.rollKey, attempt);
    draw, u, v := x => if x == hit then 0.0 else p, 0.0, p;
    if RollInput(seed', rp.rollKey, attempt) == hit {
      RollInputInjective(seed, rp.rollKey, attempt, seed', rp.rollKey, attempt);
    }
  }

  /** Two servers agree on a record whatever the draws exactly when they hold the same nonzero seed, or
      the odds leave nothing to chance. */
  lemma AgreesExactly(seed: int, seed': int, rp: RecordProfile, attempt: int32, action: ActionType)
    ensures AlwaysAgree(seed, seed', rp, attempt, action)
            <==> seed == seed' != 0 || Odds(rp.profile, action) <= 0.0 || Odds(rp.profile, action) >= 1.0
  {
    var p := Odds(rp.profile, action);
    if 0.0 < p < 1.0 && (seed != seed' || seed == 0) {
      var draw, u, v := SeedsCanDiffer(seed, seed', rp, attempt, action);
    }
  }

  // ---- what a run leaves pending ------------------------------------------------------------

  /** The call, made in state `s`, is one that queues `m`. */
  predicate Queues(w: World, s: Sim, c: Call, m: string) {
    var l := Found(s, c);
    && c.req.recordId != "" && (l.Sealed? || l.Unsealed?) && Delays(w, l, c.req)
    && m == Member(Scheduled(w, s.seed, l, c.req, c.shared))
  }

  lemma StepQueues<R>(w: World, recipe: Recipe<R>, s: Sim, step: Step, m: string)
    requires m in Stepped(w, recipe, s, step).entries
    ensures m in s.entries || (step.Calls? && Queues(w, s, step.call, m))
  {
    if step.Drains? { WithoutIs(s.entries, step.taken); }
  }

  /** Some call of the run queued `m`. */
  ghost predicate QueuedBy<R>(w: World, recipe: Recipe<R>, s: Sim, steps: seq<Step>, m: string) {
    exists k: nat | k < |steps| && steps[k].Calls? :: Queues(w, Ran(w, recipe, s, steps[..k]), steps[k].call, m)
  }

  lemma QueuedEarlier<R>(w: World, recipe: Recipe<R>, s: Sim, steps: seq<Step>, m: string)
    requires steps != [] && QueuedBy(w, recipe, s, steps[..|steps| - 1], m)
    ensures QueuedBy(w, recipe, s, steps, m)
  {
    var init := steps[..|steps| - 1];
    var k: nat :| k < |init| && init[k].Calls? && Queues(w, Ran(w, recipe, s, init[..k]), init[k].call, m);
    assert init[..k] == steps[..k] && init[k] == steps[k];
  }

  /** Nothing is pending but what some call of the run queued. */
  lemma {:induction false} PendingComesFromCall<R>(w: World, recipe: Recipe<R>, s: Sim, steps: seq<Step>, m: string)
    requires m in Ran(w, recipe, s, steps).entries
    ensures m in s.entries || QueuedBy(w, recipe, s, steps, m)
  {
    if steps != [] {
      var n := |steps| - 1;
      var before := Ran(w, recipe, s, steps[..n]);
      StepQueues(w, recipe, before, steps[n], m);
      if m in before.entries {
        PendingComesFromCall(w, recipe, s, steps[..n], m);
        if m !in s.entries { QueuedEarlier(w, recipe, s, steps, m); }
      }
    }
  }

  predicate IsFor(m: string, id: string, attempt: int32) {
    match ParseMember(m) case Ok(d) => d.recordId == id && d.attemptNumber == attempt case Err => false
  }

  /** The nudges the run asks for, for one record and attempt. */
  function NudgesFor(steps: seq<Step>, id: string, attempt: int32): set<ActionType> {
    set k | 0 <= k < |steps| && steps[k].Calls? && IsNudge(steps[k].call.req.action)
            && steps[k].call.req.recordId == id && steps[k].call.req.attempt == attempt
          :: steps[k].call.req.action
  }

  /** Every call for the record and attempt meets the same seed and the same profile. */
  ghost predicate Steady<R>(w: World, recipe: Recipe<R>, s: Sim, steps: seq<Step>, id: string, attempt: int32,
                            seed: int, l: Lookup) {
    forall k: nat | k < |steps| && steps[k].Calls?
                    && steps[k].call.req.recordId == id && steps[k].call.req.attempt == attempt ::
      var t := Ran(w, recipe, s, steps[..k]);
      t.seed == seed && Found(t, steps[k].call) == l
  }

  /** With a steady nonzero seed and profile, repeated calls keep at most one pending entry per record,
      attempt and action, among any other calls, batches and drains. Record ids hold no separator. */
  lemma OneEntryPerAttempt<R>(w: World, recipe: Recipe<R>, s: Sim, steps: seq<Step>, id: string, attempt: int32,
                              seed: int, l: Lookup, m: string)
    requires seed != 0 && (l.Sealed? || l.Unsealed?) && Steady(w, recipe, s, steps, id, attempt, seed, l)
    requires forall step <- steps :: step.Calls? ==> SEP !in step.call.req.recordId
    requires s.entries == map[] && m in Ran(w, recipe, s, steps).entries && IsFor(m, id, attempt)
    ensures m in set a <- NudgesFor(steps, id, attempt) :: Member(Scheduled(w, seed, l, Request(id, attempt, a), 0.0))
  {
    PendingComesFromCall(w, recipe, s, steps, m);
    var k: nat :| k < |steps| && steps[k].Calls? && Queues(w, Ran(w, recipe, s, steps[..k]), steps[k].call, m);
    assert steps[k] in steps;
    QueuedFor(w, Ran(w, recipe, s, steps[..k]), steps[k].call, m, id, attempt);
    SharedDrawUnused(w, seed, l, steps[k].call.req, steps[k].call.shared);
  }

  lemma QueuedFor(w: World, s: Sim, c: Call, m: string, id: string, attempt: int32)
    requires Queues(w, s, c, m) && IsFor(m, id, attempt) && SEP !in c.req.recordId
    ensures c.req == Request(id, attempt, c.req.action) && IsNudge(c.req.action)
  {
    MemberRoundTrip(Scheduled(w, s.seed, Found(s, c), c.req, c.shared));
  }

  lemma SharedDrawUnused(w: World, seed: int, l: Lookup, req: Request, shared: real)
    requires seed != 0 && (l.Sealed? || l.Unsealed?)
    ensures Scheduled(w, seed, l, req, shared) == Scheduled(w, seed, l, req, 0.0)
  {}

  // ---- two runs -----------------------------------------------------------------------------

  /** Two runs that each begin with a batch of the same nonzero seed, scenario and count, from any state
      and followed by anything, have both stored ordinal `i` by the end; ids are never reused. */
  ghost predicate SameBatch<R>(recipe: Recipe<R>, b: Batch, t: Sim, b': Batch, t': Sim, i: nat) {
    && b.requestedSeed == b'.requestedSeed != 0 && b.scenario == b'.scenario && b.count == b'.count
    && i < |b.Rows(recipe)| && i < |b'.Rows(recipe)|
    && FreshIds(t.rows) && FreshIds(t'.rows)
  }

  /** The row a batch stored is what the store answers with at any later time. */
  lemma RowIsFound<R>(w: World, recipe: Recipe<R>, s: Sim, b: Batch, steps: seq<Step>, i: nat, c: Call)
    requires i < |b.Rows(recipe)| && c.req.recordId == b.Rows(recipe)[i].recordId
    requires FreshIds(Ran(w, recipe, Stepped(w, recipe, s, Seeds(b)), steps).rows)
    ensures Found(Ran(w, recipe, Stepped(w, recipe, s, Seeds(b)), steps), c) == LookupOf(b.Rows(recipe)[i])
  {
    var first := Stepped(w, recipe, s, Seeds(b));
    var rows := Ran(w, recipe, first, steps).rows;
    RunKeepsRows(w, recipe, first, steps);
    var k := |s.rows| + i;
    assert rows[k] == first.rows[k] == b.Rows(recipe)[i];
    StoredAt(rows, k);
  }

  /** What ordinal `i` of a batch is rolled with. */
  function ProfileOfOrdinal<R>(recipe: Recipe<R>, b: Batch, i: nat): RecordProfile
    requires i < |b.Rows(recipe)|
  {
    LookupOf(b.Rows(recipe)[i]).rp
  }

  /** One request of two runs: the same ordinal, attempt and action, under each run's own id. */
  predicate SameRequest<R>(recipe: Recipe<R>, b: Batch, c: Call, b': Batch, c': Call, i: nat)
    requires i < |b.Rows(recipe)| && i < |b'.Rows(recipe)|
  {
    && c.req.recordId == b.Rows(recipe)[i].recordId && c'.req.recordId == b'.Rows(recipe)[i].recordId
    && c.req.recordId != "" && c'.req.recordId != ""
    && c.req.attempt == c'.req.attempt && c.req.action == c'.req.action && c.zaddOk == c'.zaddOk
  }

  /** The two servers answer alike: at once with the same result, or later with the same result. */
  ghost predicate SameAnswer(w: World, t: Sim, c: Call, t': Sim, c': Call) {
    var (r, after), (r', after') := Answered(w, t, c), Answered(w, t', c');
    if r.Pending? then
      && r'.Pending?
      && exists d: DelayedOutcome ::
           && d.recordId == c.req.recordId && d.attemptNumber == c.req.attempt
           && after == t.entries[Member(d) := Unix(r.resolvesAt)]
           && after' == t'.entries[Member(d.(recordId := c'.req.recordId)) := Unix(r'.resolvesAt)]
    else r == r' && after == t.entries && after' == t'.entries
  }

  /** The same record, attempt, action and luck. */
  predicate Alike(w: World, t: Sim, c: Call, t': Sim, c': Call) {
    && Found(t, c).Sealed? && Found(t, c) == Found(t', c') && c.req.recordId != "" && c'.req.recordId != ""
    && c.req.attempt == c'.req.attempt && c.req.action == c'.req.action && c.zaddOk == c'.zaddOk
    && (Succeeds(w, t.seed, Found(t, c), c.req, c.shared) <==> Succeeds(w, t'.seed, Found(t', c'), c'.req, c'.shared))
  }

  lemma PromptAlike(w: World, t: Sim, c: Call, t': Sim, c': Call)
    requires Alike(w, t, c, t', c') && (!Delays(w, Found(t, c), c.req) || !c.zaddOk)
    ensures SameAnswer(w, t, c, t', c')
  {}

  lemma DelayedAlike(w: World, t: Sim, c: Call, t': Sim, c': Call)
    requires Alike(w, t, c, t', c') && Delays(w, Found(t, c), c.req) && c.zaddOk
    ensures SameAnswer(w, t, c, t', c')
  {
    var l := Found(t, c);
    var d, d' := Scheduled(w, t.seed, l, c.req, c.shared), Scheduled(w, t'.seed, l, c'.req, c'.shared);
    assert d' == d.(recordId := c'.req.recordId);
    var r, r' := Answered(w, t, c).0, Answered(w, t', c').0;
    assert Answered(w, t, c).1 == t.entries[Member(d) := Unix(r.resolvesAt)];
    assert Answered(w, t', c').1 == t'.entries[Member(d') := Unix(r'.resolvesAt)];
  }

  /** Replay: the call for ordinal `i` is answered alike in both runs, whatever calls, drains and batches
      came before it, as long as the last batch seed stored is the same in both. */
  lemma SameSeedReplays<R>(w: World, recipe: Recipe<R>, s: Sim, b: Batch, steps: seq<Step>, c: Call,
                           s': Sim, b': Batch, steps': seq<Step>, c': Call, i: nat)
    requires var t := Ran(w, recipe, Stepped(w, recipe, s, Seeds(b)), steps);
             var t' := Ran(w, recipe, Stepped(w, recipe, s', Seeds(b')), steps');
             SameBatch(recipe, b, t, b', t', i) && SameRequest(recipe, b, c, b', c', i)
    requires LastSeed(b.requestedSeed, steps) == LastSeed(b'.requestedSeed, steps') != 0
    ensures SameAnswer(w, Ran(w, recipe, Stepped(w, recipe, s, Seeds(b)), steps), c,
                       Ran(w, recipe, Stepped(w, recipe, s', Seeds(b')), steps'), c')
  {
    var t := Ran(w, recipe, Stepped(w, recipe, s, Seeds(b)), steps);
    var t' := Ran(w, recipe, Stepped(w, recipe, s', Seeds(b')), steps');
    BothFound(w, recipe, s, b, steps, c, s', b', steps', c', i);
    VerdictIsSuccess(w, t.seed, ProfileOfOrdinal(recipe, b, i), c.req, c.shared);
    VerdictIsSuccess(w, t'.seed, ProfileOfOrdinal(recipe, b, i), c'.req, c'.shared);
    if Delays(w, Found(t, c), c.req) && c.zaddOk {
      DelayedAlike(w, t, c, t', c');
    } else {
      PromptAlike(w, t, c, t', c');
    }
  }

  lemma BothFound<R>(w: World, recipe: Recipe<R>, s: Sim, b: Batch, steps: seq<Step>, c: Call,
                     s': Sim, b': Batch, steps': seq<Step>, c': Call, i: nat)
    requires var t := Ran(w, recipe, Stepped(w, recipe, s, Seeds(b)), steps);
             var t' := Ran(w, recipe, Stepped(w, recipe, s', Seeds(b')), steps');
             SameBatch(recipe, b, t, b', t', i) && SameRequest(recipe, b, c, b', c', i)
    ensures var t := Ran(w, recipe, Stepped(w, recipe, s, Seeds(b)), steps);
            var t' := Ran(w, recipe, Stepped(w, recipe, s', Seeds(b')), steps');
            && Found(t, c) == Found(t', c') == Sealed(ProfileOfOrdinal(recipe, b, i))
            && ProfileOfOrdinal(recipe, b, i).rollKey != ""
            && t.seed == LastSeed(b.requestedSeed, steps) && t'.seed == LastSeed(b'.requestedSeed, steps')
  {
    RowIsFound(w, recipe, s, b, steps, i, c);
    RowIsFound(w, recipe, s', b', steps', i, c');
    SameSeedSameRecords(recipe, b, b', i);
    RunKeepsRows(w, recipe, Stepped(w, recipe, s, Seeds(b)), steps);
    RunKeepsRows(w, recipe, Stepped(w, recipe, s', Seeds(b')), steps');
  }

  /** Exactly when that is so for every draw: the last stored seeds are the same and not zero, or the odds
      of ordinal `i` under this action leave nothing to chance. */
  lemma ReplaysExactly<R>(w: World, recipe: Recipe<R>, s: Sim, b: Batch, steps: seq<Step>, c: Call,
                          s': Sim, b': Batch, steps': seq<Step>, c': Call, i: nat)
    requires var t := Ran(w, recipe, Stepped(w, recipe, s, Seeds(b)), steps);
             var t' := Ran(w, recipe, Stepped(w, recipe, s', Seeds(b')), steps');
             SameBatch(recipe, b, t, b', t', i) && SameRequest(recipe, b, c, b', c', i)
    ensures var t := Ran(w, recipe, Stepped(w, recipe, s, Seeds(b)), steps);
            var t' := Ran(w, recipe, Stepped(w, recipe, s', Seeds(b')), steps');
            var rp := ProfileOfOrdinal(recipe, b, i);
            && Found(t, c) == Found(t', c') == Sealed(rp)
            && (AlwaysAgree(t.seed, t'.seed, rp, c.req.attempt, c.req.action)
                <==> LastSeed(b.requestedSeed, steps) == LastSeed(b'.requestedSeed, steps') != 0
                     || Odds(rp.profile, c.req.action) <= 0.0 || Odds(rp.profile, c.req.action) >= 1.0)
  {
    BothFound(w, recipe, s, b, steps, c, s', b', steps', c', i);
    AgreesExactly(LastSeed(b.requestedSeed, steps), LastSeed(b'.requestedSeed, steps'),
                  ProfileOfOrdinal(recipe, b, i), c.req.attempt, c.req.action);
  }

  /** A caller keeps the seed by requesting no batch, or batches of that seed only, until the call. */
  lemma {:induction false} SeedKept(seed: int, steps: seq<Step>)
    requires forall step <- steps :: step.Seeds? && step.batch.Accepted() ==> step.batch.Seed() == seed
    ensures LastSeed(seed, steps) == seed
  {
    if steps != [] { SeedKept(seed, steps[..|steps| - 1]); }
  }

  // ---- a second batch in between ------------------------------------------------------------

  /** A source without surprises: every record is a payment that timed out at its bank. */
  function PlainRecipe(): Recipe<bool> {
    Recipe(Source(r => (0.5, r), (r, n) => (0, r)), _ => true, _ => 5000)
  }

  function PlainBatch(seed: int, id: string): Batch {
    Batch("normal", 1, seed, 0, Surroundings(_ => id, _ => "", _ => 0, true, true, _ => true, _ => true))
  }

  lemma PlainRows(seed: int, id: string)
    requires seed != 0
    ensures var rows := PlainBatch(seed, id).Rows(PlainRecipe());
            && |rows| == 1 && rows[0].recordId == id && rows[0].rollKey == "0"
            && rows[0].rec.failureCode == "BANK_TIMEOUT"
            && rows[0].rec.profile.trueBucket == TransientBank && rows[0].rec.profile.recoveryProbability == 0.80
  {
    var recipe, b := PlainRecipe(), PlainBatch(seed, id);
    var preset := ScenarioByName("normal").value;
    var next := recipe.Generator(preset, PoolSize(1));
    PlainRecord(true);
    assert RngAfter(next, true, 0) == true;
    assert RowsStored(b.world, 1, 1) == 1;
  }

  lemma PlainRecord(r: bool)
    ensures var rec := GenerateRecord(PlainRecipe().src, PlainRecipe().amountOf, r).0;
            && rec.failureCode == "BANK_TIMEOUT"
            && rec.profile.trueBucket == TransientBank && rec.profile.recoveryProbability == 0.80
  {
    var src := PlainRecipe().src;
    assert TypeForRoll(0) == Payment;
    var pool := CodePoolFor(Payment);
    assert pool[0] == CodeEntry("BANK_TIMEOUT", TransientBank);
  }

  lemma RetryAnswer(w: World, s: Sim, c: Call, rp: RecordProfile)
    requires Found(s, c) == Sealed(rp) && rp.rollKey == "0" && s.seed != 0 && c.req == Request("a", 1, Retry)
    requires rp.profile.trueBucket == TransientBank && rp.profile.recoveryProbability == 0.80
    ensures Answered(w, s, c).0
            == if w.draw(RollInput(s.seed, "0", 1)) < 0.80 then Immediate(true, "")
               else Immediate(false, rp.failureCode)
  {}

  /** The gap the source admits: seeding another batch while one is in play changes what becomes of it.
      The one record of a batch with seed 1 recovers on its first retry; with a batch of seed 2 seeded
      in between it does not. */
  lemma SecondBatchChangesAnswer()
    ensures var hit := RollInput(1, "0", 1);
            var w := World(x => if x == hit then 0.0 else 0.9, d => d);
            var s := Stepped(w, PlainRecipe(), Sim(0, [], map[]), Seeds(PlainBatch(1, "a")));
            var c := Call(Request("a", 1, Retry), Missing, 0, 0.0, true);
            && Answered(w, s, c).0 == Immediate(true, "")
            && Answered(w, Stepped(w, PlainRecipe(), s, Seeds(PlainBatch(2, "b"))), c).0
               == Immediate(false, "BANK_TIMEOUT")
  {
    var hit := RollInput(1, "0", 1);
    var w := World(x => if x == hit then 0.0 else 0.9, d => d);
    var s := Stepped(w, PlainRecipe(), Sim(0, [], map[]), Seeds(PlainBatch(1, "a")));
    var s' := Stepped(w, PlainRecipe(), s, Seeds(PlainBatch(2, "b")));
    var c := Call(Request("a", 1, Retry), Missing, 0, 0.0, true);
    PlainRows(1, "a");
    PlainRows(2, "b");
    assert s.rows == PlainBatch(1, "a").Rows(PlainRecipe());
    assert s'.rows[..1] == s.rows;
    RetryAnswer(w, s, c, LookupOf(s.rows[0]).rp);
    RetryAnswer(w, s', c, LookupOf(s.rows[0]).rp);
    if RollInput(2, "0", 1) == hit { RollInputInjective(2, "0", 1, 1, "0", 1); }
  }
}
