/** SimulateOutcome of demo/world-simulator/internal/server/server.go: one keyed roll per call, answered
    at once or scheduled. */
module WorldSimulator {
  import opened Prelude
  import opened Strings
  import opened Decimal
  import opened Domain
  import opened MemberCodec
  import opened OutcomeQueues
  import opened SyntheticRecords

  /** What the store holds for a seeded record. */
  datatype RecordProfile = RecordProfile(failureCode: string, profile: Profile, rollKey: string)

  // ---- bucket.go and outcome.go -------------------------------------------------------------

  function CorrectActionFor(b: Bucket): ActionType {
    match b
    case TransientBank => Retry
    case InsufficientFunds => Retry
    case HardDecline => NudgeMethodUpdate
    case UserActionNeeded => NudgeMethodUpdate
    case RiskHold => Escalate
    case Abandonment => NudgeReminder
    case Overdue => NudgeReminder
    case BucketUnspecified => Escalate
  }

  predicate Recovers(draw: real, action: ActionType, p: Profile) {
    draw < if action == CorrectActionFor(p.trueBucket) then p.recoveryProbability else p.wrongActionProbability
  }

  // ---- rand.go ------------------------------------------------------------------------------

  /** The string whose hash seeds one draw. */
  function RollInput(seed: int, rollKey: string, attempt: int32): string {
    Print(seed) + [SEP] + rollKey + [SEP] + Print(attempt as int)
  }

  lemma {:induction false} LastSeparatorSplits(a: string, x: string, b: string, y: string)
    requires SEP !in x && SEP !in y && a + [SEP] + x == b + [SEP] + y
    ensures a == b && x == y
  {
    var s := a + [SEP] + x;
    var n := |s| - 1;
    assert s == b + [SEP] + y;
    assert x == "" ==> s[n] == SEP;
    assert y == "" ==> s[n] == SEP;
    assert x != "" ==> s[n] in x;
    assert y != "" ==> s[n] in y;
    if x != "" {
      assert s[..n] == a + [SEP] + x[..|x| - 1] == b + [SEP] + y[..|y| - 1];
      LastSeparatorSplits(a, x[..|x| - 1], b, y[..|y| - 1]);
      assert x == x[..|x| - 1] + [s[n]] && y == y[..|y| - 1] + [s[n]];
    } else {
      assert s[..n] == a && s[..n] == b;
    }
  }

  lemma FirstSeparatorSplits(a: string, x: string, b: string, y: string)
    requires SEP !in a && SEP !in b && a + [SEP] + x == b + [SEP] + y
    ensures a == b && x == y
  {
    IndexOfFirst(a, SEP, x);
    IndexOfFirst(b, SEP, y);
    var s := a + [SEP] + x;
    assert s[..|a|] == a && s[|a| + 1..] == x;
    assert s == b + [SEP] + y && s[..|b|] == b && s[|b| + 1..] == y;
  }

  /** No two (seed, roll key, attempt) triples share a hash input, whatever the roll key holds. */
  lemma RollInputInjective(seed: int, key: string, attempt: int32, seed': int, key': string, attempt': int32)
    requires RollInput(seed, key, attempt) == RollInput(seed', key', attempt')
    ensures seed == seed' && key == key' && attempt == attempt'
  {
    LastSeparatorSplits(Print(seed) + [SEP] + key, Print(attempt as int),
                        Print(seed') + [SEP] + key', Print(attempt' as int));
    FirstSeparatorSplits(Print(seed), key, Print(seed'), key');
    PrintInjective(seed, seed');
    PrintInjective(attempt as int, attempt' as int);
  }

  // ---- SimulateOutcome ----------------------------------------------------------------------

  /** What the store answers for a record. */
  datatype Lookup =
    | Sealed(rp: RecordProfile)
    | Unsealed(failureCode: string)
    | Missing
    | StoreDown

  datatype Request = Request(recordId: string, attempt: int32, action: ActionType)

  datatype Response =
    | Pending(resolvesAt: int)
    | Immediate(success: bool, failureCode: string)
    | InvalidArgument | NotFound | Failed

  /** The uninterpreted surroundings: the hash-to-draw function and the demo time scale. */
  datatype World = World(draw: string -> real, scale: int -> int)

  /** The draw of one call: keyed when a batch seed is set, the shared source's next value otherwise. */
  function DrawFor(w: World, seed: int, rollKey: string, attempt: int32, unseeded: real): real {
    if seed != 0 then w.draw(RollInput(seed, rollKey, attempt)) else unseeded
  }

  function ProfileOf(l: Lookup): RecordProfile
    requires l.Sealed? || l.Unsealed?
  {
    if l.Sealed? then l.rp else RecordProfile(l.failureCode, UnseededProfile(l.failureCode), "")
  }

  predicate Succeeds(w: World, seed: int, l: Lookup, req: Request, unseeded: real)
    requires l.Sealed? || l.Unsealed?
  {
    var rp := ProfileOf(l);
    var rollKey := if rp.rollKey == "" then req.recordId else rp.rollKey;
    Recovers(DrawFor(w, seed, rollKey, req.attempt, unseeded), req.action, rp.profile)
  }

  /** The answer a nudge schedules. */
  function Scheduled(w: World, seed: int, l: Lookup, req: Request, unseeded: real): DelayedOutcome
    requires l.Sealed? || l.Unsealed?
  {
    if Succeeds(w, seed, l, req, unseeded) then DelayedOutcome(req.recordId, req.attempt, SUCCESS, "")
    else DelayedOutcome(req.recordId, req.attempt, FAILURE, ProfileOf(l).failureCode)
  }

  predicate Delays(w: World, l: Lookup, req: Request)
    requires l.Sealed? || l.Unsealed?
  {
    IsNudge(req.action) && w.scale(ProfileOf(l).profile.responseDelaySeconds * SECOND) > 0
  }

  /** One call as a whole: the answer, and the queue after it. */
  function Simulated(w: World, seed: int, entries: map<string, int>, l: Lookup, req: Request, now: int,
                     unseeded: real, zaddOk: bool)
    : (Response, map<string, int>)
  {
    if req.recordId == "" then (InvalidArgument, entries)
    else if l.StoreDown? then (Failed, entries)
    else if l.Missing? then (NotFound, entries)
    else if Delays(w, l, req) then
      var at := now + w.scale(ProfileOf(l).profile.responseDelaySeconds * SECOND);
      if zaddOk then (Pending(at), entries[Member(Scheduled(w, seed, l, req, unseeded)) := Unix(at)])
      else (Failed, entries)
    else
      var success := Succeeds(w, seed, l, req, unseeded);
      (Immediate(success, if success then "" else ProfileOf(l).failureCode), entries)
  }

  /** What one call answers, in terms of its draw and the odds of its action: at once, or, for a nudge
      with a delay, later and then just the same. */
  lemma AnswerIsTheRoll(w: World, seed: int, entries: map<string, int>, l: Lookup, rp: RecordProfile, req: Request,
                        now: int, unseeded: real)
    requires req.recordId != ""
    requires l == Sealed(rp)
          || (l.Unsealed? && rp == RecordProfile(l.failureCode, UnseededProfile(l.failureCode), ""))
    ensures var key := if rp.rollKey == "" then req.recordId else rp.rollKey;
            var draw := if seed != 0 then w.draw(RollInput(seed, key, req.attempt)) else unseeded;
            var odds := if req.action == CorrectActionFor(rp.profile.trueBucket) then rp.profile.recoveryProbability
                        else rp.profile.wrongActionProbability;
            var delay := w.scale(rp.profile.responseDelaySeconds * 1_000_000_000);
            var code := if draw < odds then "" else rp.failureCode;
            var later := DelayedOutcome(req.recordId, req.attempt, if draw < odds then SUCCESS else FAILURE, code);
            Simulated(w, seed, entries, l, req, now, unseeded, true)
            == if (req.action.NudgeMethodUpdate? || req.action.NudgeReminder?) && delay > 0
               then (Pending(now + delay), entries[Member(later) := Unix(now + delay)])
               else (Immediate(draw < odds, code), entries)
  {
    assert ProfileOf(l) == rp;
  }

  lemma OnlyScheduledIsQueued(w: World, seed: int, entries: map<string, int>, l: Lookup, req: Request, now: int,
                              unseeded: real, m: string)
    requires req.recordId != "" && (l.Sealed? || l.Unsealed?) && m !in entries
    requires m in Simulated(w, seed, entries, l, req, now, unseeded, true).1
    ensures m == Member(Scheduled(w, seed, l, req, unseeded))
  {}

  lemma PromptAnswer(w: World, seed: int, entries: map<string, int>, l: Lookup, req: Request, now: int, unseeded: real)
    requires req.recordId != "" && (l.Sealed? || l.Unsealed?)
    ensures var d := Scheduled(w, seed, l, req, unseeded);
            && d.recordId == req.recordId && d.attemptNumber == req.attempt
            && (d.outcome == SUCCESS || d.outcome == FAILURE)
            && Simulated(World(w.draw, _ => 0), seed, entries, l, req, now, unseeded, true)
               == (Immediate(d.outcome == SUCCESS, d.failureCode), entries)
  {
    var prompt := World(w.draw, _ => 0);
    assert Succeeds(prompt, seed, l, req, unseeded) == Succeeds(w, seed, l, req, unseeded);
  }

  /** An entry queued for a call reads back as an answer for its record and attempt, and as the very
      answer the same request gets at once where nothing is delayed. */
  lemma QueuedIsTheAnswer(w: World, seed: int, entries: map<string, int>, l: Lookup, req: Request, now: int,
                          unseeded: real, m: string)
    requires req.recordId != "" && SEP !in req.recordId && (l.Sealed? || l.Unsealed?) && m !in entries
    requires m in Simulated(w, seed, entries, l, req, now, unseeded, true).1
    ensures ParseMember(m).Ok?
    ensures var d := ParseMember(m).value;
            && d.recordId == req.recordId && d.attemptNumber == req.attempt
            && Simulated(World(w.draw, _ => 0), seed, entries, l, req, now, unseeded, true)
               == (Immediate(d.outcome == SUCCESS, d.failureCode), entries)
  {
    OnlyScheduledIsQueued(w, seed, entries, l, req, now, unseeded, m);
    PromptAnswer(w, seed, entries, l, req, now, unseeded);
    MemberRoundTrip(Scheduled(w, seed, l, req, unseeded));
  }

  class Server {
    var seed: int
    const queue: OutcomeQueue
    const world: World

    constructor (queue: OutcomeQueue, world: World)
      ensures seed == 0 && this.queue == queue && this.world == world
    {
      seed := 0;
      this.queue := queue;
      this.world := world;
    }

    /** Exactly a delayed nudge touches the queue, and then with the answer already rolled. */
    method SimulateOutcome(req: Request, l: Lookup, now: int, unseeded: real, zaddOk: bool) returns (r: Response)
      modifies queue
      ensures (r, queue.entries) == Simulated(world, seed, old(queue.entries), l, req, now, unseeded, zaddOk)
      ensures req.recordId == "" ==> r == InvalidArgument && queue.entries == old(queue.entries)
      ensures req.recordId != "" && !l.Sealed? && !l.Unsealed? ==>
                r == (if l.Missing? then NotFound else Failed) && queue.entries == old(queue.entries)
      ensures req.recordId != "" && (l.Sealed? || l.Unsealed?) ==>
                if Delays(world, l, req) then
                  var at := now + world.scale(ProfileOf(l).profile.responseDelaySeconds * SECOND);
                  if zaddOk then
                    && r == Pending(at)
                    && queue.entries == old(queue.entries)[Member(Scheduled(world, seed, l, req, unseeded)) := Unix(at)]
                  else r == Failed && queue.entries == old(queue.entries)
                else
                  var success := Succeeds(world, seed, l, req, unseeded);
                  && r == Immediate(success, if success then "" else ProfileOf(l).failureCode)
                  && queue.entries == old(queue.entries)
    {
      if req.recordId == "" {
        return InvalidArgument;
      }
      if l.StoreDown? {
        return Failed;
      }
      if l.Missing? {
        return NotFound;
      }
      var rp := ProfileOf(l);
      var rollKey := rp.rollKey;
      if rollKey == "" {
        rollKey := req.recordId;
      }
      var success := Recovers(DrawFor(world, seed, rollKey, req.attempt, unseeded), req.action, rp.profile);
      var scaledDelay := world.scale(rp.profile.responseDelaySeconds * SECOND);
      if IsNudge(req.action) && scaledDelay > 0 {
        var resolvesAt := now + scaledDelay;
        var d := DelayedOutcome(req.recordId, req.attempt, SUCCESS, "");
        if !success {
          d := d.(outcome := FAILURE, failureCode := rp.failureCode);
        }
        var ok := queue.Schedule(d, resolvesAt, zaddOk);
        if !ok {
          return Failed;
        }
        return Pending(resolvesAt);
      }
      if success {
        return Immediate(true, "");
      }
      return Immediate(false, rp.failureCode);
    }
  }
}
