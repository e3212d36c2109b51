/** The synthetic record generator of internal/platform/syntheticgen/syntheticgen.go, with the caller's
    rng as a state that each draw advances. */
module SyntheticRecords {
  import opened Prelude
  import opened Domain

  /** A random source: each draw yields a value and the state after it. */
  datatype Source<!R> = Source(float: R -> (real, R), intn: (R, nat) -> (nat, R))

  ghost predicate Fair<R(!new)>(src: Source<R>) {
    && (forall r :: 0.0 <= src.float(r).0 < 1.0)
    && (forall r, n: nat :: n > 0 ==> src.intn(r, n).0 < n)
  }

  datatype BucketProfile = BucketProfile(recovery: real, wrongAction: real, delayFrom: int, delayTo: int)

  /** profileFor: an unlisted bucket falls back to the first entry. */
  function ProfileFor(b: Bucket): BucketProfile {
    match b
    case InsufficientFunds => BucketProfile(0.55, 0.05, 3600, 21600)
    case HardDecline => BucketProfile(0.15, 0.02, 1800, 86400)
    case UserActionNeeded => BucketProfile(0.35, 0.03, 900, 14400)
    case RiskHold => BucketProfile(0.05, 0.0, 0, 0)
    case Abandonment => BucketProfile(0.25, 0.05, 300, 7200)
    case Overdue => BucketProfile(0.30, 0.05, 3600, 259200)
    case _ => BucketProfile(0.80, 0.05, 60, 900)
  }

  const UNRECOVERABLE_CHANCE := 0.06
  const MISLEADING_CODE_CHANCE := 0.12
  const INSTRUMENT_SHARE_CHANCE := 0.30

  datatype CodeEntry = CodeEntry(code: string, obvious: Bucket)

  const PAYMENT_AND_MANDATE_CODES: seq<CodeEntry> := [
    CodeEntry("BANK_TIMEOUT", TransientBank), CodeEntry("RAIL_CONGESTION", TransientBank),
    CodeEntry("ISSUER_UNAVAILABLE", TransientBank), CodeEntry("BANK_NOT_AVAILABLE", TransientBank),
    CodeEntry("GATEWAY_TECHNICAL_ERROR", TransientBank), CodeEntry("UPI_APP_TECHNICAL_ERROR", TransientBank),
    CodeEntry("GATEWAY_TIMEOUT", RiskHold), CodeEntry("INSUFFICIENT_FUNDS", InsufficientFunds),
    CodeEntry("LOW_BALANCE", InsufficientFunds), CodeEntry("TRANSACTION_LIMIT_EXCEEDED", InsufficientFunds),
    CodeEntry("HARD_DECLINE", HardDecline), CodeEntry("EXPIRED_INSTRUMENT", HardDecline),
    CodeEntry("EXPIRED_CARD", HardDecline), CodeEntry("BLOCKED_INSTRUMENT", HardDecline),
    CodeEntry("DO_NOT_HONOUR", HardDecline), CodeEntry("CARD_DECLINED", HardDecline),
    CodeEntry("INVALID_VPA", HardDecline), CodeEntry("RISK_HOLD", RiskHold),
    CodeEntry("FRAUD_REVIEW", RiskHold), CodeEntry("PAYMENT_RISK_CHECK_FAILED", RiskHold),
    CodeEntry("AUTH_REQUIRED", UserActionNeeded), CodeEntry("REAUTH_REQUIRED", UserActionNeeded),
    CodeEntry("AUTHENTICATION_FAILED", UserActionNeeded), CodeEntry("INCORRECT_OTP", UserActionNeeded)]

  const MANDATE_ONLY_CODES: seq<CodeEntry> := [
    CodeEntry("MANDATE_REVOKED", UserActionNeeded), CodeEntry("MANDATE_PAUSED", UserActionNeeded),
    CodeEntry("MANDATE_CREATION_FAILED", UserActionNeeded)]

  const CHECKOUT_CODES: seq<CodeEntry> := [
    CodeEntry("CHECKOUT_ABANDONED", Abandonment), CodeEntry("ABANDONED", Abandonment),
    CodeEntry("PAYMENT_CANCELLED", Abandonment), CodeEntry("PAYMENT_SESSION_EXPIRED", Abandonment)]

  const INVOICE_CODES: seq<CodeEntry> := [CodeEntry("INVOICE_OVERDUE", Overdue), CodeEntry("PAST_DUE", Overdue)]

  function CodePoolFor(t: RecordType): (pool: seq<CodeEntry>)
    ensures pool != []
  {
    match t
    case Mandate => PAYMENT_AND_MANDATE_CODES + MANDATE_ONLY_CODES
    case Checkout => CHECKOUT_CODES
    case Invoice => INVOICE_CODES
    case _ => PAYMENT_AND_MANDATE_CODES
  }

  /** The first entry for `code` in `pool`. */
  function FindCode(pool: seq<CodeEntry>, code: string): Option<Bucket> {
    if pool == [] then None
    else if pool[0].code == code then Some(pool[0].obvious)
    else FindCode(pool[1..], code)
  }

  function BucketForFailureCode(code: string): Option<Bucket> {
    FindCode(PAYMENT_AND_MANDATE_CODES + MANDATE_ONLY_CODES + CHECKOUT_CODES + INVOICE_CODES, code)
  }

  /** unseeded.go: the profile a record gets when nothing was sealed for it, a function of its code. */
  function UnseededProfile(code: string): Profile {
    var found := BucketForFailureCode(code);
    var bucket := if found.Some? then found.value else UserActionNeeded;
    var p := ProfileFor(bucket);
    Profile(bucket, p.recovery, p.wrongAction, (p.delayFrom + p.delayTo) / 2)
  }

  // ---- record types by weight ---------------------------------------------------------------

  const RECORD_TYPE_WEIGHTS: seq<(RecordType, nat)> := [(Payment, 55), (Checkout, 25), (Mandate, 12), (Invoice, 8)]

  /** The type whose band of the cumulative weights holds `roll`. */
  function TypeForRoll(roll: nat): RecordType {
    if roll < 55 then Payment else if roll < 80 then Checkout else if roll < 92 then Mandate
    else if roll < 100 then Invoice else Payment
  }

  /** pickRecordType, once the roll is drawn: the fallback after the loop is never reached. */
  method PickRecordType(roll: nat) returns (t: RecordType)
    requires roll < 100
    ensures t == TypeForRoll(roll)
  {
    var left := roll;
    var weights := RECORD_TYPE_WEIGHTS;
    for i := 0 to |weights|
      invariant left == roll - (match i case 0 => 0 case 1 => 55 case 2 => 80 case 3 => 92 case _ => 100)
      invariant i < 4
    {
      if left < weights[i].1 {
        return weights[i].0;
      }
      left := left - weights[i].1;
    }
    t := Payment;
  }

  // ---- a bucket the code does not suggest ---------------------------------------------------

  /** The distinct buckets of `pool` other than `avoid`, in order of first appearance. */
  function Candidates(pool: seq<CodeEntry>, avoid: Bucket): seq<Bucket> {
    if pool == [] then []
    else
      var before, b := Candidates(pool[..|pool| - 1], avoid), pool[|pool| - 1].obvious;
      if b == avoid || b in before then before else before + [b]
  }

  lemma {:induction false} CandidatesExact(pool: seq<CodeEntry>, avoid: Bucket, b: Bucket)
    ensures b in Candidates(pool, avoid) <==> b != avoid && exists e <- pool :: e.obvious == b
  {
    if pool != [] {
      CandidatesExact(pool[..|pool| - 1], avoid, b);
      assert pool == pool[..|pool| - 1] + [pool[|pool| - 1]];
    }
  }

  /** Where `b` first appears in `pool`, or the length when it does not. */
  function FirstAt(pool: seq<CodeEntry>, b: Bucket): (k: nat)
    ensures k <= |pool| && (k < |pool| ==> pool[k].obvious == b)
    ensures forall i :: 0 <= i < k ==> pool[i].obvious != b
  {
    if pool == [] then 0
    else
      var n := |pool| - 1;
      var k := FirstAt(pool[..n], b);
      if k < n then k else if pool[n].obvious == b then n else n + 1
  }

  ghost predicate InOrder(pool: seq<CodeEntry>, bs: seq<Bucket>) {
    && (forall b <- bs :: FirstAt(pool, b) < |pool|)
    && (forall i, j :: 0 <= i < j < |bs| ==> FirstAt(pool, bs[i]) < FirstAt(pool, bs[j]))
  }

  lemma InOrderGrows(pool: seq<CodeEntry>, bs: seq<Bucket>)
    requires pool != [] && InOrder(pool[..|pool| - 1], bs)
    ensures InOrder(pool, bs)
    ensures FirstAt(pool[..|pool| - 1], pool[|pool| - 1].obvious) == |pool| - 1
            ==> InOrder(pool, bs + [pool[|pool| - 1].obvious])
  {
    assert forall i :: 0 <= i < |bs| ==> bs[i] in bs;
  }

  /** Listed in order of first appearance, so none twice. */
  lemma {:induction false} CandidatesInOrder(pool: seq<CodeEntry>, avoid: Bucket)
    ensures InOrder(pool, Candidates(pool, avoid))
  {
    if pool != [] {
      var init, b := pool[..|pool| - 1], pool[|pool| - 1].obvious;
      CandidatesInOrder(init, avoid);
      InOrderGrows(pool, Candidates(init, avoid));
      if b != avoid && b !in Candidates(init, avoid) { CandidatesExact(init, avoid, b); }
    }
  }

  /** The loop of pickDivergentBucket. */
  method CollectCandidates(pool: seq<CodeEntry>, avoid: Bucket) returns (candidates: seq<Bucket>)
    ensures candidates == Candidates(pool, avoid)
  {
    candidates := [];
    var seen := {};
    for i := 0 to |pool|
      invariant candidates == Candidates(pool[..i], avoid)
      invariant seen == set b <- candidates
    {
      assert pool[..i + 1][..i] == pool[..i];
      var b := pool[i].obvious;
      if b != avoid && b !in seen {
        seen := seen + {b};
        candidates := candidates + [b];
      }
    }
    assert pool[..|pool|] == pool;
  }

  /** pickDivergentBucket over a record type's code pool. */
  function PickDivergentBucket<R>(src: Source<R>, r: R, pool: seq<CodeEntry>, avoid: Bucket): (Bucket, R) {
    var candidates := Candidates(pool, avoid);
    if candidates == [] then (avoid, r)
    else
      var (i, r') := src.intn(r, |candidates|);
      (if i < |candidates| then candidates[i] else avoid, r')
  }

  /** A divergent bucket stays in the pool's family and, unless that family has only one bucket, really
      differs. */
  lemma DivergentIsPlausible<R(!new)>(src: Source<R>, r: R, pool: seq<CodeEntry>, e: CodeEntry)
    requires Fair(src) && e in pool
    ensures var b := PickDivergentBucket(src, r, pool, e.obvious).0;
            && (exists f <- pool :: f.obvious == b)
            && (b == e.obvious <==> forall f <- pool :: f.obvious == e.obvious)
  {
    var candidates := Candidates(pool, e.obvious);
    var b := PickDivergentBucket(src, r, pool, e.obvious).0;
    if candidates == [] {
      forall f <- pool ensures f.obvious == e.obvious { CandidatesExact(pool, e.obvious, f.obvious); }
    } else {
      CandidatesExact(pool, e.obvious, b);
    }
  }

  // ---- one record ---------------------------------------------------------------------------

  datatype GeneratedRecord = GeneratedRecord(
    kind: RecordType, failureCode: string, amountPaise: int, profile: Profile)

  function PickInRange<R>(src: Source<R>, r: R, from: int, to: int): (int, R) {
    if to <= from then (from, r)
    else
      var (n, r') := src.intn(r, to - from);
      (from + n, r')
  }

  /** The recovery and wrong-action odds, and now and then a lost cause whatever is tried. */
  function PickOdds<R>(src: Source<R>, r: R, p: BucketProfile): (real, real, R) {
    var (lost, r1) := src.float(r);
    if lost < UNRECOVERABLE_CHANCE then
      var (x, r2) := src.float(r1);
      (x * 0.03, x * 0.03, r2)
    else (p.recovery, p.wrongAction, r1)
  }

  function PickTrueBucket<R>(src: Source<R>, r: R, pool: seq<CodeEntry>, obvious: Bucket): (Bucket, R) {
    var (misleading, r1) := src.float(r);
    if misleading < MISLEADING_CODE_CHANCE then PickDivergentBucket(src, r1, pool, obvious) else (obvious, r1)
  }

  /** GenerateRecord once its type is drawn; `amountOf` stands for the log-uniform amount curve. */
  function GenerateFrom<R>(src: Source<R>, amountOf: real -> int, kind: RecordType, pool: seq<CodeEntry>, r0: R)
    : (GeneratedRecord, R)
    requires pool != []
  {
    var (i, r1) := src.intn(r0, |pool|);
    var entry := if i < |pool| then pool[i] else pool[0];
    var (amount, r2) := src.float(r1);
    var (bucket, r3) := PickTrueBucket(src, r2, pool, entry.obvious);
    var p := ProfileFor(bucket);
    var (recovery, wrongAction, r4) := PickOdds(src, r3, p);
    var (delay, r5) := PickInRange(src, r4, p.delayFrom, p.delayTo);
    (GeneratedRecord(kind, entry.code, amountOf(amount), Profile(bucket, recovery, wrongAction, delay)), r5)
  }

  function GenerateRecord<R>(src: Source<R>, amountOf: real -> int, r: R): (GeneratedRecord, R) {
    var (roll, r1) := src.intn(r, 100);
    GenerateFrom(src, amountOf, TypeForRoll(roll), CodePoolFor(TypeForRoll(roll)), r1)
  }

  /** A generated record is one the pipeline could see: its code belongs to its type, its hidden bucket
      to the same family, its delay to the bucket's range, and a wrong action never beats the right one. */
  ghost predicate Plausible(g: GeneratedRecord, pool: seq<CodeEntry>) {
    var p := ProfileFor(g.profile.trueBucket);
    && (exists e <- pool :: e.code == g.failureCode)
    && (exists e <- pool :: e.obvious == g.profile.trueBucket)
    && (p.delayFrom <= g.profile.responseDelaySeconds < p.delayTo
        || (p.delayTo <= p.delayFrom && g.profile.responseDelaySeconds == p.delayFrom))
    && 0.0 <= g.profile.wrongActionProbability <= g.profile.recoveryProbability < 1.0
    && (g.profile.recoveryProbability == p.recovery || g.profile.recoveryProbability < 0.03)
  }

  /** A draw from a range is the start of it plus what was drawn, one from the candidates the one drawn. */
  lemma PicksWhatIsDrawn<R(!new)>(src: Source<R>, r: R, from: int, to: int, pool: seq<CodeEntry>, avoid: Bucket)
    requires Fair(src)
    ensures PickInRange(src, r, from, to).0 == if from < to then from + src.intn(r, to - from).0 else from
    ensures var candidates := Candidates(pool, avoid);
            PickDivergentBucket(src, r, pool, avoid).0
            == if candidates == [] then avoid else candidates[src.intn(r, |candidates|).0]
  {}

  /** Which draw decides what: the entry, the amount, whether the code misleads, whether the record is a
      lost cause, how lost, and the delay, in that order. */
  lemma DrawsDecide<R(!new)>(src: Source<R>, amountOf: real -> int, kind: RecordType, pool: seq<CodeEntry>, r: R)
    requires Fair(src) && pool != []
    ensures var g := GenerateFrom(src, amountOf, kind, pool, r).0;
            var (i, r1) := src.intn(r, |pool|);
            var (amount, r2) := src.float(r1);
            var (misleading, r3) := src.float(r2);
            && g.kind == kind && g.failureCode == pool[i].code && g.amountPaise == amountOf(amount)
            && (misleading >= 0.12 ==> g.profile.trueBucket == pool[i].obvious)
            && (misleading < 0.12 ==>
                  (g.profile.trueBucket == pool[i].obvious <==> forall e <- pool :: e.obvious == pool[i].obvious))
            && (misleading >= 0.12 ==>
                  var p, (lost, r4) := ProfileFor(pool[i].obvious), src.float(r3);
                  if lost >= 0.06 then
                    g.profile.recoveryProbability == p.recovery && g.profile.wrongActionProbability == p.wrongAction
                  else
                    g.profile.recoveryProbability == g.profile.wrongActionProbability == src.float(r4).0 * 0.03)
            && (misleading >= 0.12 && src.float(r3).0 >= 0.06 ==>
                  var p := ProfileFor(pool[i].obvious);
                  g.profile.responseDelaySeconds == PickInRange(src, src.float(r3).1, p.delayFrom, p.delayTo).0)
  {
    var (i, r1) := src.intn(r, |pool|);
    var r2 := src.float(r1).1;
    assert pool[i] in pool;
    DivergentIsPlausible(src, src.float(r2).1, pool, pool[i]);
  }

  lemma {:induction false} FindCodeFinds(pool: seq<CodeEntry>, code: string)
    ensures FindCode(pool, code).None? <==> forall e <- pool :: e.code != code
    ensures FindCode(pool, code).Some? ==> exists e <- pool :: e.code == code && e.obvious == FindCode(pool, code).value
  {
    if pool != [] {
      FindCodeFinds(pool[1..], code);
      assert pool == [pool[0]] + pool[1..];
    }
  }

  /** An unseeded record gets the bucket its code means, or needs the customer when the code is unknown,
      with the bucket's odds and the middle of its delays. */
  lemma UnseededIsMidway(code: string)
    ensures var p, found := UnseededProfile(code), BucketForFailureCode(code);
            var b := ProfileFor(p.trueBucket);
            && p.trueBucket == (if found.Some? then found.value else UserActionNeeded)
            && p.recoveryProbability == b.recovery && p.wrongActionProbability == b.wrongAction
            && 0 <= (b.delayTo - p.responseDelaySeconds) - (p.responseDelaySeconds - b.delayFrom) <= 1
  {}

  lemma GeneratedFromPool<R(!new)>(src: Source<R>, amountOf: real -> int, kind: RecordType, pool: seq<CodeEntry>, r: R)
    requires Fair(src) && pool != []
    ensures Plausible(GenerateFrom(src, amountOf, kind, pool, r).0, pool)
  {
    var (i, r1) := src.intn(r, |pool|);
    var e := pool[i];
    assert e in pool;
    var r2 := src.float(r1).1;
    DivergentIsPlausible(src, src.float(r2).1, pool, e);
  }

  lemma GeneratedIsPlausible<R(!new)>(src: Source<R>, amountOf: real -> int, r: R)
    requires Fair(src)
    ensures var g := GenerateRecord(src, amountOf, r).0;
            Plausible(g, CodePoolFor(g.kind))
  {
    var (roll, r1) := src.intn(r, 100);
    GeneratedFromPool(src, amountOf, TypeForRoll(roll), CodePoolFor(TypeForRoll(roll)), r1);
  }
}
