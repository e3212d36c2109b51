/** The delayed-outcome member string of demo/world-simulator/internal/server/queue.go. */
module MemberCodec {
  import opened Prelude
  import opened Strings
  import opened Decimal

  newtype int32 = n: int | -0x8000_0000 <= n < 0x8000_0000

  /** A protobuf enum value: any int32, four of them named. */
  type Outcome = int32

  const UNSPECIFIED: Outcome := 0
  const SUCCESS: Outcome := 1
  const FAILURE: Outcome := 2
  const PENDING: Outcome := 3

  datatype DelayedOutcome = DelayedOutcome(
    recordId: string, attemptNumber: int32, outcome: Outcome, failureCode: string)

  const SEP := ':'

  predicate Named(o: Outcome) {
    0 <= o <= 3
  }

  /** The generated String method: a name, or the number when there is none. */
  function OutcomeName(o: Outcome): string {
    if o == UNSPECIFIED then "OUTCOME_UNSPECIFIED"
    else if o == SUCCESS then "OUTCOME_SUCCESS"
    else if o == FAILURE then "OUTCOME_FAILURE"
    else if o == PENDING then "OUTCOME_PENDING"
    else Print(o as int)
  }

  /** A lookup in the generated name table: zero for anything that is not a name. */
  function OutcomeValue(s: string): Outcome {
    if s == "OUTCOME_SUCCESS" then SUCCESS
    else if s == "OUTCOME_FAILURE" then FAILURE
    else if s == "OUTCOME_PENDING" then PENDING
    else UNSPECIFIED
  }

  /** Go's conversion of an int to int32. */
  function WrapInt32(n: int): (r: int32)
    ensures (n - r as int) % 0x1_0000_0000 == 0
  {
    var m := n % 0x1_0000_0000;
    (if m < 0x8000_0000 then m else m - 0x1_0000_0000) as int32
  }

  function Fields(d: DelayedOutcome): seq<string> {
    [d.recordId, Print(d.attemptNumber as int), OutcomeName(d.outcome), d.failureCode]
  }

  function Member(d: DelayedOutcome): string {
    Join(Fields(d), SEP)
  }

  function ParseMember(s: string): Result<DelayedOutcome> {
    FromParts(SplitN(s, SEP, 4))
  }

  function FromParts(parts: seq<string>): Result<DelayedOutcome> {
    if |parts| < 3 || Atoi(parts[1]).Err? then Err
    else
      Ok(DelayedOutcome(parts[0], WrapInt32(Atoi(parts[1]).value), OutcomeValue(parts[2]),
                        if |parts| == 4 then parts[3] else ""))
  }

  lemma NameHasNoSeparator(o: Outcome)
    ensures SEP !in OutcomeName(o)
  {}

  lemma MemberSplits(d: DelayedOutcome)
    requires SEP !in d.recordId
    ensures SplitN(Member(d), SEP, 4) == Fields(d)
  {
    NameHasNoSeparator(d.outcome);
    SplitNOfJoin(Fields(d), SEP);
  }

  lemma ParsedFields(d: DelayedOutcome)
    requires SEP !in d.recordId
    ensures ParseMember(Member(d))
            == Ok(d.(outcome := OutcomeValue(OutcomeName(d.outcome))))
  {
    MemberSplits(d);
    PartsRead(d.recordId, d.attemptNumber, OutcomeName(d.outcome), d.failureCode);
  }

  lemma WrapFits(n: int32)
    ensures WrapInt32(n as int) == n
  {}

  lemma PartsRead(id: string, n: int32, name: string, code: string)
    ensures FromParts([id, Print(n as int), name, code]) == Ok(DelayedOutcome(id, n, OutcomeValue(name), code))
  {
    AtoiOfPrint(n as int);
    WrapFits(n);
  }

  lemma ThreePartsRead(id: string, n: int32, name: string)
    ensures FromParts([id, Print(n as int), name]) == Ok(DelayedOutcome(id, n, OutcomeValue(name), ""))
  {
    AtoiOfPrint(n as int);
    WrapFits(n);
  }

  /** A member of three fields, from before failure codes were kept, reads with no code. */
  lemma ThreeFieldsRead(id: string, n: int32, name: string)
    requires SEP !in id && SEP !in name
    ensures ParseMember(Join([id, Print(n as int), name], SEP)) == Ok(DelayedOutcome(id, n, OutcomeValue(name), ""))
  {
    SplitOfJoin([id, Print(n as int), name], SEP);
    SplitNEnough(Join([id, Print(n as int), name], SEP), SEP, 4);
    ThreePartsRead(id, n, name);
  }

  /** One of fewer fields does not read at all. */
  lemma FewerFieldsFail(fields: seq<string>)
    requires 0 < |fields| < 3 && forall f <- fields :: SEP !in f
    ensures ParseMember(Join(fields, SEP)).Err?
  {
    SplitOfJoin(fields, SEP);
    SplitNEnough(Join(fields, SEP), SEP, 4);
  }

  lemma NameRoundTrip(o: Outcome)
    ensures OutcomeValue(OutcomeName(o)) == o <==> Named(o)
  {
    if !Named(o) {
      var ch := Print(o as int)[0];
      assert IsDigit(ch) || ch == '-';
    }
  }

  /** The member string reads back as the outcome it was made from exactly when the record id holds no
      separator and the outcome is one of the named values; the attempt number may be any int32 and the
      failure code any string. */
  lemma MemberRoundTrip(d: DelayedOutcome)
    ensures ParseMember(Member(d)) == Ok(d) <==> SEP !in d.recordId && Named(d.outcome)
  {
    if SEP !in d.recordId {
      ParsedFields(d);
      NameRoundTrip(d.outcome);
    } else {
      FirstPartHasNoSeparator(Member(d));
    }
  }

  lemma FirstPartHasNoSeparator(s: string)
    ensures SEP !in SplitN(s, SEP, 4)[0]
  {}

  /** So distinct outcomes of that kind never share a member. */
  lemma MemberInjective(a: DelayedOutcome, b: DelayedOutcome)
    requires SEP !in a.recordId && Named(a.outcome) && SEP !in b.recordId && Named(b.outcome)
    requires Member(a) == Member(b)
    ensures a == b
  {
    MemberRoundTrip(a);
    MemberRoundTrip(b);
  }
}
