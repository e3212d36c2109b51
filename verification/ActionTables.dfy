/** The action a bucket calls for is written down three times, in the mock engine, in its price list and
    in demo/world-simulator/internal/server/bucket.go; the three tables must agree. */
module ActionTables {
  import opened Domain
  import RecordLifecycle
  import WorldSimulator

  /** The mock engine takes the action the World Simulator rewards exactly while the bucket's budget
      lasts, and escalates after it. */
  lemma DecidesCorrectAction(b: Bucket, attempts: nat)
    requires b != BucketUnspecified
    ensures RecordLifecycle.DecideAction(b, attempts)
            == if attempts < RecordLifecycle.Budget(b) then WorldSimulator.CorrectActionFor(b) else Escalate
  {}

  /** And it charges for no other. */
  lemma ChargesCorrectAction(b: Bucket, a: ActionType, cost: nat)
    requires RecordLifecycle.Priced(b, a, cost)
    ensures a == WorldSimulator.CorrectActionFor(b) && RecordLifecycle.Budget(b) > 0
    ensures cost == RecordLifecycle.ActionCostPaise(a)
  {}
}
