/** The closed vocabularies of proto/common/v1/common.proto. */
module Domain {

  datatype RecordType = TypeUnspecified | Payment | Mandate | Checkout | Invoice

  datatype Bucket =
    | BucketUnspecified | TransientBank | InsufficientFunds | HardDecline | UserActionNeeded | RiskHold
    | Abandonment | Overdue

  datatype ActionType = ActionUnspecified | Retry | NudgeMethodUpdate | NudgeReminder | Escalate | NoAction

  predicate IsNudge(a: ActionType) {
    a.NudgeMethodUpdate? || a.NudgeReminder?
  }

  /** A record's hidden recoverability (ground truth). */
  datatype Profile = Profile(
    trueBucket: Bucket, recoveryProbability: real, wrongActionProbability: real, responseDelaySeconds: int)
}
