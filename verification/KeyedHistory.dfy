/** What a state of the keyed consumer says has happened is what the actions of its run did. */
module KeyedHistory {
  import opened Prelude
  import opened CommitTracking
  import opened SequentialConsuming
  import opened KeyedConsuming
  import opened KeyedSafety

  /** The record a worker step is about. */
  function AtHand(s: State, w: nat): Option<Record> {
    if w < |s.workers| && s.workers[w].Handling? then Some(s.workers[w].r) else None
  }

  function InCommit(s: State): Option<Record> {
    if s.committer.Committing? then Some(s.committer.r) else None
  }

  function SetOf(r: Option<Record>): set<Record> {
    if r.Some? then {r.value} else {}
  }

  /** What one action brings about, read off the action and the state it is taken in. */
  function Handles(s: State, a: Action): set<Record> {
    if a.Succeed? then SetOf(AtHand(s, a.w)) else {}
  }

  function Fails(s: State, a: Action): set<Record> {
    if a.FailHandler? then SetOf(AtHand(s, a.w)) else {}
  }

  function Lands(s: State, a: Action): Option<Record> {
    if a.CommitAccepted? || (a.CommitRefused? && a.landed) then InCommit(s) else None
  }

  function Blames(s: State, a: Action): Option<Error> {
    if a.FailHandler? && AtHand(s, a.w).Some? then Some(HandlerFailed(AtHand(s, a.w).value))
    else if a.CommitRefused? && InCommit(s).Some? then Some(CommitFailed(InCommit(s).value))
    else None
  }

  /** `s'` is what `a` makes of the history of `s`. */
  ghost predicate Records(s: State, a: Action, s': State) {
    && s'.handled == s.handled + Handles(s, a)
    && s'.failed == s.failed + Fails(s, a)
    && s'.committed == (match Lands(s, a) case Some(r) => s.committed[r.partition := r.offset] case None => s.committed)
    && s'.refused == s.refused + (if a.CommitRefused? then 1 else 0)
    && s'.broken == (s.broken || a.CommitRefused?)
    && s'.failErr == (if s.failErr.Some? then s.failErr else Blames(s, a))
    && s'.cancelled == (s.cancelled || a.Cancel? || a.FailHandler? || a.CommitRefused?)
  }

  lemma WorkerStepRecords(c: Config, s: State, a: Action)
    requires c.pool > 0 && Enabled(c, s, a) && (a.Succeed? || a.FailHandler? || a.CommitAccepted? || a.CommitRefused?)
    ensures Records(s, a, Apply(c, s, a))
  {}

  lemma FetchStepRecords(c: Config, s: State, a: Action)
    requires c.pool > 0 && Enabled(c, s, a) && (a.NextRecord? || a.Dispatch?)
    ensures Records(s, a, Apply(c, s, a))
  {}

  lemma HandOverRecords(c: Config, s: State, a: Action)
    requires c.pool > 0 && Enabled(c, s, a) && (a.Begin? || a.Send? || a.Exit?)
    ensures Records(s, a, Apply(c, s, a))
  {}

  lemma FoldStepRecords(c: Config, s: State, a: Action)
    requires c.pool > 0 && Enabled(c, s, a) && (a.Receive? || a.FinishCommitter?)
    ensures Records(s, a, Apply(c, s, a))
  {}

  lemma MainStepRecords(c: Config, s: State, a: Action)
    requires c.pool > 0 && Enabled(c, s, a) && IsMainStep(a)
    ensures Records(s, a, Apply(c, s, a))
  {
    MainStepFrame(c, s, a);
  }

  lemma StepRecords(c: Config, s: State, a: Action)
    requires c.pool > 0 && Enabled(c, s, a)
    ensures Records(s, a, Apply(c, s, a))
  {
    if IsMainStep(a) {
      MainStepRecords(c, s, a);
    } else if a.Succeed? || a.FailHandler? || a.CommitAccepted? || a.CommitRefused? {
      WorkerStepRecords(c, s, a);
    } else if a.Receive? || a.FinishCommitter? {
      FoldStepRecords(c, s, a);
    } else if a.NextRecord? || a.Dispatch? {
      FetchStepRecords(c, s, a);
    } else {
      HandOverRecords(c, s, a);
    }
  }

  // ---- over a run ---------------------------------------------------------------------------

  /** The records whose handler call succeeded, and failed, along the run. */
  function HandledAlong(c: Config, s: State, run: seq<Action>): set<Record>
    requires c.pool > 0 && ValidRun(c, s, run)
    decreases |run|
  {
    if run == [] then {} else Handles(s, run[0]) + HandledAlong(c, Apply(c, s, run[0]), run[1..])
  }

  function FailedAlong(c: Config, s: State, run: seq<Action>): set<Record>
    requires c.pool > 0 && ValidRun(c, s, run)
    decreases |run|
  {
    if run == [] then {} else Fails(s, run[0]) + FailedAlong(c, Apply(c, s, run[0]), run[1..])
  }

  /** The last offset per partition whose commit reached the broker along the run, over `before`. */
  function LandedAlong(c: Config, s: State, run: seq<Action>, before: map<int, int>): map<int, int>
    requires c.pool > 0 && ValidRun(c, s, run)
    decreases |run|
  {
    if run == [] then before
    else
      var after := match Lands(s, run[0]) case Some(r) => before[r.partition := r.offset] case None => before;
      LandedAlong(c, Apply(c, s, run[0]), run[1..], after)
  }

  /** The first handler or commit that failed along the run. */
  function FirstFailure(c: Config, s: State, run: seq<Action>): Option<Error>
    requires c.pool > 0 && ValidRun(c, s, run)
    decreases |run|
  {
    if run == [] then None
    else if Blames(s, run[0]).Some? then Blames(s, run[0])
    else FirstFailure(c, Apply(c, s, run[0]), run[1..])
  }

  function Refusals(run: seq<Action>): nat {
    if run == [] then 0 else (if run[0].CommitRefused? then 1 else 0) + Refusals(run[1..])
  }

  predicate Cancels(run: seq<Action>) {
    exists i :: 0 <= i < |run| && (run[i].Cancel? || run[i].FailHandler? || run[i].CommitRefused?)
  }

  lemma {:induction false} HistoryAlong(c: Config, s: State, run: seq<Action>)
    requires c.pool > 0 && ValidRun(c, s, run)
    ensures var t := After(c, s, run);
            && t.handled == s.handled + HandledAlong(c, s, run) && t.failed == s.failed + FailedAlong(c, s, run)
            && t.committed == LandedAlong(c, s, run, s.committed) && t.refused == s.refused + Refusals(run)
            && t.failErr == (if s.failErr.Some? then s.failErr else FirstFailure(c, s, run))
            && (t.cancelled <==> s.cancelled || Cancels(run))
    decreases |run|
  {
    if run != [] {
      StepRecords(c, s, run[0]);
      HistoryAlong(c, Apply(c, s, run[0]), run[1..]);
      CancelsFirst(run);
    }
  }

  lemma CancelsFirst(run: seq<Action>)
    requires run != []
    ensures Cancels(run) <==> run[0].Cancel? || run[0].FailHandler? || run[0].CommitRefused? || Cancels(run[1..])
  {
    if Cancels(run) {
      var i :| 0 <= i < |run| && (run[i].Cancel? || run[i].FailHandler? || run[i].CommitRefused?);
      if i > 0 { assert run[1..][i - 1] == run[i]; }
    }
    if Cancels(run[1..]) {
      var i :| 0 <= i < |run| - 1 && (run[1..][i].Cancel? || run[1..][i].FailHandler? || run[1..][i].CommitRefused?);
      assert run[i + 1] == run[1..][i];
    }
  }

  /** From the start: a record counts as handled or failed exactly when its handler call ended so, the
      committed offsets are the last ones that reached the broker, and the error kept is the first. */
  lemma HistoryIsTrue(c: Config, run: seq<Action>)
    requires c.pool > 0 && ValidRun(c, Start(c).value, run)
    ensures var s, t := Start(c).value, After(c, Start(c).value, run);
            && t.handled == HandledAlong(c, s, run) && t.failed == FailedAlong(c, s, run)
            && t.committed == LandedAlong(c, s, run, map[]) && t.refused == Refusals(run)
            && t.failErr == FirstFailure(c, s, run) && (t.cancelled <==> Cancels(run))
  {
    HistoryAlong(c, Start(c).value, run);
  }
}
