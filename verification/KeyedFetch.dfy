/** What the keyed consumer fetches is what it observes and dispatches, and it stops fetching only for
    a reason. */
module KeyedFetch {
  import opened Prelude
  import opened CommitTracking
  import opened SequentialConsuming
  import opened KeyedConsuming
  import opened KeyedSafety

  /** The records of every poll of the run, in order. */
  function Fetched(run: seq<Action>): seq<Record> {
    if run == [] then []
    else
      var last := run[|run| - 1];
      Fetched(run[..|run| - 1]) + if last.PollReturns? then last.batch else []
  }

  /** Some poll of the run reported a failure. */
  predicate PollFailed(run: seq<Action>) {
    exists i :: 0 <= i < |run| && run[i].PollReturns? && run[i].fetchFailed
  }

  /** What takes the consumer out of its fetch loop: the caller, a poll, a handler or a commit. */
  predicate Trouble(a: Action) {
    a.Cancel? || a.FailHandler? || a.CommitRefused? || (a.PollReturns? && a.fetchFailed)
  }

  predicate Untroubled(run: seq<Action>) {
    forall i :: 0 <= i < |run| ==> !Trouble(run[i])
  }

  /** What has been fetched but not yet observed, while the fetch loop runs. */
  function Held(m: Main): seq<Record> {
    match m
    case Polled(batch, _) => batch
    case Iterating(rest) => rest
    case Offering(_, rest) => rest
    case _ => []
  }

  /** Inside the loop, fetched is observed plus held, and observed is dispatched plus what is on offer;
      once out of it both are only prefixes. */
  predicate FollowsPolls(s: State, fetched: seq<Record>) {
    if s.FetchLoopDone() then s.dispatched <= s.observed <= fetched
    else
      && fetched == s.observed + Held(s.main)
      && s.observed == s.dispatched + if s.main.Offering? then [s.main.r] else []
  }

  /** Why the loop may be over, or about to be: `failed` says whether some poll failed. */
  predicate StopsForReason(s: State, failed: bool, cancelledByCaller: bool) {
    && (s.main.Polled? && s.main.fetchFailed ==> failed)
    && (failed ==> (s.main.Polled? && s.main.fetchFailed) || s.FetchLoopDone())
    && (s.fetchErr == Some(FetchFailed) ==> failed)
    && (s.fetchErr.Some? <==> s.FetchLoopDone())
    && (s.fetchErr.Some? ==> s.fetchErr.value.FetchFailed? || (s.fetchErr.value.Cancelled? && s.cancelled))
    && (s.cancelled ==> cancelledByCaller || s.failErr.Some?)
  }

  /** The part of a step the fetch loop sees. */
  ghost predicate SameFetching(s: State, s': State) {
    && s'.main == s.main && s'.observed == s.observed && s'.dispatched == s.dispatched && s'.fetchErr == s.fetchErr
  }

  predicate IsFetchStep(a: Action) {
    IsMainStep(a) || a.NextRecord? || a.Dispatch?
  }

  lemma OthersLeaveFetching(c: Config, s: State, a: Action)
    requires c.pool > 0 && Enabled(c, s, a) && !IsFetchStep(a)
    ensures SameFetching(s, Apply(c, s, a))
    ensures Apply(c, s, a).cancelled ==> s.cancelled || Apply(c, s, a).failErr.Some?
    ensures s.failErr.Some? ==> Apply(c, s, a).failErr.Some?
  {}

  lemma NextRecordFollows(s: State, fetched: seq<Record>)
    requires s.main.Iterating? && FollowsPolls(s, fetched)
    ensures FollowsPolls(s.NextRecord(), fetched)
  {
    if s.main.rest != [] {
      assert s.observed + s.main.rest == (s.observed + [s.main.rest[0]]) + s.main.rest[1..];
    }
  }

  lemma DispatchFollows(s: State, w: nat, fetched: seq<Record>)
    requires s.main.Offering? && w < |s.workers| && FollowsPolls(s, fetched)
    ensures FollowsPolls(s.Dispatch(w), fetched)
  {}

  lemma MainStepFollows(c: Config, s: State, a: Action, fetched: seq<Record>)
    requires c.pool > 0 && Enabled(c, s, a) && IsMainStep(a) && FollowsPolls(s, fetched)
    ensures FollowsPolls(Apply(c, s, a), fetched + if a.PollReturns? then a.batch else [])
  {
    MainStepFrame(c, s, a);
    assert fetched + [] == fetched;
  }

  lemma FetchStepFollows(c: Config, s: State, a: Action, fetched: seq<Record>)
    requires c.pool > 0 && Enabled(c, s, a) && IsFetchStep(a) && FollowsPolls(s, fetched)
    ensures FollowsPolls(Apply(c, s, a), fetched + if a.PollReturns? then a.batch else [])
  {
    assert fetched + [] == fetched;
    if a.NextRecord? {
      NextRecordFollows(s, fetched);
    } else if a.Dispatch? {
      DispatchFollows(s, c.WorkerOf(s.main.r), fetched);
    } else {
      MainStepFollows(c, s, a, fetched);
    }
  }

  lemma FetchStepReasons(c: Config, s: State, a: Action, failed: bool, byCaller: bool)
    requires c.pool > 0 && Enabled(c, s, a) && IsFetchStep(a) && StopsForReason(s, failed, byCaller)
    ensures StopsForReason(Apply(c, s, a), failed || (a.PollReturns? && a.fetchFailed), byCaller || a.Cancel?)
  {}

  lemma PollFailedMore(run: seq<Action>, a: Action)
    ensures PollFailed(run + [a]) <==> PollFailed(run) || (a.PollReturns? && a.fetchFailed)
    ensures Fetched(run + [a]) == Fetched(run) + if a.PollReturns? then a.batch else []
    ensures Cancel in run + [a] <==> Cancel in run || a == Cancel
  {
    assert (run + [a])[..|run|] == run && (run + [a])[|run|] == a;
    if PollFailed(run) {
      var i :| 0 <= i < |run| && run[i].PollReturns? && run[i].fetchFailed;
      assert (run + [a])[i] == run[i];
    }
  }

  ghost predicate FetchInv(s: State, run: seq<Action>) {
    FollowsPolls(s, Fetched(run)) && StopsForReason(s, PollFailed(run), Cancel in run)
  }

  lemma FetchInvKept(c: Config, s: State, past: seq<Action>, a: Action)
    requires c.pool > 0 && Enabled(c, s, a) && FetchInv(s, past)
    ensures FetchInv(Apply(c, s, a), past + [a])
  {
    PollFailedMore(past, a);
    if IsFetchStep(a) {
      FetchStepFollows(c, s, a, Fetched(past));
      FetchStepReasons(c, s, a, PollFailed(past), Cancel in past);
    } else {
      OthersLeaveFetching(c, s, a);
      assert Fetched(past) + [] == Fetched(past);
    }
  }

  lemma {:induction false} FetchInvRun(c: Config, s: State, past: seq<Action>, run: seq<Action>)
    requires c.pool > 0 && ValidRun(c, s, run) && FetchInv(s, past)
    ensures FetchInv(After(c, s, run), past + run)
    decreases |run|
  {
    if run == [] {
      assert past + run == past;
    } else {
      FetchInvKept(c, s, past, run[0]);
      FetchInvRun(c, Apply(c, s, run[0]), past + [run[0]], run[1..]);
      assert past + run == (past + [run[0]]) + run[1..];
    }
  }

  lemma FetchInvFromStart(c: Config, run: seq<Action>)
    requires c.pool > 0 && ValidRun(c, Start(c).value, run)
    ensures FetchInv(After(c, Start(c).value, run), run)
  {
    FetchInvRun(c, Start(c).value, [], run);
    assert [] + run == run;
  }

  /** Every record of every poll is observed and dispatched, in order: all of them whenever the loop is
      back at its top, and never anything else. */
  lemma FetchedIsDispatched(c: Config, run: seq<Action>)
    requires c.pool > 0 && ValidRun(c, Start(c).value, run)
    ensures var s := After(c, Start(c).value, run);
            && s.dispatched <= s.observed <= Fetched(run)
            && (s.main.AtTop? || s.main.Polling? ==> s.dispatched == s.observed == Fetched(run))
  {
    FetchInvFromStart(c, run);
  }

  /** The fetch loop answers FetchFailed only if a poll failed, and Cancelled only if cancelled; a failed
      poll ends the loop before any of its records is observed. */
  lemma FetchErrorIsTruthful(c: Config, run: seq<Action>)
    requires c.pool > 0 && ValidRun(c, Start(c).value, run)
    ensures var s := After(c, Start(c).value, run);
            && (s.fetchErr == Some(FetchFailed) ==> PollFailed(run))
            && (s.fetchErr == Some(Cancelled) ==> s.cancelled)
            && (s.cancelled ==> Cancel in run || s.failErr.Some?)
            && (PollFailed(run) ==> s.FetchLoopDone() || (s.main.Polled? && s.main.fetchFailed))
  {
    FetchInvFromStart(c, run);
  }

  lemma QuietStep(c: Config, s: State, a: Action)
    requires c.pool > 0 && Enabled(c, s, a) && !Trouble(a) && !s.cancelled && !s.FetchLoopDone()
    requires s.main.Polled? ==> !s.main.fetchFailed
    ensures var s' := Apply(c, s, a);
            !s'.cancelled && !s'.FetchLoopDone() && (s'.main.Polled? ==> !s'.main.fetchFailed)
  {
    if !IsFetchStep(a) { OthersStayQuiet(c, s, a); }
  }

  lemma OthersStayQuiet(c: Config, s: State, a: Action)
    requires c.pool > 0 && Enabled(c, s, a) && !Trouble(a) && !IsFetchStep(a)
    ensures Apply(c, s, a).cancelled == s.cancelled && Apply(c, s, a).main == s.main
  {}

  lemma {:induction false} QuietRun(c: Config, s: State, run: seq<Action>)
    requires c.pool > 0 && ValidRun(c, s, run) && Untroubled(run) && !s.cancelled && !s.FetchLoopDone()
    requires s.main.Polled? ==> !s.main.fetchFailed
    ensures !After(c, s, run).cancelled && !After(c, s, run).FetchLoopDone()
    decreases |run|
  {
    if run != [] {
      QuietStep(c, s, run[0]);
      assert forall i :: 0 <= i < |run[1..]| ==> run[1..][i] == run[i + 1];
      QuietRun(c, Apply(c, s, run[0]), run[1..]);
    }
  }

  /** Without a cancellation, a failed poll, a failed handler or a refused commit the consumer never
      leaves its fetch loop. */
  lemma OnlyTroubleStops(c: Config, run: seq<Action>)
    requires c.pool > 0 && ValidRun(c, Start(c).value, run) && Untroubled(run)
    ensures !After(c, Start(c).value, run).FetchLoopDone() && !After(c, Start(c).value, run).cancelled
  {
    QuietRun(c, Start(c).value, run);
  }
}
