/** Safety of the keyed consumer over whole runs, and its refinement of the sequential one. */
module KeyedTheorems {
  import opened Prelude
  import opened CommitTracking
  import opened SequentialConsuming
  import opened KeyedConsuming
  import opened KeyedSafety
  import opened KeyedFetch

  // ---- from steps to runs -------------------------------------------------------------------

  lemma StartInv(c: Config)
    requires c.pool > 0
    ensures Inv(c, Start(c).value)
  {}

  lemma {:induction false} RunInv(c: Config, s: State, run: seq<Action>)
    requires Inv(c, s) && ValidRun(c, s, run)
    ensures Inv(c, After(c, s, run))
    decreases |run|
  {
    if run != [] {
      InvKept(c, s, run[0]);
      RunInv(c, Apply(c, s, run[0]), run[1..]);
    }
  }

  lemma ReachableInv(c: Config, s: State)
    requires Reachable(c, s)
    ensures Inv(c, s)
  {
    var run :| ValidRun(c, Start(c).value, run) && After(c, Start(c).value, run) == s;
    StartInv(c);
    RunInv(c, Start(c).value, run);
  }

  // ---- what may be committed ----------------------------------------------------------------

  /** Every record at or below a committed offset was handled successfully. */
  lemma CommittedMeansHandled(c: Config, s: State, p: int, o: int)
    requires Reachable(c, s) && p in s.committed && c.start(p) <= o <= s.committed[p]
    ensures Record(p, o) in s.handled
  {
    ReachableInv(c, s);
  }

  /** A record observed but failed, in flight or never dispatched pins the commit below it. */
  lemma UnhandledPinsCommit(c: Config, s: State, r: Record)
    requires Reachable(c, s) && r in s.observed && r !in s.handled
    ensures r.partition in s.committed ==> s.committed[r.partition] < r.offset
  {
    ReachableInv(c, s);
    ObservedFromStart(c, s);
    if r.partition in s.committed && r.offset <= s.committed[r.partition] {
      CommittedMeansHandled(c, s, r.partition, r.offset);
    }
  }

  lemma WorkersObserveNothing(c: Config, s: State, a: Action)
    requires c.pool > 0 && Enabled(c, s, a) && !IsMainStep(a) && !a.NextRecord?
    ensures Apply(c, s, a).observed == s.observed && Apply(c, s, a).seen == s.seen
  {}

  /** What was observed follows the logs, and `seen` is where it got to. */
  ghost predicate FeedSeen(c: Config, s: State) {
    && (forall r <- s.observed :: WasObserved(c, s, r))
    && Contiguous(c.start, s.observed) && CommittedBy(s.observed) == s.seen
  }

  lemma FeedOneMore(start: int -> int, feed: seq<Record>, r: Record)
    requires Contiguous(start, feed) && r.offset == NextOffset(start, CommittedBy(feed), r.partition)
    ensures Contiguous(start, feed + [r]) && CommittedBy(feed + [r]) == CommittedBy(feed)[r.partition := r.offset]
  {
    assert (feed + [r])[..|feed|] == feed;
  }

  lemma FeedSeenOneMore(c: Config, s: State, s': State, r: Record)
    requires FeedSeen(c, s) && c.start(r.partition) <= r.offset == NextOffset(c.start, s.seen, r.partition)
    requires s'.observed == s.observed + [r] && s'.seen == s.seen[r.partition := r.offset]
    ensures FeedSeen(c, s')
  {
    FeedOneMore(c.start, s.observed, r);
    forall q <- s'.observed ensures WasObserved(c, s', q) {
      assert q == r || WasObserved(c, s, q);
    }
  }

  lemma NextRecordObserves(c: Config, s: State)
    requires Whereabouts(c, s) && s.main.Iterating? && FeedSeen(c, s)
    ensures FeedSeen(c, s.NextRecord())
  {
    if s.main.rest != [] {
      NextRecordIsNew(c, s);
      FeedSeenOneMore(c, s, s.NextRecord(), s.main.rest[0]);
    }
  }

  lemma {:induction false} ObservedRun(c: Config, s: State, run: seq<Action>)
    requires Inv(c, s) && ValidRun(c, s, run) && FeedSeen(c, s)
    ensures FeedSeen(c, After(c, s, run))
    decreases |run|
  {
    if run != [] {
      InvKept(c, s, run[0]);
      if run[0].NextRecord? {
        NextRecordObserves(c, s);
      } else if IsMainStep(run[0]) {
        MainStepFrame(c, s, run[0]);
      } else {
        WorkersObserveNothing(c, s, run[0]);
      }
      ObservedRun(c, Apply(c, s, run[0]), run[1..]);
    }
  }

  lemma ObservedFromStart(c: Config, s: State)
    requires Reachable(c, s)
    ensures FeedSeen(c, s)
  {
    var run :| ValidRun(c, Start(c).value, run) && After(c, Start(c).value, run) == s;
    StartInv(c);
    ObservedRun(c, Start(c).value, run);
  }

  /** Offsets passed to commit strictly increase per partition. */
  lemma CommitsIncrease(c: Config, s: State)
    requires Reachable(c, s)
    ensures Increasing(s.issued)
  {
    ReachableInv(c, s);
  }

  lemma BrokenStaysBroken(c: Config, s: State, a: Action)
    requires c.pool > 0 && Enabled(c, s, a) && s.broken && !s.committer.Committing?
    ensures var s' := Apply(c, s, a);
            s'.broken && s'.issued == s.issued && s'.committed == s.committed && s'.refused == s.refused
  {
    if IsMainStep(a) { MainStepFrame(c, s, a); }
  }

  /** After a refused commit no other is issued and the committed point stays put, whatever else the
      run does. */
  lemma {:induction false} BrokenStopsCommits(c: Config, s: State, run: seq<Action>)
    requires Inv(c, s) && s.broken && ValidRun(c, s, run)
    ensures After(c, s, run).issued == s.issued && After(c, s, run).committed == s.committed
    ensures After(c, s, run).broken && After(c, s, run).refused == s.refused
    decreases |run|
  {
    if run != [] {
      InvKept(c, s, run[0]);
      BrokenStaysBroken(c, s, run[0]);
      BrokenStopsCommits(c, Apply(c, s, run[0]), run[1..]);
    }
  }

  // ---- the end of a run ---------------------------------------------------------------------

  /** The end of the longest contiguous handled prefix of partition `p`. */
  ghost predicate IsHandledPrefixEnd(c: Config, s: State, p: int, n: int) {
    && c.start(p) <= n && Record(p, n) !in s.handled
    && forall o :: c.start(p) <= o < n ==> Record(p, o) in s.handled
  }

  /** On return the completed channel is drained and every handled record has reached the tracker,
      refused commit or not; if no commit was refused, each partition is committed exactly up to the
      end of its handled prefix. */
  lemma ReturnedIsDrained(c: Config, s: State)
    requires Reachable(c, s) && s.main.Returned?
    ensures s.buffer == [] && s.folded == s.handled
    ensures forall p <- s.seen :: p in s.tracker && IsHandledPrefixEnd(c, s, p, s.tracker[p].next)
    ensures !s.broken ==> forall p <- s.seen :: IsHandledPrefixEnd(c, s, p, NextOffset(c.start, s.committed, p))
  {
    ReachableInv(c, s);
    forall r <- s.handled ensures r in s.folded {
      assert 0 <= c.WorkerOf(r) < c.pool && s.workers[c.WorkerOf(r)].Exited?;
    }
  }

  // ---- refinement of the sequential consumer ------------------------------------------------

  /** The records of `rs` at or below the committed offsets, in their order. */
  function UpTo(rs: seq<Record>, committed: map<int, int>): seq<Record> {
    if rs == [] then []
    else
      var init, last := UpTo(rs[..|rs| - 1], committed), rs[|rs| - 1];
      if last.partition in committed && last.offset <= committed[last.partition] then init + [last] else init
  }

  lemma {:induction false} UpToHolds(rs: seq<Record>, committed: map<int, int>)
    ensures forall r <- UpTo(rs, committed) :: r in rs && r.partition in committed && r.offset <= committed[r.partition]
  {
    if rs != [] {
      UpToHolds(rs[..|rs| - 1], committed);
      assert rs == rs[..|rs| - 1] + [rs[|rs| - 1]];
    }
  }

  function Least(a: int, b: int): int {
    if a <= b then a else b
  }

  /** Committing `kept` in turn leaves what `committed` allows of what `feed` reached. */
  ghost predicate Cuts(kept: map<int, int>, committed: map<int, int>, reached: map<int, int>) {
    && (forall p :: p in kept <==> p in committed && p in reached)
    && (forall p <- kept :: kept[p] == Least(committed[p], reached[p]))
  }

  lemma CutsOneMore(start: int -> int, kept: map<int, int>, committed: map<int, int>, reached: map<int, int>, r: Record)
    requires Cuts(kept, committed, reached) && r.offset == NextOffset(start, reached, r.partition)
    requires forall p <- committed :: start(p) <= committed[p]
    ensures var reached' := reached[r.partition := r.offset];
            if r.partition in committed && r.offset <= committed[r.partition] then
              && r.offset == NextOffset(start, kept, r.partition)
              && Cuts(kept[r.partition := r.offset], committed, reached')
            else Cuts(kept, committed, reached')
  {}

  /** Cutting a contiguous feed at the committed offsets leaves a contiguous feed. */
  lemma {:induction false} UpToContiguous(start: int -> int, feed: seq<Record>, committed: map<int, int>)
    requires Contiguous(start, feed) && forall p <- committed :: start(p) <= committed[p]
    ensures Contiguous(start, UpTo(feed, committed))
    ensures Cuts(CommittedBy(UpTo(feed, committed)), committed, CommittedBy(feed))
  {
    if feed != [] {
      var init, last := feed[..|feed| - 1], feed[|feed| - 1];
      UpToContiguous(start, init, committed);
      CutsOneMore(start, CommittedBy(UpTo(init, committed)), committed, CommittedBy(init), last);
      assert (UpTo(init, committed) + [last])[..|UpTo(init, committed)|] == UpTo(init, committed);
    }
  }

  lemma CutsAll(kept: map<int, int>, committed: map<int, int>, reached: map<int, int>)
    requires Cuts(kept, committed, reached) && forall p <- committed :: p in reached && committed[p] <= reached[p]
    ensures kept == committed
  {
    assert forall p :: p in kept <==> p in committed;
    assert forall p <- committed :: kept[p] == committed[p];
  }

  lemma CommittedWasSeen(c: Config, s: State, p: int)
    requires Reachable(c, s) && p in s.committed
    ensures c.start(p) <= s.committed[p] && p in s.seen && s.committed[p] <= s.seen[p]
  {
    ReachableInv(c, s);
    CommittedMeansHandled(c, s, p, s.committed[p]);
    assert WasObserved(c, s, Record(p, s.committed[p]));
  }

  lemma UpToHandled(c: Config, s: State, r: Record)
    requires Reachable(c, s) && r in UpTo(s.observed, s.committed)
    ensures r in s.handled
  {
    ObservedFromStart(c, s);
    UpToHolds(s.observed, s.committed);
    assert WasObserved(c, s, r);
    CommittedMeansHandled(c, s, r.partition, r.offset);
  }

  /** The committed point of any reachable state is one the sequential consumer reaches: on the records
      fetched here, in fetch order, cut at the committed offsets, with handlers that succeed on what was
      handled here. */
  lemma RefinesSequential(c: Config, s: State)
    requires Reachable(c, s)
    ensures var feed := UpTo(s.observed, s.committed);
            && Contiguous(c.start, feed)
            && (forall r <- feed :: r in s.handled)
            && Ran(feed, None, r => r in s.handled, r => true) == Outcome(feed, s.committed, None)
  {
    var feed := UpTo(s.observed, s.committed);
    ObservedFromStart(c, s);
    forall p <- s.committed ensures c.start(p) <= s.committed[p] && p in s.seen && s.committed[p] <= s.seen[p] {
      CommittedWasSeen(c, s, p);
    }
    UpToContiguous(c.start, s.observed, s.committed);
    CutsAll(CommittedBy(feed), s.committed, s.seen);
    forall r <- feed ensures r in s.handled { UpToHandled(c, s, r); }
    RanClean(feed, None, r => r in s.handled, r => true);
  }

  // ---- the answer ---------------------------------------------------------------------------

  /** The first failure is the answer; a run without one answers why fetching stopped. */
  ghost predicate Answers(s: State) {
    && (s.failErr.Some? <==> s.failed != {} || s.broken)
    && (s.failErr.Some? ==>
          && s.cancelled
          && ((s.failErr.value.HandlerFailed? && s.failErr.value.r in s.failed)
              || (s.failErr.value.CommitFailed? && s.broken && s.failErr.value.r in s.issued)))
    && (s.fetchErr.Some? <==> s.FetchLoopDone())
    && (s.fetchErr.Some? ==> s.fetchErr.value.Cancelled? || s.fetchErr.value.FetchFailed?)
    && (s.fetchErr == Some(Cancelled) ==> s.cancelled)
    && (s.committer.Committing? ==> s.committer.r in s.issued)
    && s.refused == (if s.broken then 1 else 0)
  }

  lemma FailKeepsAnswers(s: State, w: nat)
    requires Answers(s) && w < |s.workers| && s.workers[w].Handling?
    ensures Answers(s.FailHandler(w))
  {
    assert s.workers[w].r in s.FailHandler(w).failed;
  }

  lemma ReceiveKeepsAnswers(s: State)
    requires Answers(s) && s.committer.Receiving? && s.buffer != [] && s.buffer[0].partition in s.tracker
    ensures Answers(s.Receive())
  {}

  lemma CommitKeepsAnswers(s: State, accepted: bool, landed: bool)
    requires Answers(s) && s.committer.Committing? && !s.broken
    ensures Answers(s.Committed(accepted, landed))
  {}

  lemma AnswersKept(c: Config, s: State, a: Action)
    requires Answers(s) && c.pool > 0 && Enabled(c, s, a) && (s.committer.Committing? ==> !s.broken)
    ensures Answers(Apply(c, s, a))
  {
    match a
    case FailHandler(w) => FailKeepsAnswers(s, w);
    case Receive => ReceiveKeepsAnswers(s);
    case CommitAccepted => CommitKeepsAnswers(s, true, true);
    case CommitRefused(landed) => CommitKeepsAnswers(s, false, landed);
    case _ => OthersKeepAnswers(c, s, a);
  }

  lemma OthersKeepAnswers(c: Config, s: State, a: Action)
    requires Answers(s) && c.pool > 0 && Enabled(c, s, a)
    requires !a.FailHandler? && !a.Receive? && !a.CommitAccepted? && !a.CommitRefused?
    ensures Answers(Apply(c, s, a))
  {
    if IsMainStep(a) { MainLeavesAnswers(c, s, a); } else { WorkersLeaveAnswers(c, s, a); }
  }

  /** Nothing failed or was issued, and the answer is as it was. */
  ghost predicate SameFailures(s: State, s': State) {
    && s'.failErr == s.failErr && s'.failed == s.failed && s'.issued == s.issued
    && s'.broken == s.broken && s'.refused == s.refused && (s.cancelled ==> s'.cancelled)
    && (s'.committer == s.committer || s'.committer.Finished?)
  }

  lemma WorkersLeaveAnswers(c: Config, s: State, a: Action)
    requires c.pool > 0 && Enabled(c, s, a)
    requires a.NextRecord? || a.Dispatch? || a.Begin? || a.Succeed? || a.Send? || a.Exit? || a.FinishCommitter?
    ensures var s' := Apply(c, s, a);
            SameFailures(s, s') && s'.fetchErr == s.fetchErr && s'.FetchLoopDone() == s.FetchLoopDone()
  {
    if a.NextRecord? || a.Dispatch? { FetchLeavesAnswers(c, s, a); }
  }

  lemma FetchLeavesAnswers(c: Config, s: State, a: Action)
    requires c.pool > 0 && Enabled(c, s, a) && (a.NextRecord? || a.Dispatch?)
    ensures var s' := Apply(c, s, a);
            SameFailures(s, s') && s'.fetchErr == s.fetchErr && s'.FetchLoopDone() == s.FetchLoopDone()
  {}

  lemma MainLeavesAnswers(c: Config, s: State, a: Action)
    requires c.pool > 0 && Enabled(c, s, a) && IsMainStep(a)
    ensures var s' := Apply(c, s, a);
            && SameFailures(s, s')
            && ((s'.fetchErr == s.fetchErr && s'.FetchLoopDone() == s.FetchLoopDone())
                || (s'.FetchLoopDone() && s'.fetchErr == Some(FetchFailed))
                || (s'.FetchLoopDone() && s'.fetchErr == Some(Cancelled) && s'.cancelled))
  {
    MainStepFrame(c, s, a);
  }

  lemma {:induction false} AnswersRun(c: Config, s: State, run: seq<Action>)
    requires Inv(c, s) && Answers(s) && ValidRun(c, s, run)
    ensures Answers(After(c, s, run))
    decreases |run|
  {
    if run != [] {
      InvKept(c, s, run[0]);
      AnswersKept(c, s, run[0]);
      AnswersRun(c, Apply(c, s, run[0]), run[1..]);
    }
  }

  /** ConsumeKeyed never returns without an error. The error blames a handler or a commit exactly when
      one failed, and names a record that did fail; otherwise it says why fetching stopped, a poll that
      failed or the caller's own cancellation. At most one commit is ever refused. */
  lemma AnswerIsTruthful(c: Config, run: seq<Action>)
    requires c.pool > 0 && ValidRun(c, Start(c).value, run) && After(c, Start(c).value, run).main.Returned?
    ensures var s := After(c, Start(c).value, run);
            && s.Answer().Some? && s.refused <= 1
            && var e := s.Answer().value;
            && (e.HandlerFailed? || e.CommitFailed? <==> s.failed != {} || s.broken)
            && (e.HandlerFailed? ==> e.r in s.failed)
            && (e.CommitFailed? ==> s.broken && e.r in s.issued)
            && (e.FetchFailed? ==> PollFailed(run))
            && (e.Cancelled? ==> Cancel in run)
  {
    StartInv(c);
    AnswersRun(c, Start(c).value, run);
    FetchErrorIsTruthful(c, run);
  }
}
