/** Shutdown of the keyed consumer: no deadlock, no send on a closed channel, and a decreasing measure
    from the moment it is cancelled or its fetch loop returns. */
module KeyedTermination {
  import opened Prelude
  import opened CommitTracking
  import opened SequentialConsuming
  import opened KeyedConsuming
  import opened KeyedSafety
  import opened KeyedTheorems

  // ---- no deadlock --------------------------------------------------------------------------

  /** A worker that has not exited, with its channel closed or not, has a step of its own, unless it
      is idle waiting for work or blocked on a full completed channel. */
  lemma WorkerMoves(c: Config, s: State, w: nat) returns (a: Action)
    requires Shape(c, s) && w < c.pool && !s.workers[w].Exited?
    requires s.workers[w].Idle? ==> s.WorkerChannelsClosed(w)
    requires s.workers[w].Sending? ==> |s.buffer| < c.pool
    ensures Enabled(c, s, a) && a != Cancel
  {
    match s.workers[w]
    case Idle => a := Exit(w);
    case Received(_) => a := Begin(w);
    case Handling(_) => a := Succeed(w);
    case Sending(_) => a := Send(w);
  }

  /** The committer always moves while there is something buffered, so a full channel empties. */
  lemma CommitterMoves(c: Config, s: State) returns (a: Action)
    requires Inv(c, s) && s.buffer != []
    ensures Enabled(c, s, a) && a != Cancel
  {
    if s.committer.Committing? {
      a := CommitAccepted;
    } else {
      assert WasObserved(c, s, s.buffer[0]);
      a := Receive;
    }
  }

  /** Every reachable state short of the return has a step to take: handlers, polls and commits that
      return are all the consumer ever waits for. */
  lemma NoDeadlock(c: Config, s: State) returns (a: Action)
    requires Reachable(c, s) && !s.main.Returned?
    ensures Enabled(c, s, a) && a != Cancel
  {
    ReachableInv(c, s);
    if s.buffer != [] {
      a := CommitterMoves(c, s);
      return;
    }
    match s.main
    case AtTop => a := CheckTop;
    case Polling => a := PollReturns([], false);
    case Polled(_, _) => a := CheckPoll;
    case Iterating(_) => a := NextRecord;
    case Offering(r, _) =>
      var w := c.WorkerOf(r);
      if s.workers[w].Idle? {
        a := Dispatch;
      } else {
        a := WorkerMoves(c, s, w);
      }
    case Closing(closed) =>
      if closed < c.pool {
        a := CloseChannel;
      } else if w :| 0 <= w < c.pool && !s.workers[w].Exited? {
        a := WorkerMoves(c, s, w);
      } else {
        a := JoinWorkers;
      }
    case AwaitingCommitter =>
      a := if s.committer.Finished? then JoinCommitter
           else if s.committer.Committing? then CommitAccepted else FinishCommitter;
  }

  /** Nobody sends on a closed channel: no worker still holds a record once completed is closed, and
      the fetch loop offers records only while every worker channel is open. */
  lemma NoSendOnClosedChannel(c: Config, s: State, w: nat)
    requires Reachable(c, s) && w < |s.workers|
    ensures s.CompletedClosed() ==> !s.workers[w].Sending? && !s.workers[w].Handling? && !s.workers[w].Received?
    ensures s.main.Offering? ==> !s.WorkerChannelsClosed(w)
  {
    ReachableInv(c, s);
    assert s.CompletedClosed() ==> s.workers[w].Exited?;
  }

  // ---- termination --------------------------------------------------------------------------

  /** Steps still in front of one worker, its record's trip through the committer included. */
  function WorkerWork(w: Worker): nat {
    match w
    case Exited => 0
    case Idle => 1
    case Sending(_) => 4
    case Handling(_) => 5
    case Received(_) => 6
  }

  function PoolWork(ws: seq<Worker>): nat {
    if ws == [] then 0 else PoolWork(ws[..|ws| - 1]) + WorkerWork(ws[|ws| - 1])
  }

  function MainWork(pool: nat, m: Main): nat {
    match m
    case Returned => 0
    case AwaitingCommitter => 1
    case Closing(closed) => 2 + if closed <= pool then pool - closed else 0
    case AtTop => pool + 3
    case Polled(_, _) => pool + 3
    case Polling => pool + 4
    case Iterating(rest) => pool + 4 + 7 * |rest|
    case Offering(_, rest) => pool + 4 + 7 * |rest| + 6
  }

  function CommitterWork(k: Committer): nat {
    match k
    case Finished => 0
    case Receiving => 1
    case Committing(_) => 2
  }

  function Measure(c: Config, s: State): nat
    requires c.pool > 0
  {
    MainWork(c.pool, s.main) + PoolWork(s.workers) + 2 * |s.buffer| + CommitterWork(s.committer)
    + if s.cancelled then 0 else 1
  }

  /** Cancelled, or out of the fetch loop: the consumer is on its way out. */
  predicate Stopping(s: State) {
    s.cancelled || s.FetchLoopDone()
  }

  lemma {:induction false} PoolWorkUpdate(ws: seq<Worker>, w: nat, v: Worker)
    requires w < |ws|
    ensures PoolWork(ws[w := v]) == PoolWork(ws) - WorkerWork(ws[w]) + WorkerWork(v)
  {
    var n := |ws| - 1;
    if w < n {
      assert ws[w := v][..n] == ws[..n][w := v];
      PoolWorkUpdate(ws[..n], w, v);
    } else {
      assert ws[w := v][..n] == ws[..n];
    }
  }

  lemma WorkerStepDecreases(c: Config, s: State, a: Action)
    requires c.pool > 0 && Enabled(c, s, a) && Stopping(s)
    requires a.Dispatch? || a.Begin? || a.Succeed? || a.FailHandler? || a.Send? || a.Exit?
    ensures Measure(c, Apply(c, s, a)) < Measure(c, s) && Stopping(Apply(c, s, a))
  {
    match a
    case Dispatch => PoolWorkUpdate(s.workers, c.WorkerOf(s.main.r), Received(s.main.r));
    case Begin(w) => PoolWorkUpdate(s.workers, w, Handling(s.workers[w].r));
    case Succeed(w) => PoolWorkUpdate(s.workers, w, Sending(s.workers[w].r));
    case FailHandler(w) => PoolWorkUpdate(s.workers, w, Idle);
    case Send(w) => PoolWorkUpdate(s.workers, w, Idle);
    case Exit(w) => PoolWorkUpdate(s.workers, w, Exited);
  }

  lemma MainStepDecreases(c: Config, s: State, a: Action)
    requires Shape(c, s) && Enabled(c, s, a) && Stopping(s)
    requires a.Cancel? || a.CheckTop? || a.PollReturns? || a.CheckPoll? || a.NextRecord? || a.Abandon?
          || a.CloseChannel? || a.JoinWorkers? || a.JoinCommitter?
    ensures Measure(c, Apply(c, s, a)) < Measure(c, s) && Stopping(Apply(c, s, a))
  {
    assert Apply(c, s, a).workers == s.workers;
  }

  lemma CommitterStepDecreases(c: Config, s: State, a: Action)
    requires c.pool > 0 && Enabled(c, s, a) && Stopping(s)
    requires a.Receive? || a.CommitAccepted? || a.CommitRefused? || a.FinishCommitter?
    ensures Measure(c, Apply(c, s, a)) < Measure(c, s) && Stopping(Apply(c, s, a))
  {
    assert Apply(c, s, a).workers == s.workers;
  }

  lemma StepDecreases(c: Config, s: State, a: Action)
    requires Shape(c, s) && Stopping(s) && Enabled(c, s, a)
    ensures Measure(c, Apply(c, s, a)) < Measure(c, s) && Stopping(Apply(c, s, a))
  {
    if a.Dispatch? || a.Begin? || a.Succeed? || a.FailHandler? || a.Send? || a.Exit? {
      WorkerStepDecreases(c, s, a);
    } else if a.Receive? || a.CommitAccepted? || a.CommitRefused? || a.FinishCommitter? {
      CommitterStepDecreases(c, s, a);
    } else {
      MainStepDecreases(c, s, a);
    }
  }

  /** From a stopping state no run, under any interleaving, is longer than the measure; with
      NoDeadlock, every run that is not cut short ends in the return. */
  lemma {:induction false} ShutdownTerminates(c: Config, s: State, run: seq<Action>)
    requires Inv(c, s) && Stopping(s) && ValidRun(c, s, run)
    ensures |run| <= Measure(c, s)
    decreases |run|
  {
    if run != [] {
      StepDecreases(c, s, run[0]);
      InvKept(c, s, run[0]);
      ShutdownTerminates(c, Apply(c, s, run[0]), run[1..]);
    }
  }

  /** A stopping consumer can always be driven to its return. */
  lemma {:induction false} ShutdownCompletes(c: Config, s: State) returns (run: seq<Action>)
    requires Reachable(c, s) && Stopping(s)
    ensures ValidRun(c, s, run) && After(c, s, run).main.Returned?
    decreases Measure(c, s)
  {
    ReachableInv(c, s);
    if s.main.Returned? {
      run := [];
    } else {
      var a := NoDeadlock(c, s);
      StepDecreases(c, s, a);
      StepReachable(c, s, a);
      var rest := ShutdownCompletes(c, Apply(c, s, a));
      run := [a] + rest;
    }
  }

  lemma {:induction false} RunExtends(c: Config, s: State, run: seq<Action>, a: Action)
    requires c.pool > 0 && ValidRun(c, s, run) && Enabled(c, After(c, s, run), a)
    ensures ValidRun(c, s, run + [a]) && After(c, s, run + [a]) == Apply(c, After(c, s, run), a)
    decreases |run|
  {
    if run == [] {
      assert run + [a] == [a];
    } else {
      assert (run + [a])[1..] == run[1..] + [a];
      RunExtends(c, Apply(c, s, run[0]), run[1..], a);
    }
  }

  lemma StepReachable(c: Config, s: State, a: Action)
    requires Reachable(c, s) && Enabled(c, s, a)
    ensures Reachable(c, Apply(c, s, a))
  {
    var run :| ValidRun(c, Start(c).value, run) && After(c, Start(c).value, run) == s;
    RunExtends(c, Start(c).value, run, a);
  }
}
