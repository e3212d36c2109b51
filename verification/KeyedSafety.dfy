/** What every reachable state of the keyed consumer satisfies, and the safety theorems. */
module KeyedSafety {
  import opened Prelude
  import opened CommitTracking
  import opened SequentialConsuming
  import opened KeyedConsuming

  // ---- the invariant ------------------------------------------------------------------------

  /** Pool, channel bounds and the order of shutdown. */
  ghost predicate Shape(c: Config, s: State) {
    && |s.workers| == c.pool && 0 < c.pool
    && |s.buffer| <= c.pool
    && (s.main.Closing? ==> s.main.closed <= c.pool)
    && (forall w :: 0 <= w < c.pool && s.workers[w].Exited? ==> s.WorkerChannelsClosed(w))
    && (s.CompletedClosed() ==> forall w :: 0 <= w < c.pool ==> s.workers[w].Exited?)
    && (s.committer.Finished? ==> s.buffer == [] && s.CompletedClosed())
    && (s.main.Returned? ==> s.committer.Finished?)
  }

  predicate WasObserved(c: Config, s: State, r: Record) {
    r.partition in s.seen && c.start(r.partition) <= r.offset <= s.seen[r.partition]
  }

  predicate AtWorker(w: Worker, r: Record) {
    (w.Received? || w.Handling?) && w.r == r
  }

  /** What the fetch loop holds continues the log from what it has observed. */
  ghost predicate FetchLoop(c: Config, s: State)
    requires Shape(c, s)
  {
    && s.seen.Keys == s.tracker.Keys
    && (forall p <- s.seen :: c.start(p) <= s.seen[p])
    && (s.main.Polled? ==> Follows(c.start, s.seen, s.main.batch))
    && (s.main.Iterating? ==> Follows(c.start, s.seen, s.main.rest))
    && (s.main.Offering? ==>
          && Follows(c.start, s.seen, s.main.rest)
          && WasObserved(c, s, s.main.r)
          && s.main.r !in s.handled && s.main.r !in s.failed
          && !AtWorker(s.workers[c.WorkerOf(s.main.r)], s.main.r))
  }

  /** A record being worked on is not settled; a settled one has failed, or is finished and on its
      way to the tracker. */
  ghost predicate Placement(c: Config, s: State)
    requires Shape(c, s)
  {
    && (forall w :: 0 <= w < c.pool && (s.workers[w].Received? || s.workers[w].Handling?) ==>
          var r := s.workers[w].r;
          c.WorkerOf(r) == w && WasObserved(c, s, r) && r !in s.handled && r !in s.failed)
    && (forall w :: 0 <= w < c.pool && s.workers[w].Sending? ==>
          c.WorkerOf(s.workers[w].r) == w && s.workers[w].r in s.handled)
    && (forall r <- s.handled :: WasObserved(c, s, r))
    && (forall r <- s.failed :: WasObserved(c, s, r) && r !in s.handled)
    && (forall r <- s.buffer :: r in s.handled)
    && s.folded <= s.handled
    && (forall r <- s.handled :: r in s.folded || r in s.buffer || s.workers[c.WorkerOf(r)] == Sending(r))
  }

  /** `next` is the first offset from the start not folded in; above it, parked means folded. */
  ghost predicate Exact(start: int -> int, t: Tracker, folded: set<Record>) {
    && WellFormed(t)
    && (forall p <- t :: start(p) <= t[p].next && Record(p, t[p].next) !in folded)
    && (forall p <- t, o :: start(p) <= o < t[p].next ==> Record(p, o) in folded)
    && (forall p <- t, o :: t[p].next < o ==> (o in t[p].parked <==> Record(p, o) in folded))
  }

  /** Commits stay below the tracker's gap. */
  ghost predicate Below(start: int -> int, t: Tracker, committed: map<int, int>, issued: seq<Record>) {
    && (forall p <- committed :: p in t && start(p) <= committed[p] < t[p].next)
    && (forall r <- issued :: r.partition in t && r.offset < t[r.partition].next)
    && Increasing(issued)
  }

  /** Partition `p`'s committed offset has caught up with the tracker. */
  ghost predicate CaughtUp(start: int -> int, t: Tracker, committed: map<int, int>, p: int)
    requires p in t
  {
    if p in committed then committed[p] == t[p].next - 1 else t[p].next == start(p)
  }

  /** The committer's state: it lags by at most the commit in flight until one is refused. */
  ghost predicate InStep(start: int -> int, t: Tracker, committed: map<int, int>, committer: Committer, broken: bool) {
    && (committer.Committing? ==>
          var r := committer.r;
          && !broken && r.partition in t
          && start(r.partition) <= r.offset == t[r.partition].next - 1)
    && (!broken ==> forall p <- t ::
          (committer.Committing? && committer.r.partition == p) || CaughtUp(start, t, committed, p))
  }

  ghost predicate Commits(c: Config, s: State) {
    && Exact(c.start, s.tracker, s.folded)
    && Below(c.start, s.tracker, s.committed, s.issued)
    && InStep(c.start, s.tracker, s.committed, s.committer, s.broken)
  }

  /** Where the records are, as far as the fetch loop and the workers are concerned. */
  ghost predicate Whereabouts(c: Config, s: State) {
    Shape(c, s) && FetchLoop(c, s) && Placement(c, s)
  }

  ghost predicate Inv(c: Config, s: State) {
    Whereabouts(c, s) && Commits(c, s)
  }

  // ---- the tracker under observe and complete -----------------------------------------------

  lemma ExactObserved(start: int -> int, t: Tracker, folded: set<Record>, r: Record)
    requires Exact(start, t, folded)
    requires r.partition !in t ==> r.offset == start(r.partition) && forall f <- folded :: f.partition != r.partition
    ensures Exact(start, Observed(t, r), folded)
  {}

  lemma ExactSettled(start: int, p: int, q: Progress, folded: set<Record>, r: Record)
    requires r.partition == p && start <= q.next && q.Sound(p) && Record(p, q.next) !in folded
    requires forall o :: start <= o < q.next ==> Record(p, o) in folded
    requires forall o :: q.next < o ==> (o in q.parked <==> Record(p, o) in folded)
    requires start <= r.offset
    ensures var q' := Settled(q, r);
            && q.next <= q'.next && q'.Sound(p) && Record(p, q'.next) !in folded + {r}
            && (forall o :: start <= o < q'.next ==> Record(p, o) in folded + {r})
            && (forall o :: q'.next < o ==> (o in q'.parked <==> Record(p, o) in folded + {r}))
  {
    SettledSound(q, r);
    if q.next <= r.offset {
      var parked := q.parked[r.offset := r];
      assert r == Record(p, r.offset);
      assert forall o :: q.next <= o ==> (o in parked <==> Record(p, o) in folded + {r});
    }
  }

  lemma ExactCompleted(start: int -> int, t: Tracker, folded: set<Record>, r: Record)
    requires Exact(start, t, folded) && r.partition in t && start(r.partition) <= r.offset
    ensures Exact(start, Completed(t, r), folded + {r})
  {
    ExactSettled(start(r.partition), r.partition, t[r.partition], folded, r);
  }

  // ---- every step keeps it ------------------------------------------------------------------

  /** Steps that leave records, workers and channel alone. */
  ghost predicate SameRecords(s: State, s': State) {
    && s'.seen == s.seen && s'.tracker == s.tracker && s'.workers == s.workers && s'.buffer == s.buffer
    && s'.handled == s.handled && s'.failed == s.failed && s'.folded == s.folded
  }

  lemma SameRecordsSamePlacement(c: Config, s: State, s': State)
    requires Whereabouts(c, s) && Shape(c, s') && SameRecords(s, s')
    ensures Placement(c, s')
  {
    assert forall r :: WasObserved(c, s, r) == WasObserved(c, s', r);
  }

  predicate IsMainStep(a: Action) {
    a.Cancel? || a.CheckTop? || a.PollReturns? || a.CheckPoll? || a.Abandon?
    || a.CloseChannel? || a.JoinWorkers? || a.JoinCommitter?
  }

  /** All that the caller, and the main goroutine apart from its records, ever change. */
  lemma MainStepFrame(c: Config, s: State, a: Action)
    requires c.pool > 0 && Enabled(c, s, a) && IsMainStep(a)
    ensures var s' := Apply(c, s, a);
            s' == s.(main := s'.main, fetchErr := s'.fetchErr, cancelled := s'.cancelled)
  {}

  /** How the main goroutine moves. */
  lemma MainStepMoves(c: Config, s: State, a: Action)
    requires Shape(c, s) && FetchLoop(c, s) && Enabled(c, s, a) && IsMainStep(a)
    ensures var m := Apply(c, s, a).main;
            && (m.Polled? ==> Follows(c.start, s.seen, m.batch))
            && (m.Iterating? ==> Follows(c.start, s.seen, m.rest))
            && (m.Offering? ==> m == s.main)
            && (m.Closing? ==> m.closed <= c.pool)
            && (m.AwaitingCommitter? ==> m == s.main || forall w <- s.workers :: w.Exited?)
            && (m.Returned? ==> m == s.main || (s.committer.Finished? && s.main.AwaitingCommitter?))
            && (s.main.Closing? ==> (m.Closing? && s.main.closed <= m.closed) || m.AwaitingCommitter?)
            && (s.main.AwaitingCommitter? ==> m.AwaitingCommitter? || m.Returned?)
            && (s.main.Returned? ==> m.Returned?)
  {}

  lemma MainKeepsWhereabouts(c: Config, s: State, a: Action)
    requires Whereabouts(c, s) && Enabled(c, s, a) && IsMainStep(a)
    ensures Whereabouts(c, Apply(c, s, a))
  {
    MainStepFrame(c, s, a);
    MainStepMoves(c, s, a);
    SameRecordsSamePlacement(c, s, Apply(c, s, a));
  }

  lemma CommitterKeepsWhereabouts(c: Config, s: State, a: Action)
    requires Whereabouts(c, s) && Enabled(c, s, a)
    requires a.CommitAccepted? || a.CommitRefused? || a.FinishCommitter?
    ensures Whereabouts(c, Apply(c, s, a))
  {
    SameRecordsSamePlacement(c, s, Apply(c, s, a));
  }

  /** The record fetched next has never been seen, so nobody holds it and nothing has settled it. */
  lemma NextRecordIsNew(c: Config, s: State)
    requires Whereabouts(c, s) && s.main.Iterating? && s.main.rest != []
    ensures var r := s.main.rest[0];
            && r !in s.handled && r !in s.failed && !AtWorker(s.workers[c.WorkerOf(r)], r)
            && c.start(r.partition) <= r.offset
            && forall q :: WasObserved(c, s, q) ==> WasObserved(c, s.NextRecord(), q)
  {
    assert !WasObserved(c, s, s.main.rest[0]);
  }

  lemma NextRecordKeepsWhereabouts(c: Config, s: State)
    requires Whereabouts(c, s) && s.main.Iterating?
    ensures Whereabouts(c, s.NextRecord())
  {
    if s.main.rest != [] {
      NextRecordIsNew(c, s);
      NextRecordKeepsFetchLoop(c, s);
    }
  }

  lemma NextRecordKeepsFetchLoop(c: Config, s: State)
    requires Shape(c, s) && FetchLoop(c, s) && s.main.Iterating? && s.main.rest != []
    requires var r := s.main.rest[0];
             && r !in s.handled && r !in s.failed && !AtWorker(s.workers[c.WorkerOf(r)], r)
             && c.start(r.partition) <= r.offset
    ensures Shape(c, s.NextRecord()) && FetchLoop(c, s.NextRecord())
  {}

  lemma DispatchKeepsWhereabouts(c: Config, s: State, w: nat)
    requires Whereabouts(c, s) && s.main.Offering? && w == c.WorkerOf(s.main.r) && s.workers[w].Idle?
    ensures Whereabouts(c, s.Dispatch(w))
  {
    var s' := s.Dispatch(w);
    assert forall r :: WasObserved(c, s, r) == WasObserved(c, s', r);
    assert forall v :: 0 <= v < c.pool && v != w ==> s'.workers[v] == s.workers[v];
  }

  lemma BeginKeepsWhereabouts(c: Config, s: State, w: nat)
    requires Whereabouts(c, s) && w < c.pool && s.workers[w].Received?
    ensures Whereabouts(c, s.Begin(w))
  {
    var s' := s.Begin(w);
    assert forall r :: WasObserved(c, s, r) == WasObserved(c, s', r);
    assert forall v :: 0 <= v < c.pool && v != w ==> s'.workers[v] == s.workers[v];
  }

  lemma SucceedKeepsWhereabouts(c: Config, s: State, w: nat)
    requires Whereabouts(c, s) && w < c.pool && s.workers[w].Handling?
    ensures Whereabouts(c, s.Succeed(w))
  {
    var s' := s.Succeed(w);
    assert forall r :: WasObserved(c, s, r) == WasObserved(c, s', r);
    assert forall v :: 0 <= v < c.pool && v != w ==> s'.workers[v] == s.workers[v];
  }

  lemma FailKeepsWhereabouts(c: Config, s: State, w: nat)
    requires Whereabouts(c, s) && w < c.pool && s.workers[w].Handling?
    ensures Whereabouts(c, s.FailHandler(w))
  {
    var s' := s.FailHandler(w);
    assert forall r :: WasObserved(c, s, r) == WasObserved(c, s', r);
    assert forall v :: 0 <= v < c.pool && v != w ==> s'.workers[v] == s.workers[v];
  }

  lemma SendKeepsWhereabouts(c: Config, s: State, w: nat)
    requires Whereabouts(c, s) && w < c.pool && s.workers[w].Sending? && |s.buffer| < c.pool
    ensures Whereabouts(c, s.Send(w))
  {
    var s' := s.Send(w);
    assert forall r :: WasObserved(c, s, r) == WasObserved(c, s', r);
    assert s'.buffer[|s.buffer|] == s.workers[w].r;
    assert forall v :: 0 <= v < c.pool && v != w ==> s'.workers[v] == s.workers[v];
  }

  lemma ExitKeepsWhereabouts(c: Config, s: State, w: nat)
    requires Whereabouts(c, s) && w < c.pool && s.workers[w].Idle? && s.WorkerChannelsClosed(w)
    ensures Whereabouts(c, s.(workers := s.workers[w := Exited]))
  {
    assert forall r :: WasObserved(c, s, r) == WasObserved(c, s.(workers := s.workers[w := Exited]), r);
  }

  lemma ReceiveKeepsPlacement(c: Config, s: State, s': State)
    requires Shape(c, s) && Placement(c, s) && s.buffer != [] && Shape(c, s')
    requires s'.workers == s.workers && s'.seen == s.seen && s'.handled == s.handled && s'.failed == s.failed
    requires s'.buffer == s.buffer[1..] && s'.folded == s.folded + {s.buffer[0]}
    ensures Placement(c, s')
  {
    assert s.buffer == [s.buffer[0]] + s'.buffer;
    assert forall r :: WasObserved(c, s, r) == WasObserved(c, s', r);
  }

  lemma SameFetchLoop(c: Config, s: State, s': State)
    requires Shape(c, s) && FetchLoop(c, s) && Shape(c, s')
    requires s'.main == s.main && s'.seen == s.seen && s'.tracker.Keys == s.tracker.Keys
    requires s'.handled == s.handled && s'.failed == s.failed && s'.workers == s.workers
    ensures FetchLoop(c, s')
  {}

  lemma ReceiveKeepsShape(c: Config, s: State)
    requires Shape(c, s) && s.committer.Receiving? && s.buffer != [] && s.buffer[0].partition in s.tracker
    ensures Shape(c, s.Receive())
  {}

  lemma ReceiveKeepsWhereabouts(c: Config, s: State)
    requires Whereabouts(c, s) && s.committer.Receiving? && s.buffer != [] && s.buffer[0].partition in s.tracker
    ensures Whereabouts(c, s.Receive())
  {
    ReceiveKeepsShape(c, s);
    SameFetchLoop(c, s, s.Receive());
    ReceiveKeepsPlacement(c, s, s.Receive());
  }

  lemma WhereaboutsKept(c: Config, s: State, a: Action)
    requires Whereabouts(c, s) && Enabled(c, s, a)
    ensures Whereabouts(c, Apply(c, s, a))
  {
    match a
    case CommitAccepted => CommitterKeepsWhereabouts(c, s, a);
    case CommitRefused(_) => CommitterKeepsWhereabouts(c, s, a);
    case FinishCommitter => CommitterKeepsWhereabouts(c, s, a);
    case NextRecord => NextRecordKeepsWhereabouts(c, s);
    case Dispatch => DispatchKeepsWhereabouts(c, s, c.WorkerOf(s.main.r));
    case Begin(w) => BeginKeepsWhereabouts(c, s, w);
    case Succeed(w) => SucceedKeepsWhereabouts(c, s, w);
    case FailHandler(w) => FailKeepsWhereabouts(c, s, w);
    case Send(w) => SendKeepsWhereabouts(c, s, w);
    case Exit(w) => ExitKeepsWhereabouts(c, s, w);
    case Receive => ReceiveKeepsWhereabouts(c, s);
    case _ => MainKeepsWhereabouts(c, s, a);
  }

  // ---- tracker and commits ------------------------------------------------------------------

  /** Observing or folding in only ever raises the gaps. */
  ghost predicate Raised(t: Tracker, t': Tracker) {
    forall p <- t :: p in t' && t[p].next <= t'[p].next
  }

  lemma BelowRaised(start: int -> int, t: Tracker, t': Tracker, committed: map<int, int>, issued: seq<Record>)
    requires Below(start, t, committed, issued) && Raised(t, t')
    ensures Below(start, t', committed, issued)
  {}

  /** A partition observed for the first time starts with its gap at its starting offset. */
  lemma ObservedInStep(start: int -> int, t: Tracker, committed: map<int, int>, issued: seq<Record>,
                       committer: Committer, broken: bool, r: Record)
    requires Below(start, t, committed, issued) && InStep(start, t, committed, committer, broken)
    requires r.partition !in t ==> r.offset == start(r.partition)
    ensures Below(start, Observed(t, r), committed, issued)
    ensures InStep(start, Observed(t, r), committed, committer, broken)
  {
    var t' := Observed(t, r);
    assert forall p <- t :: t'[p] == t[p];
    BelowRaised(start, t, t', committed, issued);
  }

  lemma NextRecordKeepsCommits(c: Config, s: State)
    requires Whereabouts(c, s) && Commits(c, s) && s.main.Iterating?
    ensures Commits(c, s.NextRecord())
  {
    if s.main.rest != [] {
      var r := s.main.rest[0];
      assert r.partition !in s.tracker ==> forall f <- s.folded :: WasObserved(c, s, f) && f.partition != r.partition;
      ExactObserved(c.start, s.tracker, s.folded, r);
      ObservedInStep(c.start, s.tracker, s.committed, s.issued, s.committer, s.broken, r);
    }
  }

  /** Folding a record in, when the gap moves and the record below it is handed out. */
  lemma HandingOut(start: int -> int, t: Tracker, committed: map<int, int>, issued: seq<Record>, r: Record)
    requires Below(start, t, committed, issued) && r.partition in t && start(r.partition) <= t[r.partition].next
    requires Advanced(t, r).Some? && InStep(start, t, committed, Receiving, false)
    ensures Below(start, Completed(t, r), committed, issued + [Advanced(t, r).value])
    ensures InStep(start, Completed(t, r), committed, Committing(Advanced(t, r).value), false)
  {
    var t' := Completed(t, r);
    assert forall q <- t :: q != r.partition ==> t'[q] == t[q];
    BelowRaised(start, t, t', committed, issued);
  }

  /** Folding a record in, when nothing is handed out. */
  lemma HoldingBack(start: int -> int, t: Tracker, committed: map<int, int>, issued: seq<Record>, r: Record,
                    broken: bool)
    requires Below(start, t, committed, issued) && r.partition in t
    requires InStep(start, t, committed, Receiving, broken) && (broken || Advanced(t, r).None?)
    ensures Below(start, Completed(t, r), committed, issued)
    ensures InStep(start, Completed(t, r), committed, Receiving, broken)
  {
    var t' := Completed(t, r);
    assert forall q <- t :: q != r.partition ==> t'[q] == t[q];
    BelowRaised(start, t, t', committed, issued);
  }

  lemma ReceiveKeepsCommits(c: Config, s: State)
    requires Commits(c, s) && s.committer.Receiving?
    requires s.buffer != [] && s.buffer[0].partition in s.tracker
    requires c.start(s.buffer[0].partition) <= s.buffer[0].offset
    ensures Commits(c, s.Receive())
  {
    var r, t := s.buffer[0], s.tracker;
    ExactCompleted(c.start, t, s.folded, r);
    if Advanced(t, r).None? || s.broken {
      HoldingBack(c.start, t, s.committed, s.issued, r, s.broken);
    } else {
      HandingOut(c.start, t, s.committed, s.issued, r);
    }
  }

  lemma CommitKeepsCommits(c: Config, s: State, accepted: bool, landed: bool)
    requires Commits(c, s) && s.committer.Committing? && (accepted ==> landed)
    ensures Commits(c, s.Committed(accepted, landed))
  {}

  lemma OthersKeepCommits(c: Config, s: State, a: Action)
    requires Commits(c, s) && c.pool > 0 && Enabled(c, s, a)
    requires !a.NextRecord? && !a.Receive? && !a.CommitAccepted? && !a.CommitRefused?
    ensures Commits(c, Apply(c, s, a))
  {
    OthersLeaveTracker(c, s, a);
  }

  lemma OthersLeaveTracker(c: Config, s: State, a: Action)
    requires c.pool > 0 && Enabled(c, s, a)
    requires !a.NextRecord? && !a.Receive? && !a.CommitAccepted? && !a.CommitRefused?
    ensures var s' := Apply(c, s, a);
            && s'.tracker == s.tracker && s'.folded == s.folded && s'.broken == s.broken
            && s'.committed == s.committed && s'.issued == s.issued
            && (s'.committer == s.committer || (s.committer.Receiving? && s'.committer.Finished?))
  {
    if IsMainStep(a) { MainStepFrame(c, s, a); } else { WorkersLeaveTracker(c, s, a); }
  }

  lemma WorkersLeaveTracker(c: Config, s: State, a: Action)
    requires c.pool > 0 && Enabled(c, s, a)
    requires a.Dispatch? || a.Begin? || a.Succeed? || a.FailHandler? || a.Send? || a.Exit? || a.FinishCommitter?
    ensures var s' := Apply(c, s, a);
            && s'.tracker == s.tracker && s'.folded == s.folded && s'.broken == s.broken
            && s'.committed == s.committed && s'.issued == s.issued
            && (s'.committer == s.committer || (s.committer.Receiving? && s'.committer.Finished?))
  {}

  lemma InvKept(c: Config, s: State, a: Action)
    requires Inv(c, s) && Enabled(c, s, a)
    ensures Inv(c, Apply(c, s, a))
  {
    WhereaboutsKept(c, s, a);
    match a
    case NextRecord => NextRecordKeepsCommits(c, s);
    case Receive =>
      assert WasObserved(c, s, s.buffer[0]);
      ReceiveKeepsCommits(c, s);
    case CommitAccepted => CommitKeepsCommits(c, s, true, true);
    case CommitRefused(landed) => CommitKeepsCommits(c, s, false, landed);
    case _ => OthersKeepCommits(c, s, a);
  }
}
