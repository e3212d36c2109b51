/** ConsumeKeyed of internal/platform/kafkax/keyed.go as a transition system: the fetch loop, the
    worker pool, the bounded completed channel and the single committer interleave in any order. */
module KeyedConsuming {
  import opened Prelude
  import opened CommitTracking
  import opened SequentialConsuming

  newtype uint32 = n: int | 0 <= n < 0x1_0000_0000

  /** The pool size as passed in, the key of each record of the log, the hash of a key, and the
      group's starting offset per partition. */
  datatype Config = Config(pool: int, keyOf: Record -> string, hash: string -> uint32, start: int -> int)
  {
    /** workerFor, on a platform whose int holds every 32-bit sum. */
    function WorkerFor(key: string): (w: int)
      requires pool > 0
      ensures 0 <= w < pool
    {
      hash(key) as int % pool
    }

    function WorkerOf(r: Record): int
      requires pool > 0
    {
      WorkerFor(keyOf(r))
    }
  }

  /** The goroutine that runs ConsumeKeyed: first the fetch loop, then the shutdown sequence. */
  datatype Main =
    | AtTop
    | Polling
    | Polled(batch: seq<Record>, fetchFailed: bool)
    | Iterating(rest: seq<Record>)
    | Offering(r: Record, rest: seq<Record>)
    | Closing(closed: nat)
    | AwaitingCommitter
    | Returned

  datatype Worker = Idle | Received(r: Record) | Handling(r: Record) | Sending(r: Record) | Exited

  datatype Committer = Receiving | Committing(r: Record) | Finished

  datatype Event = Began(r: Record) | Ended(r: Record)

  /** Program state first, then what an outside observer has seen so far. */
  datatype State = State(
    main: Main,
    workers: seq<Worker>,
    buffer: seq<Record>,
    committer: Committer,
    tracker: Tracker,
    cancelled: bool,
    broken: bool,
    failErr: Option<Error>,
    fetchErr: Option<Error>,
    committed: map<int, int>,
    issued: seq<Record>,
    refused: nat,
    seen: map<int, int>,
    observed: seq<Record>,
    dispatched: seq<Record>,
    events: seq<Event>,
    handled: set<Record>,
    failed: set<Record>,
    folded: set<Record>)
  {
    /** `fail`: the first error is kept, and every error cancels the work context. */
    function Fail(e: Error): State {
      this.(failErr := if failErr.None? then Some(e) else failErr, cancelled := true)
    }

    // The steps that move a record, one function each.

    /** fetchAndDispatch registers the next record of the batch with the tracker and offers it. */
    function NextRecord(): State
      requires main.Iterating?
    {
      if main.rest == [] then this.(main := AtTop)
      else
        var r := main.rest[0];
        this.(main := Offering(r, main.rest[1..]),
              tracker := Observed(tracker, r),
              seen := seen[r.partition := r.offset],
              observed := observed + [r])
    }

    /** The unbuffered worker channel: the offer meets an idle worker. */
    function Dispatch(w: nat): State
      requires main.Offering? && w < |workers|
    {
      this.(workers := workers[w := Received(main.r)],
            dispatched := dispatched + [main.r],
            main := Iterating(main.rest))
    }

    function Begin(w: nat): State
      requires w < |workers| && workers[w].Received?
    {
      this.(workers := workers[w := Handling(workers[w].r)], events := events + [Began(workers[w].r)])
    }

    function Succeed(w: nat): State
      requires w < |workers| && workers[w].Handling?
    {
      var r := workers[w].r;
      this.(workers := workers[w := Sending(r)], events := events + [Ended(r)], handled := handled + {r})
    }

    function FailHandler(w: nat): State
      requires w < |workers| && workers[w].Handling?
    {
      var r := workers[w].r;
      this.(workers := workers[w := Idle], events := events + [Ended(r)], failed := failed + {r})
          .Fail(HandlerFailed(r))
    }

    function Send(w: nat): State
      requires w < |workers| && workers[w].Sending?
    {
      this.(buffer := buffer + [workers[w].r], workers := workers[w := Idle])
    }

    /** The committer takes one finished record and folds it in, even after a refused commit. */
    function Receive(): State
      requires buffer != [] && buffer[0].partition in tracker
    {
      var r := buffer[0];
      var advanced := Advanced(tracker, r);
      var taken := this.(buffer := buffer[1..], tracker := Completed(tracker, r), folded := folded + {r});
      if advanced.None? || broken then taken
      else taken.(committer := Committing(advanced.value), issued := issued + [advanced.value])
    }

    /** One commit call returns. A refused or timed-out one may have reached the broker all the same. */
    function Committed(accepted: bool, landed: bool): State
      requires committer.Committing?
    {
      var r := committer.r;
      var s := this.(committer := Receiving,
                     committed := if landed then committed[r.partition := r.offset] else committed);
      if accepted then s else s.(broken := true, refused := refused + 1).Fail(CommitFailed(r))
    }

    /** The fetch loop returns. */
    function StopFetching(e: Error): State {
      this.(fetchErr := Some(e), main := Closing(0))
    }

    predicate FetchLoopDone() {
      main.Closing? || main.AwaitingCommitter? || main.Returned?
    }

    predicate WorkerChannelsClosed(w: int) {
      (main.Closing? && w < main.closed) || main.AwaitingCommitter? || main.Returned?
    }

    predicate CompletedClosed() {
      main.AwaitingCommitter? || main.Returned?
    }

    /** ConsumeKeyed's return value. */
    function Answer(): Option<Error> {
      if failErr.Some? then failErr else fetchErr
    }
  }

  /** A non-positive pool is refused before anything starts. */
  function Start(c: Config): (s: Option<State>)
    ensures s.None? <==> c.pool <= 0
  {
    if c.pool <= 0 then None
    else
      Some(State(AtTop, seq(c.pool, _ => Idle), [], Receiving, map[], false, false, None, None,
                 map[], [], 0, map[], [], [], [], {}, {}, {}))
  }

  /** One atomic step of one goroutine, of the broker or of the caller. */
  datatype Action =
    | Cancel
    | CheckTop
    | PollReturns(batch: seq<Record>, fetchFailed: bool)
    | CheckPoll
    | NextRecord
    | Dispatch
    | Abandon
    | CloseChannel
    | JoinWorkers
    | JoinCommitter
    | Begin(w: nat)
    | Succeed(w: nat)
    | FailHandler(w: nat)
    | Send(w: nat)
    | Exit(w: nat)
    | Receive
    | CommitAccepted
    | CommitRefused(landed: bool)
    | FinishCommitter

  predicate Enabled(c: Config, s: State, a: Action)
    requires c.pool > 0
  {
    match a
    case Cancel => !s.cancelled
    case CheckTop => s.main.AtTop?
    case PollReturns(batch, _) => s.main.Polling? && Follows(c.start, s.seen, batch)
    case CheckPoll => s.main.Polled?
    case NextRecord => s.main.Iterating?
    case Dispatch => s.main.Offering? && c.WorkerOf(s.main.r) < |s.workers| && s.workers[c.WorkerOf(s.main.r)].Idle?
    case Abandon => s.main.Offering? && s.cancelled
    case CloseChannel => s.main.Closing? && s.main.closed < |s.workers|
    case JoinWorkers => s.main == Closing(|s.workers|) && forall w <- s.workers :: w.Exited?
    case JoinCommitter => s.main.AwaitingCommitter? && s.committer.Finished?
    case Begin(w) => w < |s.workers| && s.workers[w].Received?
    case Succeed(w) => w < |s.workers| && s.workers[w].Handling?
    case FailHandler(w) => w < |s.workers| && s.workers[w].Handling?
    case Send(w) => w < |s.workers| && s.workers[w].Sending? && |s.buffer| < c.pool
    case Exit(w) => w < |s.workers| && s.workers[w].Idle? && s.WorkerChannelsClosed(w)
    case Receive => s.committer.Receiving? && s.buffer != [] && s.buffer[0].partition in s.tracker
    case CommitAccepted => s.committer.Committing?
    case CommitRefused(_) => s.committer.Committing?
    case FinishCommitter => s.committer.Receiving? && s.buffer == [] && s.CompletedClosed()
  }

  function Apply(c: Config, s: State, a: Action): State
    requires c.pool > 0 && Enabled(c, s, a)
  {
    match a
    case Cancel => s.(cancelled := true)
    case CheckTop => if s.cancelled then s.StopFetching(Cancelled) else s.(main := Polling)
    case PollReturns(batch, fetchFailed) => s.(main := Polled(batch, fetchFailed))
    case CheckPoll =>
      if s.cancelled then s.StopFetching(Cancelled)
      else if s.main.fetchFailed then s.StopFetching(FetchFailed)
      else s.(main := Iterating(s.main.batch))
    case NextRecord => s.NextRecord()
    case Dispatch => s.Dispatch(c.WorkerOf(s.main.r))
    case Abandon => s.StopFetching(Cancelled)
    case CloseChannel => s.(main := Closing(s.main.closed + 1))
    case JoinWorkers => s.(main := AwaitingCommitter)
    case JoinCommitter => s.(main := Returned)
    case Begin(w) => s.Begin(w)
    case Succeed(w) => s.Succeed(w)
    case FailHandler(w) => s.FailHandler(w)
    case Send(w) => s.Send(w)
    case Exit(w) => s.(workers := s.workers[w := Exited])
    case Receive => s.Receive()
    case CommitAccepted => s.Committed(true, true)
    case CommitRefused(landed) => s.Committed(false, landed)
    case FinishCommitter => s.(committer := Finished)
  }

  // ---- runs ---------------------------------------------------------------------------------

  predicate ValidRun(c: Config, s: State, run: seq<Action>)
    requires c.pool > 0
    decreases |run|
  {
    run == [] || (Enabled(c, s, run[0]) && ValidRun(c, Apply(c, s, run[0]), run[1..]))
  }

  function After(c: Config, s: State, run: seq<Action>): State
    requires c.pool > 0 && ValidRun(c, s, run)
    decreases |run|
  {
    if run == [] then s else After(c, Apply(c, s, run[0]), run[1..])
  }

  ghost predicate Reachable(c: Config, s: State) {
    && c.pool > 0
    && exists run :: ValidRun(c, Start(c).value, run) && After(c, Start(c).value, run) == s
  }
}
