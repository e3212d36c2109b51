/** Per-key ordering of the keyed consumer: whatever the pool size and the interleaving, the records
    of one key are handled one at a time, in the order they were fetched. */
module KeyedOrder {
  import opened Prelude
  import opened CommitTracking
  import opened SequentialConsuming
  import opened KeyedConsuming
  import opened KeyedSafety
  import opened KeyedTheorems

  /** The records of key `k`, in order. */
  function KeyRecords(c: Config, rs: seq<Record>, k: string): seq<Record> {
    if rs == [] then []
    else
      KeyRecords(c, rs[..|rs| - 1], k) + if c.keyOf(rs[|rs| - 1]) == k then [rs[|rs| - 1]] else []
  }

  /** The handler calls for key `k`, in order. */
  function KeyEvents(c: Config, es: seq<Event>, k: string): seq<Event> {
    if es == [] then []
    else
      KeyEvents(c, es[..|es| - 1], k) + if c.keyOf(es[|es| - 1].r) == k then [es[|es| - 1]] else []
  }

  /** Handling `rs` one after the other: each call ends before the next begins. */
  function OneByOne(rs: seq<Record>): seq<Event> {
    if rs == [] then []
    else OneByOne(rs[..|rs| - 1]) + [Began(rs[|rs| - 1]), Ended(rs[|rs| - 1])]
  }

  /** What the worker of key `k` still has to do for it. */
  function Unfinished(c: Config, w: Worker, k: string): seq<Event> {
    match w
    case Received(r) => if c.keyOf(r) == k then [Began(r), Ended(r)] else []
    case Handling(r) => if c.keyOf(r) == k then [Ended(r)] else []
    case _ => []
  }

  /** The calls made and those still owed are the records one by one. */
  ghost predicate Accounted(made: seq<Event>, owed: seq<Event>, records: seq<Record>) {
    made + owed == OneByOne(records)
  }

  ghost predicate OrderedAt(c: Config, es: seq<Event>, ds: seq<Record>, w: Worker, k: string) {
    Accounted(KeyEvents(c, es, k), Unfinished(c, w, k), KeyRecords(c, ds, k))
  }

  ghost predicate Ordered(c: Config, s: State, k: string)
    requires c.pool > 0 && |s.workers| == c.pool
  {
    OrderedAt(c, s.events, s.dispatched, s.workers[c.WorkerFor(k)], k)
  }

  lemma RecordDispatched(made: seq<Event>, records: seq<Record>, r: Record)
    requires Accounted(made, [], records)
    ensures Accounted(made, [Began(r), Ended(r)], records + [r])
  {
    OneByOneOne(records, r);
    assert made + [] == made;
  }

  lemma CallMade(made: seq<Event>, e: Event, owed: seq<Event>, records: seq<Record>)
    requires Accounted(made, [e] + owed, records)
    ensures Accounted(made + [e], owed, records)
  {
    assert made + ([e] + owed) == (made + [e]) + owed;
  }

  /** Dispatch follows observation; only the record on offer, or abandoned, is behind. */
  predicate DispatchedInOrder(s: State) {
    if s.main.Offering? then s.observed == s.dispatched + [s.main.r]
    else if s.FetchLoopDone() then s.dispatched <= s.observed
    else s.observed == s.dispatched
  }

  lemma KeyRecordsOne(c: Config, rs: seq<Record>, r: Record, k: string)
    ensures KeyRecords(c, rs + [r], k)
            == if c.keyOf(r) == k then KeyRecords(c, rs, k) + [r] else KeyRecords(c, rs, k)
  {
    assert (rs + [r])[..|rs|] == rs;
  }

  lemma KeyEventsOne(c: Config, es: seq<Event>, e: Event, k: string)
    ensures KeyEvents(c, es + [e], k)
            == if c.keyOf(e.r) == k then KeyEvents(c, es, k) + [e] else KeyEvents(c, es, k)
  {
    assert (es + [e])[..|es|] == es;
  }

  lemma OneByOneOne(rs: seq<Record>, r: Record)
    ensures OneByOne(rs + [r]) == OneByOne(rs) + [Began(r), Ended(r)]
  {
    assert (rs + [r])[..|rs|] == rs;
  }

  /** A dispatch, a call and a return, as seen from the key's own worker and from anywhere else. */
  lemma OwnDispatch(c: Config, es: seq<Event>, ds: seq<Record>, r: Record, k: string)
    requires OrderedAt(c, es, ds, Idle, k) && c.keyOf(r) == k
    ensures OrderedAt(c, es, ds + [r], Received(r), k)
  {
    KeyRecordsOne(c, ds, r, k);
    RecordDispatched(KeyEvents(c, es, k), KeyRecords(c, ds, k), r);
  }

  lemma OwnCall(c: Config, es: seq<Event>, ds: seq<Record>, r: Record, k: string)
    requires OrderedAt(c, es, ds, Received(r), k) && c.keyOf(r) == k
    ensures OrderedAt(c, es + [Began(r)], ds, Handling(r), k)
  {
    KeyEventsOne(c, es, Began(r), k);
    assert [Began(r), Ended(r)] == [Began(r)] + [Ended(r)];
    CallMade(KeyEvents(c, es, k), Began(r), [Ended(r)], KeyRecords(c, ds, k));
  }

  lemma OwnReturn(c: Config, es: seq<Event>, ds: seq<Record>, r: Record, w: Worker, k: string)
    requires OrderedAt(c, es, ds, Handling(r), k) && c.keyOf(r) == k && (w.Sending? || w.Idle?)
    ensures OrderedAt(c, es + [Ended(r)], ds, w, k)
  {
    KeyEventsOne(c, es, Ended(r), k);
    assert [Ended(r)] == [Ended(r)] + [];
    CallMade(KeyEvents(c, es, k), Ended(r), [], KeyRecords(c, ds, k));
  }

  lemma OtherKey(c: Config, es: seq<Event>, ds: seq<Record>, r: Record, w: Worker, w': Worker, k: string)
    requires OrderedAt(c, es, ds, w, k) && c.keyOf(r) != k && Unfinished(c, w, k) == Unfinished(c, w', k)
    ensures OrderedAt(c, es, ds + [r], w', k)
    ensures OrderedAt(c, es + [Began(r)], ds, w', k) && OrderedAt(c, es + [Ended(r)], ds, w', k)
  {
    KeyRecordsOne(c, ds, r, k);
    KeyEventsOne(c, es, Began(r), k);
    KeyEventsOne(c, es, Ended(r), k);
  }

  lemma DispatchKeepsOrder(c: Config, s: State, s': State, w: nat, r: Record, k: string)
    requires c.pool > 0 && |s.workers| == c.pool && Ordered(c, s, k)
    requires w == c.WorkerOf(r) && s.workers[w].Idle?
    requires s'.events == s.events && s'.dispatched == s.dispatched + [r] && s'.workers == s.workers[w := Received(r)]
    ensures Ordered(c, s', k)
  {
    if c.keyOf(r) == k {
      OwnDispatch(c, s.events, s.dispatched, r, k);
    } else {
      var v := c.WorkerFor(k);
      OtherKey(c, s.events, s.dispatched, r, s.workers[v], s'.workers[v], k);
    }
  }

  lemma BeginKeepsOrder(c: Config, s: State, s': State, w: nat, r: Record, k: string)
    requires c.pool > 0 && |s.workers| == c.pool && Ordered(c, s, k)
    requires w == c.WorkerOf(r) && s.workers[w] == Received(r)
    requires s'.events == s.events + [Began(r)] && s'.dispatched == s.dispatched
    requires s'.workers == s.workers[w := Handling(r)]
    ensures Ordered(c, s', k)
  {
    if c.keyOf(r) == k {
      OwnCall(c, s.events, s.dispatched, r, k);
    } else {
      var v := c.WorkerFor(k);
      OtherKey(c, s.events, s.dispatched, r, s.workers[v], s'.workers[v], k);
    }
  }

  /** A handler call ends, whether it succeeded (the worker goes on to send) or failed. */
  lemma EndKeepsOrder(c: Config, s: State, s': State, w: nat, r: Record, after: Worker, k: string)
    requires c.pool > 0 && |s.workers| == c.pool && Ordered(c, s, k)
    requires w == c.WorkerOf(r) && s.workers[w] == Handling(r) && (after.Sending? || after.Idle?)
    requires s'.events == s.events + [Ended(r)] && s'.dispatched == s.dispatched && s'.workers == s.workers[w := after]
    ensures Ordered(c, s', k)
  {
    if c.keyOf(r) == k {
      OwnReturn(c, s.events, s.dispatched, r, after, k);
    } else {
      var v := c.WorkerFor(k);
      OtherKey(c, s.events, s.dispatched, r, s.workers[v], s'.workers[v], k);
    }
  }

  /** Every other step leaves dispatches and handler calls alone; a worker that sends or exits owes
      nothing before or after. */
  lemma OthersLeaveCalls(c: Config, s: State, a: Action, w: nat)
    requires c.pool > 0 && Enabled(c, s, a) && w < |s.workers|
    requires !a.Dispatch? && !a.Begin? && !a.Succeed? && !a.FailHandler?
    ensures var s' := Apply(c, s, a);
            && s'.events == s.events && s'.dispatched == s.dispatched && |s'.workers| == |s.workers|
            && (s'.workers[w] == s.workers[w]
                || ((s.workers[w].Sending? || s.workers[w].Idle?) && (s'.workers[w].Idle? || s'.workers[w].Exited?)))
  {
    if IsMainStep(a) { MainStepFrame(c, s, a); }
  }

  lemma FetchDispatchOrderKept(c: Config, s: State, a: Action)
    requires c.pool > 0 && DispatchedInOrder(s) && Enabled(c, s, a)
    requires a.CheckTop? || a.PollReturns? || a.CheckPoll? || a.NextRecord? || a.Dispatch? || a.Abandon?
    ensures DispatchedInOrder(Apply(c, s, a))
  {}

  lemma DispatchOrderKept(c: Config, s: State, a: Action)
    requires c.pool > 0 && DispatchedInOrder(s) && Enabled(c, s, a)
    ensures DispatchedInOrder(Apply(c, s, a))
  {
    if a.CheckTop? || a.PollReturns? || a.CheckPoll? || a.NextRecord? || a.Dispatch? || a.Abandon? {
      FetchDispatchOrderKept(c, s, a);
    }
  }

  lemma OthersKeepOrder(c: Config, s: State, a: Action, k: string)
    requires Shape(c, s) && Ordered(c, s, k) && Enabled(c, s, a) && |Apply(c, s, a).workers| == c.pool
    requires !a.Dispatch? && !a.Begin? && !a.Succeed? && !a.FailHandler?
    ensures Ordered(c, Apply(c, s, a), k)
  {
    var w, s' := c.WorkerFor(k), Apply(c, s, a);
    OthersLeaveCalls(c, s, a, w);
    assert Unfinished(c, s'.workers[w], k) == Unfinished(c, s.workers[w], k);
  }

  lemma OrderKept(c: Config, s: State, a: Action, k: string)
    requires Shape(c, s) && Ordered(c, s, k) && Enabled(c, s, a) && |Apply(c, s, a).workers| == c.pool
    requires forall w :: 0 <= w < c.pool && (s.workers[w].Received? || s.workers[w].Handling?)
                         ==> c.WorkerOf(s.workers[w].r) == w
    ensures Ordered(c, Apply(c, s, a), k)
  {
    match a
    case Dispatch => DispatchKeepsOrder(c, s, s.Dispatch(c.WorkerOf(s.main.r)), c.WorkerOf(s.main.r), s.main.r, k);
    case Begin(w) => BeginKeepsOrder(c, s, s.Begin(w), w, s.workers[w].r, k);
    case Succeed(w) => EndKeepsOrder(c, s, s.Succeed(w), w, s.workers[w].r, Sending(s.workers[w].r), k);
    case FailHandler(w) => EndKeepsOrder(c, s, s.FailHandler(w), w, s.workers[w].r, Idle, k);
    case _ => OthersKeepOrder(c, s, a, k);
  }

  lemma {:induction false} OrderRun(c: Config, s: State, run: seq<Action>, k: string)
    requires Inv(c, s) && Ordered(c, s, k) && DispatchedInOrder(s) && ValidRun(c, s, run)
    ensures Inv(c, After(c, s, run)) && Ordered(c, After(c, s, run), k) && DispatchedInOrder(After(c, s, run))
    decreases |run|
  {
    if run != [] {
      InvKept(c, s, run[0]);
      OrderKept(c, s, run[0], k);
      DispatchOrderKept(c, s, run[0]);
      OrderRun(c, Apply(c, s, run[0]), run[1..], k);
    }
  }

  lemma {:induction false} MoreRecordsMoreCalls(c: Config, rs: seq<Record>, more: seq<Record>, k: string)
    ensures OneByOne(KeyRecords(c, rs, k)) <= OneByOne(KeyRecords(c, rs + more, k))
  {
    if more == [] {
      assert rs + more == rs;
    } else {
      var r, fewer := more[|more| - 1], more[..|more| - 1];
      MoreRecordsMoreCalls(c, rs, fewer, k);
      assert rs + more == (rs + fewer) + [r];
      KeyRecordsOne(c, rs + fewer, r, k);
      if c.keyOf(r) == k { OneByOneOne(KeyRecords(c, rs + fewer, k), r); }
    }
  }

  lemma OrderReachable(c: Config, s: State, k: string)
    requires Reachable(c, s)
    ensures Inv(c, s) && Ordered(c, s, k) && s.dispatched <= s.observed
  {
    var run :| ValidRun(c, Start(c).value, run) && After(c, Start(c).value, run) == s;
    StartInv(c);
    OrderRun(c, Start(c).value, run, k);
  }

  lemma CallsWithinDispatched(c: Config, s: State, k: string)
    requires Shape(c, s) && Ordered(c, s, k)
    ensures KeyEvents(c, s.events, k) <= OneByOne(KeyRecords(c, s.dispatched, k))
    ensures s.main.Returned? ==> KeyEvents(c, s.events, k) == OneByOne(KeyRecords(c, s.dispatched, k))
  {
    assert s.main.Returned? ==> s.workers[c.WorkerFor(k)].Exited?;
  }

  lemma PrefixOfObserved(c: Config, made: seq<Event>, dispatched: seq<Record>, observed: seq<Record>, k: string)
    requires made <= OneByOne(KeyRecords(c, dispatched, k)) && dispatched <= observed
    ensures made <= OneByOne(KeyRecords(c, observed, k))
  {
    var more := observed[|dispatched|..];
    assert observed == dispatched + more;
    MoreRecordsMoreCalls(c, dispatched, more, k);
  }

  /** In every reachable state the handler calls for a key are a prefix of handling the records
      fetched for that key one by one in fetch order; on return they are exactly the dispatched ones. */
  lemma KeyOrder(c: Config, s: State, k: string)
    requires Reachable(c, s)
    ensures KeyEvents(c, s.events, k) <= OneByOne(KeyRecords(c, s.observed, k))
    ensures s.main.Returned? ==> KeyEvents(c, s.events, k) == OneByOne(KeyRecords(c, s.dispatched, k))
  {
    OrderReachable(c, s, k);
    CallsWithinDispatched(c, s, k);
    PrefixOfObserved(c, KeyEvents(c, s.events, k), s.dispatched, s.observed, k);
  }
}
