/** The one-at-a-time consumer of internal/platform/kafkax/kafkax.go, the simple form the keyed
    consumer refines, and what it means for a feed to follow the partitions' logs. */
module SequentialConsuming {
  import opened Prelude
  import opened CommitTracking

  // ---- feeds that follow the log ------------------------------------------------------------

  /** The next offset of `p` when `last` holds the last offset already taken per partition. */
  function NextOffset(start: int -> int, last: map<int, int>, p: int): int {
    if p in last then last[p] + 1 else start(p)
  }

  /** `batch` takes each partition's records one by one, without gap or repeat. */
  predicate Follows(start: int -> int, last: map<int, int>, batch: seq<Record>)
    decreases |batch|
  {
    batch == []
    || (&& batch[0].offset == NextOffset(start, last, batch[0].partition)
        && Follows(start, last[batch[0].partition := batch[0].offset], batch[1..]))
  }

  /** What committing every record of `feed` in turn leaves committed: the last write per partition. */
  function CommittedBy(feed: seq<Record>): map<int, int> {
    if feed == [] then map[]
    else CommittedBy(feed[..|feed| - 1])[feed[|feed| - 1].partition := feed[|feed| - 1].offset]
  }

  /** A whole feed from the group's starting offsets. */
  predicate Contiguous(start: int -> int, feed: seq<Record>) {
    feed == []
    || (&& Contiguous(start, feed[..|feed| - 1])
        && feed[|feed| - 1].offset
           == NextOffset(start, CommittedBy(feed[..|feed| - 1]), feed[|feed| - 1].partition))
  }

  /** On a contiguous feed, everything at or below a committed offset has been through the handler. */
  lemma {:induction false} CommittedMeansServed(start: int -> int, feed: seq<Record>)
    requires Contiguous(start, feed)
    ensures forall p <- CommittedBy(feed) :: start(p) <= CommittedBy(feed)[p]
    ensures forall p <- CommittedBy(feed), o :: start(p) <= o <= CommittedBy(feed)[p] ==> Record(p, o) in feed
    ensures forall r <- feed :: r.partition in CommittedBy(feed) && r.offset <= CommittedBy(feed)[r.partition]
  {
    if feed != [] {
      CommittedMeansServed(start, feed[..|feed| - 1]);
      assert feed == feed[..|feed| - 1] + [feed[|feed| - 1]];
    }
  }

  // ---- Consume ------------------------------------------------------------------------------

  /** What one turn of the poll loop meets. */
  datatype Poll = Poll(cancelledBefore: bool, cancelledAfter: bool, fetchFailed: bool, records: seq<Record>)

  datatype Error = Cancelled | FetchFailed | HandlerFailed(r: Record) | CommitFailed(r: Record)

  function StopOf(p: Poll): Option<Error> {
    if p.cancelledBefore || p.cancelledAfter then Some(Cancelled)
    else if p.fetchFailed then Some(FetchFailed)
    else None
  }

  /** The records that reach the handler loop, and why polling ended (None: the polls ran out). */
  function Delivered(polls: seq<Poll>): (seq<Record>, Option<Error>) {
    if polls == [] then ([], None)
    else if StopOf(polls[0]).Some? then ([], StopOf(polls[0]))
    else
      var rest := Delivered(polls[1..]);
      (polls[0].records + rest.0, rest.1)
  }

  /** The poll at which polling ends, or the number of polls. */
  function FirstStop(polls: seq<Poll>): (k: nat)
    ensures k <= |polls|
    ensures forall i :: 0 <= i < k ==> !polls[i].cancelledBefore && !polls[i].cancelledAfter && !polls[i].fetchFailed
    ensures k < |polls| ==> polls[k].cancelledBefore || polls[k].cancelledAfter || polls[k].fetchFailed
  {
    if polls == [] || polls[0].cancelledBefore || polls[0].cancelledAfter || polls[0].fetchFailed then 0
    else 1 + FirstStop(polls[1..])
  }

  function RecordsOf(polls: seq<Poll>): seq<Record> {
    if polls == [] then [] else polls[0].records + RecordsOf(polls[1..])
  }

  /** What reaches the handler loop is the records of the polls before the one that ends polling; a
      failed fetch is the answer exactly when that poll failed and was not cancelled. */
  lemma {:induction false} DeliveredExactly(polls: seq<Poll>)
    ensures var k := FirstStop(polls);
            && Delivered(polls).0 == RecordsOf(polls[..k])
            && Delivered(polls).1 == if k == |polls| then None
                                     else if polls[k].cancelledBefore || polls[k].cancelledAfter then Some(Cancelled)
                                     else Some(FetchFailed)
  {
    var k := FirstStop(polls);
    if k > 0 {
      DeliveredExactly(polls[1..]);
      assert polls[..k][1..] == polls[1..][..k - 1];
    }
  }

  /** How many records are handled and committed before the first trouble. */
  function Served(feed: seq<Record>, handles: Record -> bool, commits: Record -> bool): (n: nat)
    ensures n <= |feed|
    ensures forall i :: 0 <= i < n ==> handles(feed[i]) && commits(feed[i])
    ensures n < |feed| ==> !handles(feed[n]) || !commits(feed[n])
  {
    if feed == [] || !handles(feed[0]) || !commits(feed[0]) then 0
    else 1 + Served(feed[1..], handles, commits)
  }

  /** What a run over `feed` has handled and committed, and why it ended. */
  datatype Outcome = Outcome(handled: seq<Record>, committed: map<int, int>, error: Option<Error>)

  function Ran(feed: seq<Record>, stop: Option<Error>, handles: Record -> bool, commits: Record -> bool): Outcome {
    var n := Served(feed, handles, commits);
    if n == |feed| then Outcome(feed, CommittedBy(feed), stop)
    else if handles(feed[n]) then
      Outcome(feed[..n + 1], CommittedBy(feed[..n]), Some(CommitFailed(feed[n])))
    else
      Outcome(feed[..n], CommittedBy(feed[..n]), Some(HandlerFailed(feed[n])))
  }

  lemma {:induction false} ServedPast(done: seq<Record>, rest: seq<Record>,
                                      handles: Record -> bool, commits: Record -> bool)
    requires forall r <- done :: handles(r) && commits(r)
    ensures Served(done + rest, handles, commits) == |done| + Served(rest, handles, commits)
  {
    if done == [] {
      assert done + rest == rest;
    } else {
      assert (done + rest)[1..] == done[1..] + rest;
      ServedPast(done[1..], rest, handles, commits);
    }
  }

  lemma RanClean(done: seq<Record>, stop: Option<Error>, handles: Record -> bool, commits: Record -> bool)
    requires forall r <- done :: handles(r) && commits(r)
    ensures Ran(done, stop, handles, commits) == Outcome(done, CommittedBy(done), stop)
  {
    assert done + [] == done;
    ServedPast(done, [], handles, commits);
  }

  lemma RanIntoTrouble(done: seq<Record>, rest: seq<Record>, stop: Option<Error>,
                       handles: Record -> bool, commits: Record -> bool)
    requires rest != [] && (!handles(rest[0]) || !commits(rest[0]))
    requires forall r <- done :: handles(r) && commits(r)
    ensures Ran(done + rest, stop, handles, commits)
            == if handles(rest[0])
               then Outcome(done + [rest[0]], CommittedBy(done), Some(CommitFailed(rest[0])))
               else Outcome(done, CommittedBy(done), Some(HandlerFailed(rest[0])))
  {
    ServedPast(done, rest, handles, commits);
    var feed := done + rest;
    assert feed[..|done|] == done && feed[..|done| + 1] == done + [rest[0]];
  }

  /** The inner loop: hands `records` to the handler one at a time, committing each before the next. */
  method HandleRecords(records: seq<Record>, before: seq<Record>, handles: Record -> bool, commits: Record -> bool)
    returns (handled: seq<Record>, committed: map<int, int>, error: Option<Error>)
    ensures var n := Served(records, handles, commits);
            && committed == CommittedBy(before + records[..n])
            && if n == |records| then error.None? && handled == before + records
               else if handles(records[n]) then
                 error == Some(CommitFailed(records[n])) && handled == before + records[..n] + [records[n]]
               else error == Some(HandlerFailed(records[n])) && handled == before + records[..n]
  {
    handled, committed, error := before, CommittedBy(before), None;
    assert before + records[..0] == before;
    for i := 0 to |records|
      invariant i <= Served(records, handles, commits)
      invariant handled == before + records[..i] && committed == CommittedBy(handled)
    {
      var r := records[i];
      if !handles(r) {
        return handled, committed, Some(HandlerFailed(r));
      }
      if !commits(r) {
        return handled + [r], committed, Some(CommitFailed(r));
      }
      CommitOne(handled, r);
      handled := handled + [r];
      committed := committed[r.partition := r.offset];
      assert before + records[..i + 1] == before + records[..i] + [r];
    }
    assert records[..|records|] == records;
  }

  /** Every record handled is committed before the next one is touched; the first handler, commit or
      fetch trouble ends the run. */
  method Consume(polls: seq<Poll>, handles: Record -> bool, commits: Record -> bool)
    returns (handled: seq<Record>, committed: map<int, int>, error: Option<Error>)
    ensures Outcome(handled, committed, error)
            == Ran(Delivered(polls).0, Delivered(polls).1, handles, commits)
  {
    handled, committed, error := [], map[], None;
    ghost var (feed, stop) := Delivered(polls);
    assert polls[0..] == polls;
    for turn := 0 to |polls|
      invariant feed == handled + Delivered(polls[turn..]).0 && stop == Delivered(polls[turn..]).1
      invariant committed == CommittedBy(handled)
      invariant forall r <- handled :: handles(r) && commits(r)
      invariant error == None
    {
      var poll := polls[turn];
      DeliveredStep(polls, turn);
      if poll.cancelledBefore || poll.cancelledAfter {
        RanClean(handled, stop, handles, commits);
        assert feed == handled;
        return handled, committed, Some(Cancelled);
      }
      if poll.fetchFailed {
        RanClean(handled, stop, handles, commits);
        assert feed == handled;
        return handled, committed, Some(FetchFailed);
      }
      ghost var later, before := Delivered(polls[turn + 1..]).0, handled;
      handled, committed, error := HandleRecords(poll.records, handled, handles, commits);
      if error.Some? {
        BatchTrouble(before, poll.records, later, stop, handles, commits);
        return;
      }
      BatchThrough(before, poll.records, later, handles, commits);
    }
    assert feed == handled;
    RanClean(handled, stop, handles, commits);
  }

  lemma DeliveredStep(polls: seq<Poll>, turn: nat)
    requires turn < |polls|
    ensures Delivered(polls[turn..])
            == if StopOf(polls[turn]).Some? then ([], StopOf(polls[turn]))
               else (polls[turn].records + Delivered(polls[turn + 1..]).0, Delivered(polls[turn + 1..]).1)
  {
    assert polls[turn..][0] == polls[turn] && polls[turn..][1..] == polls[turn + 1..];
  }

  lemma BatchThrough(before: seq<Record>, records: seq<Record>, later: seq<Record>,
                     handles: Record -> bool, commits: Record -> bool)
    requires Served(records, handles, commits) == |records|
    ensures before + (records + later) == (before + records) + later
    ensures before + records[..|records|] == before + records
    ensures forall r <- records :: handles(r) && commits(r)
  {}

  lemma BatchTrouble(before: seq<Record>, records: seq<Record>, later: seq<Record>, stop: Option<Error>,
                     handles: Record -> bool, commits: Record -> bool)
    requires Served(records, handles, commits) < |records| && forall r <- before :: handles(r) && commits(r)
    ensures var n := Served(records, handles, commits);
            Ran(before + (records + later), stop, handles, commits)
            == if handles(records[n])
               then Outcome(before + records[..n] + [records[n]], CommittedBy(before + records[..n]),
                            Some(CommitFailed(records[n])))
               else Outcome(before + records[..n], CommittedBy(before + records[..n]), Some(HandlerFailed(records[n])))
  {
    var n := Served(records, handles, commits);
    var rest := records[n..] + later;
    assert before + (records + later) == (before + records[..n]) + rest && rest[0] == records[n];
    RanIntoTrouble(before + records[..n], rest, stop, handles, commits);
  }

  lemma CommitOne(feed: seq<Record>, r: Record)
    ensures CommittedBy(feed + [r]) == CommittedBy(feed)[r.partition := r.offset]
  {
    assert (feed + [r])[..|feed|] == feed;
  }
}
