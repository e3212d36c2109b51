/** The delayed-outcome queue and its poller: demo/world-simulator/internal/server/queue.go and
    poller.go over a Redis sorted set. Times are nanoseconds since the epoch. */
module OutcomeQueues {
  import opened Prelude
  import opened MemberCodec

  const SECOND := 1_000_000_000
  const MAX_DELIVER_ATTEMPTS := 3

  /** time.Time.Unix: whole seconds, rounded down. */
  function Unix(t: int): int {
    t / SECOND
  }

  // ---- the sorted set as a map from member to score -----------------------------------------

  function DueSet(entries: map<string, int>, limit: int): set<string> {
    set m <- entries | entries[m] <= limit
  }

  /** What ZRANGEBYSCORE -inf..limit may return: the due members once each, lowest score first. */
  ghost predicate IsScan(entries: map<string, int>, limit: int, scan: seq<string>) {
    && (forall i, j :: 0 <= i < j < |scan| ==> scan[i] != scan[j])
    && (forall m :: m in scan <==> m in DueSet(entries, limit))
    && (forall i, j :: 0 <= i < j < |scan| && scan[i] in entries && scan[j] in entries
                       ==> entries[scan[i]] <= entries[scan[j]])
  }

  /** What one member reads as, if it does. */
  function ReadOf(m: string): seq<DelayedOutcome> {
    match ParseMember(m) case Ok(d) => [d] case Err => []
  }

  function Parsed(ms: seq<string>): seq<DelayedOutcome> {
    if ms == [] then [] else Parsed(ms[..|ms| - 1]) + ReadOf(ms[|ms| - 1])
  }

  function Malformed(ms: seq<string>): seq<string> {
    if ms == [] then []
    else Malformed(ms[..|ms| - 1]) + if ParseMember(ms[|ms| - 1]).Ok? then [] else [ms[|ms| - 1]]
  }

  lemma ParsedOne(ms: seq<string>, m: string)
    ensures Parsed(ms + [m]) == Parsed(ms) + ReadOf(m)
    ensures Malformed(ms + [m]) == Malformed(ms) + if ParseMember(m).Ok? then [] else [m]
  {
    assert (ms + [m])[..|ms|] == ms;
  }

  lemma Regroup<T>(a: seq<T>, b: seq<T>, c: seq<T>)
    ensures a + (b + c) == (a + b) + c
  {}

  /** Reading a longer list reads its parts in turn. */
  lemma {:induction false} ParsedJoins(a: seq<string>, b: seq<string>)
    ensures Parsed(a + b) == Parsed(a) + Parsed(b)
  {
    if b == [] {
      assert a + b == a;
    } else {
      var init, last := b[..|b| - 1], b[|b| - 1];
      ParsedJoins(a, init);
      assert b == init + [last];
      Regroup(a, init, [last]);
      ParsedOne(a + init, last);
      ParsedOne(init, last);
      Regroup(Parsed(a), Parsed(init), ReadOf(last));
    }
  }

  /** Every member goes one way: read, or set aside as malformed. */
  lemma {:induction false} MalformedIsRest(ms: seq<string>, m: string)
    ensures |Parsed(ms)| + |Malformed(ms)| == |ms|
    ensures m in Malformed(ms) <==> m in ms && ParseMember(m).Err?
  {
    if ms != [] {
      var init, last := ms[..|ms| - 1], ms[|ms| - 1];
      MalformedIsRest(init, m);
      assert ms == init + [last];
      ParsedOne(init, last);
    }
  }

  /** The first of `n` calls that is refused, or `n`. */
  function FirstRefusal(accepts: nat -> bool, n: nat): (k: nat)
    ensures k <= n && (k < n ==> !accepts(k)) && forall i: nat :: i < k ==> accepts(i)
  {
    if n == 0 then 0
    else
      var k := FirstRefusal(accepts, n - 1);
      if k < n - 1 || !accepts(k) then k else n
  }

  /** The set after its members `ms` were removed one by one. */
  function Without(entries: map<string, int>, ms: seq<string>): map<string, int> {
    if ms == [] then entries else Without(entries, ms[..|ms| - 1]) - {ms[|ms| - 1]}
  }

  lemma WithoutOne(entries: map<string, int>, ms: seq<string>, m: string)
    ensures Without(entries, ms + [m]) == Without(entries, ms) - {m}
  {
    assert (ms + [m])[..|ms|] == ms;
  }

  /** Removing members leaves the others with their scores. */
  lemma {:induction false} WithoutIs(entries: map<string, int>, ms: seq<string>)
    ensures forall m :: m in Without(entries, ms) <==> m in entries && m !in ms
    ensures forall m <- Without(entries, ms) :: Without(entries, ms)[m] == entries[m]
  {
    if ms != [] {
      WithoutIs(entries, ms[..|ms| - 1]);
      assert ms == ms[..|ms| - 1] + [ms[|ms| - 1]];
    }
  }

  /** How a peek shows a member: with its whole-second due time, or not at all when malformed. */
  function Shown(entries: map<string, int>, m: string): Option<PendingEntry> {
    if m !in entries || ParseMember(m).Err? then None
    else Some(PendingEntry(ParseMember(m).value, entries[m] * SECOND))
  }

  function Peeked(entries: map<string, int>, ms: seq<string>): seq<PendingEntry> {
    if ms == [] then []
    else
      Peeked(entries, ms[..|ms| - 1])
      + match Shown(entries, ms[|ms| - 1]) case Some(e) => [e] case None => []
  }

  lemma PeekedOne(entries: map<string, int>, ms: seq<string>, m: string, e: PendingEntry)
    ensures e in Peeked(entries, ms + [m]) <==> e in Peeked(entries, ms) || Shown(entries, m) == Some(e)
  {
    assert (ms + [m])[..|ms|] == ms;
  }

  /** Some member of `ms` is shown as `e`. */
  ghost predicate ShowsAs(entries: map<string, int>, ms: seq<string>, e: PendingEntry) {
    exists m <- ms :: Shown(entries, m) == Some(e)
  }

  lemma ShowsAsOne(entries: map<string, int>, ms: seq<string>, m: string, e: PendingEntry)
    ensures ShowsAs(entries, ms + [m], e) <==> ShowsAs(entries, ms, e) || Shown(entries, m) == Some(e)
  {
    if Shown(entries, m) == Some(e) { assert (ms + [m])[|ms|] == m; }
    if x :| x in ms && Shown(entries, x) == Some(e) { assert x in ms + [m]; }
  }

  /** A peek over the whole set shows every well-formed pending outcome, and nothing else. */
  lemma {:induction false} PeekShows(entries: map<string, int>, ms: seq<string>, e: PendingEntry)
    ensures e in Peeked(entries, ms) <==> ShowsAs(entries, ms, e)
  {
    if ms != [] {
      var init, last := ms[..|ms| - 1], ms[|ms| - 1];
      PeekShows(entries, init, e);
      assert ms == init + [last];
      PeekedOne(entries, init, last, e);
      ShowsAsOne(entries, init, last, e);
    }
  }

  lemma WholeSecond(at: int)
    ensures at - SECOND < Unix(at) * SECOND <= at
  {}

  lemma ShownAsScheduled(entries: map<string, int>, d: DelayedOutcome, at: int)
    requires SEP !in d.recordId && Named(d.outcome)
    ensures Shown(entries[Member(d) := Unix(at)], Member(d)) == Some(PendingEntry(d, Unix(at) * SECOND))
  {
    MemberRoundTrip(d);
  }

  /** What is scheduled is shown, due in the whole second its time falls in. */
  lemma ScheduledIsShown(entries: map<string, int>, d: DelayedOutcome, at: int, ms: seq<string>)
    returns (e: PendingEntry)
    requires SEP !in d.recordId && Named(d.outcome) && Member(d) in ms
    ensures e in Peeked(entries[Member(d) := Unix(at)], ms) && e.outcome == d && at - SECOND < e.dueAt <= at
  {
    var after := entries[Member(d) := Unix(at)];
    e := PendingEntry(d, Unix(at) * SECOND);
    ShownAsScheduled(entries, d, at);
    WholeSecond(at);
    assert ShowsAs(after, ms, e);
    PeekShows(after, ms, e);
  }

  datatype PendingEntry = PendingEntry(outcome: DelayedOutcome, dueAt: int)

  class OutcomeQueue {
    var entries: map<string, int>

    constructor ()
      ensures entries == map[]
    {
      entries := map[];
    }

    /** ZADD: re-scheduling a member moves its one entry. */
    method Schedule(d: DelayedOutcome, resolvesAt: int, zaddOk: bool) returns (ok: bool)
      modifies this
      ensures ok == zaddOk
      ensures entries == if ok then old(entries)[Member(d) := Unix(resolvesAt)] else old(entries)
    {
      if !zaddOk { return false; }
      entries := entries[Member(d) := Unix(resolvesAt)];
      ok := true;
    }

    /** `answer` is what the range query returns, if Redis is there, and `zremOk(i)` says whether the i-th
        removal succeeds. The member whose removal fails has already been appended to the result. */
    method Due(now: int, answer: Option<seq<string>>, zremOk: nat -> bool)
      returns (delivered: seq<DelayedOutcome>, malformed: seq<string>, ok: bool)
      requires answer.Some? ==> IsScan(entries, Unix(now), answer.value)
      modifies this
      ensures answer.None? ==> !ok && entries == old(entries) && delivered == [] && malformed == []
      ensures answer.Some? ==>
              var scan := answer.value;
              var n := FirstRefusal(zremOk, |scan|);
              var read := if n < |scan| then n + 1 else n;
              && ok == (n == |scan|)
              && entries == Without(old(entries), scan[..n])
              && delivered == Parsed(scan[..read]) && malformed == Malformed(scan[..read])
    {
      delivered, malformed := [], [];
      if answer.None? {
        return delivered, malformed, false;
      }
      var scan := answer.value;
      ghost var n := FirstRefusal(zremOk, |scan|);
      for i := 0 to |scan|
        invariant i <= n
        invariant delivered == Parsed(scan[..i]) && malformed == Malformed(scan[..i])
        invariant entries == Without(old(entries), scan[..i])
      {
        var m := scan[i];
        assert scan[..i + 1] == scan[..i] + [m];
        delivered, malformed := SortOut(m, scan[..i], delivered, malformed);
        if !zremOk(i) {
          assert n == i;
          return delivered, malformed, false;
        }
        WithoutOne(old(entries), scan[..i], m);
        entries := entries - {m};
      }
      assert n == |scan|;
      ok := true;
    }

    /** Appends a member to the delivered or to the malformed ones. */
    static method SortOut(m: string, ghost ms: seq<string>, delivered: seq<DelayedOutcome>, malformed: seq<string>)
      returns (delivered': seq<DelayedOutcome>, malformed': seq<string>)
      requires delivered == Parsed(ms) && malformed == Malformed(ms)
      ensures delivered' == Parsed(ms + [m]) && malformed' == Malformed(ms + [m])
    {
      delivered', malformed' := delivered, malformed;
      ParsedOne(ms, m);
      match ParseMember(m) {
        case Ok(d) => delivered' := delivered + [d];
        case Err => malformed' := malformed + [m];
      }
    }

    /** Reads every entry with its due time; looking changes nothing. */
    method PeekAll(answer: Option<seq<string>>) returns (pending: Option<seq<PendingEntry>>)
      requires answer.Some? ==> forall m :: m in answer.value <==> m in entries
      ensures pending == if answer.None? then None else Some(Peeked(entries, answer.value))
    {
      if answer.None? {
        return None;
      }
      var scan := answer.value;
      var listed := [];
      for i := 0 to |scan|
        invariant listed == Peeked(entries, scan[..i])
      {
        var m := scan[i];
        assert scan[..i + 1][..i] == scan[..i];
        var shown := Shown(entries, m);
        if shown.Some? {
          listed := listed + [shown.value];
        }
      }
      assert scan[..|scan|] == scan;
      return Some(listed);
    }
  }

  // ---- the poller ---------------------------------------------------------------------------

  /** The `k`-th outcome of a tick gets through: one of its calls is accepted, and no wait before it is
      cut short. */
  ghost predicate GetsThrough(accepted: (nat, nat) -> bool, cancelled: (nat, nat) -> bool, k: nat) {
    exists call: nat | 1 <= call <= MAX_DELIVER_ATTEMPTS && accepted(k, call) ::
      forall wait: nat | 1 <= wait < call :: !cancelled(k, wait)
  }

  /** deliver: up to three calls, stopping at the first accepted one or at a cancelled wait. */
  method Deliver(k: nat, accepted: (nat, nat) -> bool, cancelled: (nat, nat) -> bool)
    returns (calls: nat, applied: bool)
    ensures 1 <= calls <= MAX_DELIVER_ATTEMPTS
    ensures forall call: nat :: 1 <= call < calls ==> !accepted(k, call) && !cancelled(k, call)
    ensures applied <==> accepted(k, calls)
    ensures applied <==> GetsThrough(accepted, cancelled, k)
  {
    var attempt := 1;
    while attempt <= MAX_DELIVER_ATTEMPTS
      invariant 1 <= attempt <= MAX_DELIVER_ATTEMPTS + 1
      invariant forall call: nat :: 1 <= call < attempt ==> !accepted(k, call)
      invariant forall wait: nat :: 1 <= wait < attempt && wait < MAX_DELIVER_ATTEMPTS ==> !cancelled(k, wait)
    {
      if accepted(k, attempt) {
        return attempt, true;
      }
      if attempt < MAX_DELIVER_ATTEMPTS && cancelled(k, attempt) {
        return attempt, false;
      }
      attempt := attempt + 1;
    }
    return MAX_DELIVER_ATTEMPTS, false;
  }

  /** One outcome after the other; a failed one does not stop the rest. */
  method DeliverAll(n: nat, accepted: (nat, nat) -> bool, cancelled: (nat, nat) -> bool) returns (applied: seq<bool>)
    ensures |applied| == n
    ensures forall k: nat :: k < n ==> (applied[k] <==> GetsThrough(accepted, cancelled, k))
  {
    applied := [];
    for k := 0 to n
      invariant |applied| == k
      invariant forall j: nat :: j < k ==> (applied[j] <==> GetsThrough(accepted, cancelled, j))
    {
      var calls, through := Deliver(k, accepted, cancelled);
      applied := applied + [through];
    }
  }

  /** tick: everything drained is delivered in turn, unless the drain itself failed. */
  method Tick(q: OutcomeQueue, now: int, answer: Option<seq<string>>, zremOk: nat -> bool,
              accepted: (nat, nat) -> bool, cancelled: (nat, nat) -> bool)
    returns (handedOn: seq<DelayedOutcome>, applied: seq<bool>, ok: bool)
    requires answer.Some? ==> IsScan(q.entries, Unix(now), answer.value)
    modifies q
    ensures answer.None? ==> !ok && q.entries == old(q.entries) && handedOn == []
    ensures answer.Some? ==>
              var n := FirstRefusal(zremOk, |answer.value|);
              && (q.entries, handedOn) == Ticked(old(q.entries), answer.value, n)
              && (ok <==> n == |answer.value|)
    ensures |applied| == |handedOn|
    ensures forall k: nat :: k < |handedOn| ==> (applied[k] <==> GetsThrough(accepted, cancelled, k))
  {
    var delivered, malformed;
    delivered, malformed, ok := q.Due(now, answer, zremOk);
    handedOn := if ok then delivered else [];
    applied := DeliverAll(|handedOn|, accepted, cancelled);
  }

  /** A tick whose removal number `n` fails, or none when n == |scan|: the set left, and what was
      handed on. */
  function Ticked(entries: map<string, int>, scan: seq<string>, n: nat): (map<string, int>, seq<DelayedOutcome>)
    requires n <= |scan|
  {
    (Without(entries, scan[..n]), if n == |scan| then Parsed(scan[..n]) else [])
  }

  /** The members taken out of the set that read as `d`. */
  function TakenAs(entries: map<string, int>, left: map<string, int>, d: DelayedOutcome): set<string> {
    set m <- entries | m !in left && ParseMember(m) == Ok(d)
  }

  predicate NoRepeats(ms: seq<string>) {
    forall i, j :: 0 <= i < j < |ms| ==> ms[i] != ms[j]
  }

  function ReadAs(ms: seq<string>, d: DelayedOutcome): set<string> {
    set m <- ms | ParseMember(m) == Ok(d)
  }

  lemma ReadAsOne(ms: seq<string>, m: string, d: DelayedOutcome)
    requires m !in ms
    ensures |ReadAs(ms + [m], d)| == |ReadAs(ms, d)| + if ParseMember(m) == Ok(d) then 1 else 0
  {
    assert m in ms + [m];
    if ParseMember(m) == Ok(d) {
      assert ReadAs(ms + [m], d) == ReadAs(ms, d) + {m};
    } else {
      assert ReadAs(ms + [m], d) == ReadAs(ms, d);
    }
  }

  lemma ReadAsLast(ms: seq<string>, d: DelayedOutcome)
    requires ms != [] && ms[|ms| - 1] !in ms[..|ms| - 1]
    ensures |ReadAs(ms, d)| == |ReadAs(ms[..|ms| - 1], d)| + if ParseMember(ms[|ms| - 1]) == Ok(d) then 1 else 0
  {
    assert ms == ms[..|ms| - 1] + [ms[|ms| - 1]];
    ReadAsOne(ms[..|ms| - 1], ms[|ms| - 1], d);
  }

  lemma ReadCount(ds: seq<DelayedOutcome>, m: string, d: DelayedOutcome)
    ensures multiset(ds + ReadOf(m))[d] == multiset(ds)[d] + if ParseMember(m) == Ok(d) then 1 else 0
  {}

  /** No member twice, told from the end. */
  predicate AllNew(ms: seq<string>) {
    ms == [] || (ms[|ms| - 1] !in ms[..|ms| - 1] && AllNew(ms[..|ms| - 1]))
  }

  lemma {:induction false} NoRepeatsAllNew(ms: seq<string>)
    requires NoRepeats(ms)
    ensures AllNew(ms)
  {
    if ms != [] { NoRepeatsAllNew(ms[..|ms| - 1]); }
  }

  /** Each member is read once. */
  lemma {:induction false} ParsedCount(ms: seq<string>, d: DelayedOutcome)
    requires AllNew(ms)
    ensures multiset(Parsed(ms))[d] == |ReadAs(ms, d)|
  {
    if ms != [] {
      var init, last := ms[..|ms| - 1], ms[|ms| - 1];
      ParsedCount(init, d);
      ReadAsLast(ms, d);
      ReadCount(Parsed(init), last, d);
    }
  }

  lemma TakenCount(entries: map<string, int>, scan: seq<string>, n: nat, d: DelayedOutcome)
    requires n <= |scan| && NoRepeats(scan) && forall m <- scan :: m in entries
    ensures |TakenAs(entries, Without(entries, scan[..n]), d)| == multiset(Parsed(scan[..n]))[d]
  {
    WithoutIs(entries, scan[..n]);
    NoRepeatsAllNew(scan[..n]);
    ParsedCount(scan[..n], d);
    assert TakenAs(entries, Without(entries, scan[..n]), d) == ReadAs(scan[..n], d);
  }

  /** Every outcome is handed on as often as it was taken out of the set, unless a removal fails after a
      well-formed member has already been removed; then those are lost. */
  lemma TickConserves(entries: map<string, int>, scan: seq<string>, n: nat)
    requires n <= |scan| && NoRepeats(scan) && forall m <- scan :: m in entries
    ensures var (left, handedOn) := Ticked(entries, scan, n);
            (forall d :: multiset(handedOn)[d] == |TakenAs(entries, left, d)|)
            <==> n == |scan| || Parsed(scan[..n]) == []
  {
    var (left, handedOn) := Ticked(entries, scan, n);
    forall d ensures |TakenAs(entries, left, d)| == multiset(Parsed(scan[..n]))[d] {
      TakenCount(entries, scan, n, d);
    }
    if n < |scan| && Parsed(scan[..n]) != [] {
      var d := Parsed(scan[..n])[0];
      assert d in Parsed(scan[..n]);
      assert multiset(handedOn)[d] == 0 < multiset(Parsed(scan[..n]))[d];
    }
  }

  /** Two due outcomes, and the second removal fails: the first is gone and was never handed on. */
  lemma OutcomeLost()
    ensures var a := DelayedOutcome("a", 1, SUCCESS, "");
            var b := DelayedOutcome("b", 1, SUCCESS, "");
            var (left, handedOn) := Ticked(map[Member(a) := 0, Member(b) := 0], [Member(a), Member(b)], 1);
            Member(a) !in left && a !in handedOn
  {
    var a, b := DelayedOutcome("a", 1, SUCCESS, ""), DelayedOutcome("b", 1, SUCCESS, "");
    var scan := [Member(a), Member(b)];
    assert scan[..1][0] == Member(a);
    WithoutIs(map[Member(a) := 0, Member(b) := 0], scan[..1]);
  }
}
