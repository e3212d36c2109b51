/** The load generator's paced send loop: scripts/loadgen/run.go, ratelimiter.go and summary.go. Times
    are nanoseconds. */
module LoadGenerator {
  import opened Prelude

  const GATEWAY_DOWN_THRESHOLD := 3

  /** One pass of the loop, as the clock and the network play it: the reading at the deadline check, the
      reading in Wait, how late the event goes out after Wait is due, and what happens. */
  datatype Turn = Turn(atCheck: int, atWait: int, lateness: nat, cancelled: bool, built: bool, accepted: bool)

  /** NewRateLimiter: the interval in whole nanoseconds, truncated; a rate must be positive. */
  function IntervalFor(rate: real): (interval: Option<nat>)
    ensures interval.None? <==> rate <= 0.0
    ensures interval.Some? ==> interval.value as real <= SECOND / rate < interval.value as real + 1.0
  {
    if rate <= 0.0 then None else Some((SECOND / rate).Floor)
  }

  const SECOND: real := 1_000_000_000.0

  /** A paced run: `count` or `duration` bounds it, the other one is zero. */
  datatype Config = Config(start: int, interval: nat, count: int, duration: int)
  {
    function NextSendTime(n: nat): int {
      start + n * interval
    }

    /** When pass `n` sends: Wait returns at once on or past schedule, and otherwise sleeps the rest of
        the way to it. */
    function SendTime(n: nat, turn: Turn): int {
      var d := NextSendTime(n) - turn.atWait;
      turn.lateness + if d <= 0 then turn.atWait else turn.atWait + d
    }
  }

  /** The clock never runs backwards. */
  ghost predicate Timely(c: Config, turns: seq<Turn>) {
    && (turns != [] ==> c.start <= turns[0].atCheck)
    && (forall n :: 0 <= n < |turns| ==> turns[n].atCheck <= turns[n].atWait)
    && (forall n :: 0 < n < |turns| ==> c.SendTime(n - 1, turns[n - 1]) <= turns[n].atCheck)
  }

  // ---- what a run sends ---------------------------------------------------------------------

  datatype Send = Send(n: nat, at: int)

  function SendsOf(c: Config, turns: seq<Turn>): seq<Send> {
    if turns == [] then []
    else
      var n := |turns| - 1;
      if turns[n].built then SendsOf(c, turns[..n]) + [Send(n, c.SendTime(n, turns[n]))] else SendsOf(c, turns[..n])
  }

  /** Which of the sends were accepted. */
  function ResultsOf(turns: seq<Turn>): seq<bool> {
    if turns == [] then []
    else
      var n := |turns| - 1;
      if turns[n].built then ResultsOf(turns[..n]) + [turns[n].accepted] else ResultsOf(turns[..n])
  }

  function Accepted(results: seq<bool>): nat {
    if results == [] then 0 else Accepted(results[..|results| - 1]) + if results[|results| - 1] then 1 else 0
  }

  /** Consecutive failures at the end of `results`. */
  function Streak(results: seq<bool>): nat {
    if results == [] || results[|results| - 1] then 0 else 1 + Streak(results[..|results| - 1])
  }

  /** How many times a streak of failures reaches the threshold. */
  function Alarms(results: seq<bool>): nat {
    if results == [] then 0
    else Alarms(results[..|results| - 1]) + if Streak(results) == GATEWAY_DOWN_THRESHOLD then 1 else 0
  }

  datatype End = Finished | Interrupted

  /** How the loop ends at the top of pass `n`, if it does. */
  function EndAt(c: Config, turns: seq<Turn>, n: nat): Option<End>
    requires n < |turns|
  {
    if c.count > 0 && n >= c.count then Some(Finished)
    else if c.duration > 0 && turns[n].atCheck >= c.start + c.duration then Some(Finished)
    else if turns[n].cancelled then Some(Interrupted)
    else None
  }

  class Summary {
    var sent: nat
    var accepted: nat
    var failed: nat

    constructor ()
      ensures sent == accepted == failed == 0
    {
      sent, accepted, failed := 0, 0, 0;
    }

    method RecordSent()
      modifies this`sent
      ensures sent == old(sent) + 1
    {
      sent := sent + 1;
    }

    method RecordAccepted()
      modifies this`accepted
      ensures accepted == old(accepted) + 1
    {
      accepted := accepted + 1;
    }

    method RecordFailed()
      modifies this`failed
      ensures failed == old(failed) + 1
    {
      failed := failed + 1;
    }
  }

  /** The run over the passes `turns`: no end when they run out first, no run when the bounds are not
      exactly one or the rate is not positive. Sent equals accepted plus failed at the end of every pass,
      and the alarm goes off
      once per streak of failures that reaches the threshold. */
  method Run(start: int, rate: real, count: int, duration: int, turns: seq<Turn>)
    returns (summary: Summary?, passes: nat, alarms: nat, end: Option<End>)
    ensures summary == null <==> (count <= 0) == (duration <= 0) || rate <= 0.0
    ensures summary != null ==> fresh(summary) && passes <= |turns|
    ensures summary != null ==>
              var c, results := Config(start, IntervalFor(rate).value, count, duration), ResultsOf(turns[..passes]);
              && (forall n: nat :: n < passes ==> EndAt(c, turns, n).None?)
              && end == (if passes < |turns| then EndAt(c, turns, passes) else None)
              && summary.sent == |SendsOf(c, turns[..passes])| == summary.accepted + summary.failed
              && summary.accepted == Accepted(results) && alarms == Alarms(results)
  {
    passes, alarms, end := 0, 0, None;
    var interval := IntervalFor(rate);
    if interval.None? {
      return null, passes, alarms, end;
    }
    if (count <= 0) == (duration <= 0) {
      return null, passes, alarms, end;
    }
    var c := Config(start, interval.value, count, duration);
    summary := new Summary();
    var consecutiveFailures, warnedGatewayDown := 0, false;
    while passes < |turns|
      invariant passes <= |turns| && fresh(summary)
      invariant forall n: nat :: n < passes ==> EndAt(c, turns, n).None?
      invariant summary.sent == |SendsOf(c, turns[..passes])| == summary.accepted + summary.failed
      invariant summary.accepted == Accepted(ResultsOf(turns[..passes]))
      invariant consecutiveFailures == Streak(ResultsOf(turns[..passes]))
      invariant alarms == Alarms(ResultsOf(turns[..passes]))
      invariant warnedGatewayDown <==> consecutiveFailures >= GATEWAY_DOWN_THRESHOLD
      decreases |turns| - passes
    {
      var turn := turns[passes];
      if c.count > 0 && passes >= c.count {
        return summary, passes, alarms, Some(Finished);
      }
      if c.duration > 0 && turn.atCheck >= c.start + c.duration {
        return summary, passes, alarms, Some(Finished);
      }
      if turn.cancelled {
        return summary, passes, alarms, Some(Interrupted);
      }
      OnePass(c, turns, passes);
      passes := passes + 1;
      if !turn.built {
        continue;
      }
      summary.RecordSent();
      if turn.accepted {
        summary.RecordAccepted();
        consecutiveFailures := 0;
        warnedGatewayDown := false;
        continue;
      }
      summary.RecordFailed();
      consecutiveFailures := consecutiveFailures + 1;
      if consecutiveFailures >= GATEWAY_DOWN_THRESHOLD && !warnedGatewayDown {
        alarms := alarms + 1;
        warnedGatewayDown := true;
      }
    }
  }

  lemma OnePass(c: Config, turns: seq<Turn>, n: nat)
    requires n < |turns|
    ensures var before, after := ResultsOf(turns[..n]), ResultsOf(turns[..n + 1]);
            if !turns[n].built then after == before && SendsOf(c, turns[..n + 1]) == SendsOf(c, turns[..n])
            else
              && |SendsOf(c, turns[..n + 1])| == |SendsOf(c, turns[..n])| + 1
              && Accepted(after) == Accepted(before) + (if turns[n].accepted then 1 else 0)
              && Streak(after) == (if turns[n].accepted then 0 else Streak(before) + 1)
              && Alarms(after) == Alarms(before) + (if Streak(after) == GATEWAY_DOWN_THRESHOLD then 1 else 0)
  {
    assert turns[..n + 1][..n] == turns[..n];
    var before := ResultsOf(turns[..n]);
    assert (before + [turns[n].accepted])[..|before|] == before;
  }

  // ---- what the counters count --------------------------------------------------------------

  /** Exactly the passes whose payload could be built send. */
  lemma {:induction false} SendsExactly(c: Config, turns: seq<Turn>, n: nat)
    requires n < |turns|
    ensures (exists x <- SendsOf(c, turns) :: x.n == n) <==> turns[n].built
    decreases |turns|
  {
    var k := |turns| - 1;
    SendsAreInPasses(c, turns[..k]);
    if n < k {
      SendsExactly(c, turns[..k], n);
      if x :| x in SendsOf(c, turns[..k]) && x.n == n { assert x in SendsOf(c, turns); }
    } else if turns[k].built {
      assert Send(k, c.SendTime(k, turns[k])) in SendsOf(c, turns);
    }
  }

  lemma {:induction false} AcceptedCounts(results: seq<bool>)
    ensures Accepted(results) == |set i | 0 <= i < |results| && results[i]|
  {
    if results != [] {
      var n := |results| - 1;
      AcceptedCounts(results[..n]);
      var before := set i | 0 <= i < n && results[..n][i];
      assert (set i | 0 <= i < |results| && results[i]) == if results[n] then before + {n} else before;
    }
  }

  /** A streak of exactly three failures ends at `i`. */
  predicate ThirdFailure(results: seq<bool>, i: int) {
    2 <= i < |results| && !results[i] && !results[i - 1] && !results[i - 2] && (i > 2 ==> results[i - 3])
  }

  lemma StreakIsThree(results: seq<bool>)
    ensures Streak(results) == GATEWAY_DOWN_THRESHOLD <==> ThirdFailure(results, |results| - 1)
  {
    var n := |results|;
    if n >= 1 { assert results[..n - 1] == results[..n - 1]; }
    if n >= 2 { assert results[..n - 1][..n - 2] == results[..n - 2]; }
    if n >= 3 { assert results[..n - 2][..n - 3] == results[..n - 3]; }
    if n >= 4 { assert results[..n - 3][n - 4] == results[n - 4]; }
  }

  /** The alarm goes off once for each streak of failures, at its third. */
  lemma {:induction false} AlarmsCount(results: seq<bool>)
    ensures Alarms(results) == |set i | 0 <= i < |results| && ThirdFailure(results, i)|
  {
    if results != [] {
      var n := |results| - 1;
      AlarmsCount(results[..n]);
      StreakIsThree(results);
      var before := set i | 0 <= i < n && ThirdFailure(results[..n], i);
      assert forall i :: 0 <= i < n ==> ThirdFailure(results[..n], i) == ThirdFailure(results, i);
      assert (set i | 0 <= i < |results| && ThirdFailure(results, i))
             == if ThirdFailure(results, n) then before + {n} else before;
    }
  }

  // ---- pacing -------------------------------------------------------------------------------

  /** Sends in loop order, each in its own pass and at that pass's time. */
  ghost predicate InPasses(c: Config, sends: seq<Send>, turns: seq<Turn>) {
    && (forall i :: 0 <= i < |sends| ==>
          i <= sends[i].n < |turns| && sends[i].at == c.SendTime(sends[i].n, turns[sends[i].n]))
    && (forall i, j :: 0 <= i < j < |sends| ==> sends[i].n < sends[j].n)
  }

  lemma {:induction false} SendsAreInPasses(c: Config, turns: seq<Turn>)
    ensures InPasses(c, SendsOf(c, turns), turns)
  {
    if turns != [] {
      SendsAreInPasses(c, turns[..|turns| - 1]);
      SendsWithinPasses(c, turns[..|turns| - 1]);
    }
  }

  /** How many sends have gone out by time `t`. */
  function SentBy(sends: seq<Send>, t: int): nat {
    if sends == [] then 0 else SentBy(sends[..|sends| - 1], t) + if sends[|sends| - 1].at <= t then 1 else 0
  }

  lemma SlotsGrow(c: Config, i: nat, n: nat)
    requires i <= n
    ensures c.NextSendTime(i) <= c.NextSendTime(n)
  {
    assert i * c.interval <= n * c.interval;
  }

  lemma {:induction false} SentByBound(c: Config, sends: seq<Send>, t: int)
    requires forall i :: 0 <= i < |sends| ==> c.NextSendTime(i) <= sends[i].at
    ensures SentBy(sends, t) <= |sends|
    ensures SentBy(sends, t) > 0 ==> c.NextSendTime(SentBy(sends, t) - 1) <= t
  {
    if sends != [] {
      var n := |sends| - 1;
      SentByBound(c, sends[..n], t);
      if sends[n].at <= t {
        SlotsGrow(c, SentBy(sends[..n], t), n);
      }
    }
  }

  /** By any time t at most floor((t - start) / interval) + 1 events have been sent. */
  lemma RateIsBounded(c: Config, turns: seq<Turn>, t: int)
    requires Timely(c, turns) && c.interval > 0 && t >= c.start
    ensures SentBy(SendsOf(c, turns), t) <= (t - c.start) / c.interval + 1
  {
    SendsAreInPasses(c, turns);
    var sends := SendsOf(c, turns);
    assert InPasses(c, sends, turns);
    forall i | 0 <= i < |sends| ensures c.NextSendTime(i) <= sends[i].at {
      SlotsGrow(c, i, sends[i].n);
    }
    SentByBound(c, sends, t);
    SlotsUpTo(c, SentBy(sends, t), t);
  }

  /** The slots that lie at or before `t`. */
  lemma SlotsUpTo(c: Config, k: nat, t: int)
    requires c.interval > 0 && t >= c.start && (k > 0 ==> c.NextSendTime(k - 1) <= t)
    ensures k <= (t - c.start) / c.interval + 1
  {
    if k > 0 { FloorBound(k - 1, c.interval, t - c.start); }
  }

  lemma FloorBound(k: nat, interval: nat, span: nat)
    requires interval > 0 && k * interval <= span
    ensures k <= span / interval
  {
    var q := span / interval;
    assert span < (q + 1) * interval;
    assert q + 1 <= k ==> (q + 1) * interval <= k * interval;
  }

  /** A count run that finishes has made exactly `count` passes; a timed one finishes at the first check at
      or past its duration; an interrupted one was cancelled. */
  lemma EndsExactly(c: Config, turns: seq<Turn>, passes: nat)
    requires (c.count > 0) != (c.duration > 0) && passes < |turns|
    requires forall n: nat :: n < passes ==> EndAt(c, turns, n).None?
    ensures EndAt(c, turns, passes) == Some(Finished)
            <==> if c.count > 0 then passes == c.count else turns[passes].atCheck >= c.start + c.duration
    ensures EndAt(c, turns, passes) == Some(Interrupted)
            ==> turns[passes].cancelled && (c.count > 0 ==> passes < c.count)
    ensures c.duration > 0 ==> forall n: nat :: n < passes ==> turns[n].atCheck < c.start + c.duration
    ensures forall n: nat :: n < passes ==> !turns[n].cancelled
  {
    assert c.count > 0 && passes > 0 ==> EndAt(c, turns, passes - 1).None?;
    forall n: nat | n < passes
      ensures !turns[n].cancelled && (c.duration > 0 ==> turns[n].atCheck < c.start + c.duration)
    {
      assert EndAt(c, turns, n).None?;
    }
  }

  /** A run of `passes` passes that did not end sends at most one event a pass: at most `count` in a
      count run, and at most ceil(duration / interval) + 1 in a timed one. */
  lemma RunIsBounded(c: Config, turns: seq<Turn>, passes: nat)
    requires Timely(c, turns) && passes <= |turns|
    requires forall n: nat :: n < passes ==> EndAt(c, turns, n).None?
    ensures c.count > 0 ==> |SendsOf(c, turns[..passes])| <= c.count
    ensures c.duration > 0 && c.interval > 0 ==>
              |SendsOf(c, turns[..passes])| <= (c.duration + c.interval - 1) / c.interval + 1
  {
    SendsWithinPasses(c, turns[..passes]);
    assert c.count > 0 && passes > 0 ==> EndAt(c, turns, passes - 1).None?;
    if c.duration > 0 && c.interval > 0 && passes > 1 {
      assert EndAt(c, turns, passes - 1).None?;
      assert c.SendTime(passes - 2, turns[passes - 2]) <= turns[passes - 1].atCheck;
      assert (passes - 2) * c.interval < c.duration;
      CeilBound(passes - 2, c.interval, c.duration);
    }
  }

  lemma CeilBound(k: nat, interval: nat, span: nat)
    requires interval > 0 && k * interval < span
    ensures k + 1 <= (span + interval - 1) / interval
  {
    assert (k + 1) * interval == k * interval + interval;
    FloorBound(k + 1, interval, span + interval - 1);
  }

  lemma {:induction false} SendsWithinPasses(c: Config, turns: seq<Turn>)
    ensures |SendsOf(c, turns)| <= |turns|
  {
    if turns != [] { SendsWithinPasses(c, turns[..|turns| - 1]); }
  }

  // ---- spacing ------------------------------------------------------------------------------

  /** A next pass whose reading in Wait comes after the send, however long the response took. */
  predicate Follows(c: Config, n: nat, x: Turn, y: Turn) {
    c.SendTime(n, x) <= y.atWait
  }

  function Gap(c: Config, n: nat, x: Turn, y: Turn): int {
    c.SendTime(n + 1, y) - c.SendTime(n, x)
  }

  /** The gap between two sends: the time the response took or what the schedule still asks for,
      whichever is longer, plus how late the second goes out. It falls short of an interval exactly when
      the first send was late and neither the response nor the second makes up for it. */
  lemma GapIsExact(c: Config, n: nat, x: Turn, y: Turn)
    requires Follows(c, n, x, y)
    ensures var late, response := c.SendTime(n, x) - c.NextSendTime(n), y.atWait - c.SendTime(n, x);
            && late >= 0
            && Gap(c, n, x, y) == y.lateness + (if response >= c.interval - late then response else c.interval - late)
            && (Gap(c, n, x, y) >= c.interval <==> y.lateness >= late || response + y.lateness >= c.interval)
  {
    assert (n + 1) * c.interval == n * c.interval + c.interval;
  }

  /** The first send went out on schedule: Wait had to sleep or was just in time, and it was prompt. */
  predicate OnSchedule(c: Config, n: nat, x: Turn) {
    x.atWait <= c.NextSendTime(n) && x.lateness == 0
  }

  /** A whole interval before the next send is guaranteed exactly after a send on schedule. */
  lemma SpacingExactly(c: Config, n: nat, x: Turn)
    requires c.interval > 0
    ensures (forall y: Turn | Follows(c, n, x, y) :: Gap(c, n, x, y) >= c.interval) <==> OnSchedule(c, n, x)
  {
    assert OnSchedule(c, n, x) <==> c.SendTime(n, x) == c.NextSendTime(n);
    if OnSchedule(c, n, x) {
      forall y: Turn | Follows(c, n, x, y) ensures Gap(c, n, x, y) >= c.interval { GapIsExact(c, n, x, y); }
    } else {
      var prompt := Turn(c.SendTime(n, x), c.SendTime(n, x), 0, false, true, true);
      GapIsExact(c, n, x, prompt);
      assert Follows(c, n, x, prompt);
    }
  }

  lemma {:induction false} ReadingsGrow(c: Config, turns: seq<Turn>, i: nat, n: nat)
    requires Timely(c, turns) && i <= n < |turns|
    ensures turns[i].atWait <= turns[n].atWait
    decreases n
  {
    if i < n { ReadingsGrow(c, turns, i, n - 1); }
  }

  /** Catching up: once a reading is past the slot of pass `to`, every pass up to it sends without any
      wait, as fast as its responses come back. */
  lemma CatchesUpBackToBack(c: Config, turns: seq<Turn>, from: nat, to: nat)
    requires Timely(c, turns) && from <= to < |turns| && c.NextSendTime(to) <= turns[from].atWait
    ensures forall n :: from <= n <= to ==> c.SendTime(n, turns[n]) == turns[n].atWait + turns[n].lateness
  {
    forall n | from <= n <= to ensures c.SendTime(n, turns[n]) == turns[n].atWait + turns[n].lateness {
      SlotsGrow(c, n, to);
      ReadingsGrow(c, turns, from, n);
    }
  }

  /** One slow response of 35 at an interval of 10, and quick ones of 1 after it: the sends at 35, 36 and
      37 follow each other by 1. */
  lemma SlowResponseBunches(c: Config, turns: seq<Turn>)
    requires c.start == 0 && c.interval == 10
    requires turns == [Turn(0, 0, 0, false, true, true), Turn(35, 35, 0, false, true, true),
                       Turn(36, 36, 0, false, true, true), Turn(37, 37, 0, false, true, true)]
    ensures Timely(c, turns) && !OnSchedule(c, 1, turns[1])
    ensures Gap(c, 0, turns[0], turns[1]) == 35
    ensures Gap(c, 1, turns[1], turns[2]) == Gap(c, 2, turns[2], turns[3]) == 1
  {}
}
