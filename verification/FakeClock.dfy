/** The controllable clock of internal/platform/clock/clock.go. */
module FakeClocks {

  /** A pending waiter: its due time and its one-slot channel, numbered in order of creation. */
  datatype Waiter = Waiter(at: int, ch: nat)

  /** The clock as a value: `made` channels exist, and `sent` holds what was sent on each. */
  datatype View = View(now: int, waiters: seq<Waiter>, made: nat, sent: map<nat, int>)

  /** The waiters still in the future, in their old order. */
  function Pending(ws: seq<Waiter>, now: int): seq<Waiter> {
    if ws == [] then []
    else
      var init, last := Pending(ws[..|ws| - 1], now), ws[|ws| - 1];
      if last.at > now then init + [last] else init
  }

  function Due(ws: seq<Waiter>, now: int): seq<Waiter> {
    if ws == [] then []
    else
      var init, last := Due(ws[..|ws| - 1], now), ws[|ws| - 1];
      if last.at > now then init else init + [last]
  }

  /** `now` sent on the channel of each waiter in turn. */
  function Fired(sent: map<nat, int>, due: seq<Waiter>, now: int): map<nat, int> {
    if due == [] then sent else Fired(sent, due[..|due| - 1], now)[due[|due| - 1].ch := now]
  }

  lemma OneMore(ws: seq<Waiter>, w: Waiter, now: int)
    ensures Pending(ws + [w], now) == if w.at > now then Pending(ws, now) + [w] else Pending(ws, now)
    ensures Due(ws + [w], now) == if w.at > now then Due(ws, now) else Due(ws, now) + [w]
  {
    assert (ws + [w])[..|ws|] == ws;
  }

  function AfterStep(v: View, d: int): View {
    if d <= 0 then v.(made := v.made + 1, sent := v.sent[v.made := v.now])
    else v.(made := v.made + 1, waiters := v.waiters + [Waiter(v.now + d, v.made)])
  }

  function AdvanceStep(v: View, d: int): View {
    var now := v.now + d;
    v.(now := now, waiters := Pending(v.waiters, now), sent := Fired(v.sent, Due(v.waiters, now), now))
  }

  function SetStep(v: View, t: int): View {
    if t - v.now > 0 then AdvanceStep(v, t - v.now) else v.(now := t)
  }

  // ---- what every state keeps ---------------------------------------------------------------

  ghost predicate Increasing(ws: seq<Waiter>) {
    forall i, j :: 0 <= i < j < |ws| ==> ws[i].ch < ws[j].ch
  }

  ghost predicate AllInFuture(ws: seq<Waiter>, now: int) {
    forall w <- ws :: now < w.at
  }

  /** A channel is waited on at most once, and not once it has been sent on. */
  ghost predicate Fresh(v: View) {
    && Increasing(v.waiters)
    && (forall w <- v.waiters :: w.ch < v.made && w.ch !in v.sent)
    && (forall ch <- v.sent :: ch < v.made)
  }

  ghost predicate Inv(v: View) {
    AllInFuture(v.waiters, v.now) && Fresh(v)
  }

  /** Advancing partitions the waiters by their due time. */
  lemma {:induction false} PendingOrDue(ws: seq<Waiter>, now: int, w: Waiter)
    ensures w in Pending(ws, now) <==> w in ws && now < w.at
    ensures w in Due(ws, now) <==> w in ws && w.at <= now
    ensures |Pending(ws, now)| + |Due(ws, now)| == |ws|
  {
    if ws != [] {
      PendingOrDue(ws[..|ws| - 1], now, w);
      assert ws == ws[..|ws| - 1] + [ws[|ws| - 1]];
    }
  }

  /** And keeps their order in both halves. */
  lemma {:induction false} OrderIsKept(ws: seq<Waiter>, now: int)
    requires Increasing(ws)
    ensures Increasing(Pending(ws, now)) && Increasing(Due(ws, now))
  {
    if ws != [] {
      var init, last := ws[..|ws| - 1], ws[|ws| - 1];
      OrderIsKept(init, now);
      forall w | w in Pending(init, now) || w in Due(init, now) ensures w.ch < last.ch {
        PendingOrDue(init, now, w);
      }
    }
  }

  lemma {:induction false} FiredHolds(sent: map<nat, int>, due: seq<Waiter>, now: int, ch: nat)
    ensures ch in Fired(sent, due, now) <==> ch in sent || exists w <- due :: w.ch == ch
    ensures ch in Fired(sent, due, now) ==>
              Fired(sent, due, now)[ch] == if exists w <- due :: w.ch == ch then now else sent[ch]
  {
    if due != [] {
      var init, last := due[..|due| - 1], due[|due| - 1];
      FiredHolds(sent, init, now, ch);
      assert due == init + [last];
      assert last in due && forall w <- init :: w in due;
    }
  }

  lemma {:induction false} SameChannelSameWaiter(ws: seq<Waiter>, a: Waiter, b: Waiter)
    requires Increasing(ws) && a in ws && b in ws && a.ch == b.ch
    ensures a == b
  {
    var i :| 0 <= i < |ws| && ws[i] == a;
    var j :| 0 <= j < |ws| && ws[j] == b;
  }

  lemma AfterKeeps(v: View, d: int)
    requires Inv(v)
    ensures Inv(AfterStep(v, d))
  {}

  lemma AdvanceKeeps(v: View, d: int)
    requires Fresh(v)
    ensures Inv(AdvanceStep(v, d))
  {
    var now, v' := v.now + d, AdvanceStep(v, d);
    OrderIsKept(v.waiters, now);
    forall w <- v'.waiters ensures now < w.at && w.ch < v.made && w.ch !in v'.sent {
      PendingOrDue(v.waiters, now, w);
      FiredHolds(v.sent, Due(v.waiters, now), now, w.ch);
      forall u <- Due(v.waiters, now) ensures u.ch != w.ch {
        PendingOrDue(v.waiters, now, u);
        if u.ch == w.ch { SameChannelSameWaiter(v.waiters, u, w); }
      }
    }
    forall ch <- v'.sent ensures ch < v.made {
      FiredHolds(v.sent, Due(v.waiters, now), now, ch);
      forall u <- Due(v.waiters, now) ensures u.ch < v.made { PendingOrDue(v.waiters, now, u); }
    }
  }

  lemma DueIsUnsent(v: View, now: int)
    requires Fresh(v)
    ensures Increasing(Due(v.waiters, now)) && forall w <- Due(v.waiters, now) :: w.ch !in v.sent
  {
    OrderIsKept(v.waiters, now);
    forall w <- Due(v.waiters, now) ensures w.ch !in v.sent { PendingOrDue(v.waiters, now, w); }
  }

  /** Also when the clock is set backwards. */
  lemma SetKeeps(v: View, t: int)
    requires Inv(v)
    ensures Inv(SetStep(v, t)) && SetStep(v, t).now == t
  {
    if t - v.now > 0 { AdvanceKeeps(v, t - v.now); }
  }

  // ---- the object: a slice over a backing array ---------------------------------------------

  class Fake {
    var now: int
    var buf: array<Waiter>
    var len: nat
    var made: nat
    var sent: map<nat, int>

    ghost predicate Valid()
      reads this, buf
    {
      len <= buf.Length && Inv(Value())
    }

    ghost function Value(): View
      reads this, buf
      requires len <= buf.Length
    {
      View(now, buf[..len], made, sent)
    }

    constructor (start: int)
      ensures Valid() && Value() == View(start, [], 0, map[]) && fresh(buf)
    {
      now, len, made, sent := start, 0, 0, map[];
      buf := new Waiter[0];
    }

    /** A send on a one-slot channel; it would block had the channel been sent on before. */
    method Send(ch: nat)
      requires ch !in sent
      modifies this`sent
      ensures sent == old(sent)[ch := now]
    {
      sent := sent[ch := now];
    }

    method After(d: int) returns (ch: nat)
      requires Valid()
      modifies this, buf
      ensures Valid() && Value() == AfterStep(old(Value()), d) && ch == old(made)
      ensures buf == old(buf) || fresh(buf)
    {
      ghost var v := Value();
      ch := made;
      assert ch !in sent;
      made := made + 1;
      if d <= 0 {
        Send(ch);
      } else {
        Append(Waiter(now + d, ch));
      }
      assert Value() == AfterStep(v, d);
      assert Inv(AfterStep(v, d)) by { AfterKeeps(v, d); }
    }

    /** append: in place while there is room, into a larger array otherwise. */
    method Append(w: Waiter)
      requires len <= buf.Length
      modifies this`buf, this`len, buf
      ensures len <= buf.Length && buf[..len] == old(buf[..len]) + [w]
      ensures buf == old(buf) || fresh(buf)
    {
      if len == buf.Length {
        var bigger := new Waiter[2 * len + 1];
        forall i | 0 <= i < len { bigger[i] := buf[i]; }
        buf := bigger;
      }
      buf[len] := w;
      len := len + 1;
    }

    /** Moves what is not yet due to the front of the array, in place, and hands back the rest. */
    method Compact() returns (due: seq<Waiter>)
      requires len <= buf.Length
      modifies this`len, buf
      ensures len <= buf.Length
      ensures buf[..len] == Pending(old(buf[..len]), now) && due == Due(old(buf[..len]), now)
    {
      ghost var ws := buf[..len];
      due := [];
      var n, kept := len, 0;
      for i := 0 to n
        invariant len == n && kept <= i
        invariant forall k :: i <= k < n ==> buf[k] == ws[k]
        invariant buf[..kept] == Pending(ws[..i], now) && due == Due(ws[..i], now)
      {
        var w := buf[i];
        assert ws[..i + 1] == ws[..i] + [w];
        OneMore(ws[..i], w, now);
        if w.at > now {
          Keep(kept, w);
          kept := kept + 1;
        } else {
          due := due + [w];
        }
      }
      assert ws[..n] == ws;
      len := kept;
    }

    method Keep(kept: nat, w: Waiter)
      requires kept < buf.Length
      modifies buf
      ensures buf[..kept + 1] == old(buf[..kept]) + [w]
      ensures forall k :: kept < k < buf.Length ==> buf[k] == old(buf[k])
    {
      buf[kept] := w;
    }

    method Fire(due: seq<Waiter>)
      requires Increasing(due) && forall w <- due :: w.ch !in sent
      modifies this`sent
      ensures sent == Fired(old(sent), due, now)
    {
      for i := 0 to |due|
        invariant sent == Fired(old(sent), due[..i], now)
        invariant forall k :: i <= k < |due| ==> due[k].ch !in sent
      {
        assert due[..i + 1][..i] == due[..i];
        Send(due[i].ch);
      }
      assert due[..|due|] == due;
    }

    method Advance(d: int)
      requires Valid()
      modifies this, buf
      ensures Valid() && Value() == AdvanceStep(old(Value()), d) && buf == old(buf)
    {
      AdvanceKeeps(Value(), d);
      DueIsUnsent(Value(), now + d);
      MoveOn(d);
    }

    /** The body of Advance: both critical section and sends. */
    method MoveOn(d: int)
      requires len <= buf.Length
      requires var due := Due(buf[..len], now + d);
               Increasing(due) && forall w <- due :: w.ch !in sent
      modifies this`now, this`len, this`sent, buf
      ensures len <= buf.Length && Value() == AdvanceStep(old(Value()), d)
    {
      now := now + d;
      var due := Compact();
      Fire(due);
    }

    method Set(t: int)
      requires Valid()
      modifies this, buf
      ensures Valid() && Value() == SetStep(old(Value()), t) && buf == old(buf)
    {
      SetKeeps(Value(), t);
      var d := t - now;
      if d > 0 {
        Advance(d);
        return;
      }
      now := t;
    }
  }

  // ---- runs ---------------------------------------------------------------------------------

  datatype Op = Wait(d: int) | Forward(d: int) | SetTo(t: int)

  function Step(v: View, op: Op): View {
    match op
    case Wait(d) => AfterStep(v, d)
    case Forward(d) => AdvanceStep(v, d)
    case SetTo(t) => SetStep(v, t)
  }

  function Ran(v: View, ops: seq<Op>): View {
    if ops == [] then v else Step(Ran(v, ops[..|ops| - 1]), ops[|ops| - 1])
  }

  lemma StepKeeps(v: View, op: Op)
    requires Inv(v)
    ensures Inv(Step(v, op))
  {
    match op
    case Wait(d) => AfterKeeps(v, d);
    case Forward(d) => AdvanceKeeps(v, d);
    case SetTo(t) => SetKeeps(v, t);
  }

  /** In every reachable state all pending waiters are strictly in the future and no pending channel has
      been sent on. */
  lemma {:induction false} RunKeeps(v: View, ops: seq<Op>)
    requires Inv(v)
    ensures Inv(Ran(v, ops))
  {
    if ops != [] {
      RunKeeps(v, ops[..|ops| - 1]);
      StepKeeps(Ran(v, ops[..|ops| - 1]), ops[|ops| - 1]);
    }
  }

  /** One step fires a pending waiter exactly when it brings the clock to its time, and then with that
      time; a channel already sent on keeps its value. */
  lemma StepFires(v: View, op: Op, w: Waiter)
    requires Inv(v)
    ensures var v' := Step(v, op);
            w in v.waiters ==>
              if v'.now >= w.at then w !in v'.waiters && w.ch in v'.sent && v'.sent[w.ch] == v'.now
              else w in v'.waiters && w.ch !in v'.sent
    ensures w.ch in v.sent ==> w.ch in Step(v, op).sent && Step(v, op).sent[w.ch] == v.sent[w.ch]
  {
    if op.Forward? || (op.SetTo? && op.t > v.now) {
      var now := if op.Forward? then v.now + op.d else op.t;
      PendingOrDue(v.waiters, now, w);
      FiredHolds(v.sent, Due(v.waiters, now), now, w.ch);
      forall u <- Due(v.waiters, now) ensures u in v.waiters && u.at <= now { PendingOrDue(v.waiters, now, u); }
      forall u <- Due(v.waiters, now) | u.ch == w.ch && w in v.waiters ensures u == w {
        SameChannelSameWaiter(v.waiters, u, w);
      }
    }
  }

  /** The clock's readings along a run never reach `at`. */
  ghost predicate StaysBelow(v: View, ops: seq<Op>, at: int) {
    forall k :: 0 <= k <= |ops| ==> Ran(v, ops[..k]).now < at
  }

  lemma {:induction false} WaitsWhileBelow(v: View, ops: seq<Op>, w: Waiter)
    requires Inv(v) && w in v.waiters && StaysBelow(v, ops, w.at)
    ensures w in Ran(v, ops).waiters
  {
    if ops != [] {
      var before := ops[..|ops| - 1];
      forall k | 0 <= k <= |before| ensures Ran(v, before[..k]).now < w.at { assert before[..k] == ops[..k]; }
      WaitsWhileBelow(v, before, w);
      RunKeeps(v, before);
      StepFires(Ran(v, before), ops[|ops| - 1], w);
      assert ops[..|ops|] == ops;
    }
  }

  lemma {:induction false} StaysSent(v: View, ops: seq<Op>, w: Waiter)
    requires Inv(v) && w.ch in v.sent
    ensures w.ch in Ran(v, ops).sent && Ran(v, ops).sent[w.ch] == v.sent[w.ch]
  {
    if ops != [] {
      StaysSent(v, ops[..|ops| - 1], w);
      RunKeeps(v, ops[..|ops| - 1]);
      StepFires(Ran(v, ops[..|ops| - 1]), ops[|ops| - 1], w);
    }
  }

  /** A wait that is not positive is over at once, at the time it was asked for, whatever follows. */
  lemma FiresAtOnce(v: View, d: int, later: seq<Op>)
    requires Inv(v) && d <= 0
    ensures var t := Ran(AfterStep(v, d), later);
            v.made in t.sent && t.sent[v.made] == v.now && !exists w <- t.waiters :: w.ch == v.made
  {
    var w, start := Waiter(v.now, v.made), AfterStep(v, d);
    AfterKeeps(v, d);
    StaysSent(start, later, w);
    RunKeeps(start, later);
  }

  /** A waiter fires exactly once: at the first step that brings the clock to its time, with the time of
      that step, whatever follows. */
  lemma FiresOnce(v: View, d: int, quiet: seq<Op>, op: Op, later: seq<Op>)
    requires Inv(v) && d > 0
    requires StaysBelow(AfterStep(v, d), quiet, v.now + d)
    requires Step(Ran(AfterStep(v, d), quiet), op).now >= v.now + d
    ensures var before := Ran(AfterStep(v, d), quiet);
            var reached := Step(before, op);
            && v.made !in before.sent
            && v.made in Ran(reached, later).sent && Ran(reached, later).sent[v.made] == reached.now
  {
    var w, start := Waiter(v.now + d, v.made), AfterStep(v, d);
    AfterKeeps(v, d);
    assert start.waiters[|v.waiters|] == w;
    WaitsWhileBelow(start, quiet, w);
    RunKeeps(start, quiet);
    StepFires(Ran(start, quiet), op, w);
    StepKeeps(Ran(start, quiet), op);
    StaysSent(Step(Ran(start, quiet), op), later, w);
  }
}
