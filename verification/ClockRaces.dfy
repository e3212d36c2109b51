/** The fake clock of internal/platform/clock/clock.go under concurrency: each critical section is one
    step, and the sends that Advance makes after unlocking are steps of their own. */
module ClockRaces {
  import opened FakeClocks

  /** What a Set call decided when it read the clock: to advance by the difference, or to write. */
  datatype Late = ToAdvance(t: int, d: int) | ToWrite(t: int)

  /** A send still to be made, on a due waiter's channel. */
  datatype Unsent = Unsent(ch: nat, now: int)

  /** The clock, the Set calls between their two sections, and the sends not yet made. */
  datatype Racing = Racing(clock: View, late: seq<Late>, unsent: seq<Unsent>)

  datatype Section =
    | Waits(d: int)
    | Advances(d: int)
    | SetReads(t: int)
    | SetFinishes(k: nat)
    | Sends(k: nat)

  predicate Possible(r: Racing, x: Section) {
    match x
    case SetFinishes(k) => k < |r.late|
    case Sends(k) => k < |r.unsent|
    case _ => true
  }

  function Without<T>(s: seq<T>, k: nat): seq<T>
    requires k < |s|
  {
    s[..k] + s[k + 1..]
  }

  function ToSend(due: seq<Waiter>, now: int): (us: seq<Unsent>)
    ensures |us| == |due| && forall i :: 0 <= i < |due| ==> us[i] == Unsent(due[i].ch, now)
  {
    if due == [] then [] else ToSend(due[..|due| - 1], now) + [Unsent(due[|due| - 1].ch, now)]
  }

  /** The locked part of Advance. */
  function Advanced(r: Racing, d: int): Racing {
    var now := r.clock.now + d;
    r.(clock := r.clock.(now := now, waiters := Pending(r.clock.waiters, now)),
       unsent := r.unsent + ToSend(Due(r.clock.waiters, now), now))
  }

  function Taken(r: Racing, x: Section): Racing
    requires Possible(r, x)
  {
    match x
    case Waits(d) => r.(clock := AfterStep(r.clock, d))
    case Advances(d) => Advanced(r, d)
    case SetReads(t) =>
      var d := t - r.clock.now;
      r.(late := r.late + [if d > 0 then ToAdvance(t, d) else ToWrite(t)])
    case SetFinishes(k) =>
      var r' := r.(late := Without(r.late, k));
      (match r.late[k]
       case ToAdvance(_, d) => Advanced(r', d)
       case ToWrite(t) => r'.(clock := r.clock.(now := t)))
    case Sends(k) =>
      r.(clock := r.clock.(sent := r.clock.sent[r.unsent[k].ch := r.unsent[k].now]), unsent := Without(r.unsent, k))
  }

  predicate ValidRun(r: Racing, xs: seq<Section>)
    decreases |xs|
  {
    xs == [] || (Possible(r, xs[0]) && ValidRun(Taken(r, xs[0]), xs[1..]))
  }

  function Ran(r: Racing, xs: seq<Section>): Racing
    requires ValidRun(r, xs)
    decreases |xs|
  {
    if xs == [] then r else Ran(Taken(r, xs[0]), xs[1..])
  }

  // ---- no channel is lost or sent on twice --------------------------------------------------

  ghost predicate Waiting(ws: seq<Waiter>, ch: nat) {
    exists w <- ws :: w.ch == ch
  }

  ghost predicate Owed(us: seq<Unsent>, ch: nat) {
    exists u <- us :: u.ch == ch
  }

  /** No channel is owed two sends. */
  ghost predicate OwedOnce(us: seq<Unsent>) {
    forall i, j :: 0 <= i < j < |us| ==> us[i].ch != us[j].ch
  }

  /** Each channel made is in exactly one place: waited on, owed a send, or sent on. */
  ghost predicate Conserved(r: Racing) {
    && Increasing(r.clock.waiters) && OwedOnce(r.unsent)
    && (forall ch: nat :: Waiting(r.clock.waiters, ch) ==> !Owed(r.unsent, ch) && ch !in r.clock.sent)
    && (forall ch: nat :: Owed(r.unsent, ch) ==> ch !in r.clock.sent)
    && (forall ch: nat ::
          Waiting(r.clock.waiters, ch) || Owed(r.unsent, ch) || ch in r.clock.sent <==> ch < r.clock.made)
  }

  lemma SplitsWaiters(ws: seq<Waiter>, now: int, ch: nat)
    requires Increasing(ws)
    ensures Waiting(ws, ch) <==> Waiting(Pending(ws, now), ch) || Waiting(Due(ws, now), ch)
    ensures !(Waiting(Pending(ws, now), ch) && Waiting(Due(ws, now), ch))
  {
    forall w: Waiter ensures (w in ws <==> w in Pending(ws, now) || w in Due(ws, now))
                             && !(w in Pending(ws, now) && w in Due(ws, now))
    {
      PendingOrDue(ws, now, w);
    }
    if Waiting(Pending(ws, now), ch) && Waiting(Due(ws, now), ch) {
      var a :| a in Pending(ws, now) && a.ch == ch;
      var b :| b in Due(ws, now) && b.ch == ch;
      SameChannelSameWaiter(ws, a, b);
    }
  }

  lemma OwedMore(us: seq<Unsent>, due: seq<Waiter>, now: int, ch: nat)
    ensures Owed(us + ToSend(due, now), ch) <==> Owed(us, ch) || Waiting(due, ch)
  {
    var more := ToSend(due, now);
    if Waiting(due, ch) {
      var i :| 0 <= i < |due| && due[i].ch == ch;
      assert more[i] in us + more;
    }
    if Owed(us, ch) {
      var u :| u in us && u.ch == ch;
      assert u in us + more;
    }
    if Owed(us + more, ch) {
      var i :| 0 <= i < |us + more| && (us + more)[i].ch == ch;
      if i < |us| {
        assert us[i] in us;
      } else {
        assert more[i - |us|].ch == ch && due[i - |us|] in due;
      }
    }
  }

  lemma OwedOnceMore(us: seq<Unsent>, due: seq<Waiter>, now: int)
    requires OwedOnce(us) && Increasing(due) && forall w <- due :: !Owed(us, w.ch)
    ensures OwedOnce(us + ToSend(due, now))
  {
    var all := us + ToSend(due, now);
    forall i, j | 0 <= i < j < |all| ensures all[i].ch != all[j].ch {
      if i < |us| <= j {
        assert all[i] in us && due[j - |us|] in due;
      }
    }
  }

  /** The waiters in `due` move from waiting to owed. */
  ghost predicate Moves(ws: seq<Waiter>, us: seq<Unsent>, due: seq<Waiter>, ws': seq<Waiter>, us': seq<Unsent>) {
    && Increasing(ws') && OwedOnce(us')
    && (forall ch: nat :: Waiting(ws, ch) <==> Waiting(ws', ch) || Waiting(due, ch))
    && (forall ch: nat :: Waiting(ws', ch) ==> !Waiting(due, ch))
    && (forall ch: nat :: Owed(us', ch) <==> Owed(us, ch) || Waiting(due, ch))
  }

  lemma DueMoves(ws: seq<Waiter>, us: seq<Unsent>, now: int)
    requires Increasing(ws) && OwedOnce(us) && forall ch: nat :: Waiting(ws, ch) ==> !Owed(us, ch)
    ensures Moves(ws, us, Due(ws, now), Pending(ws, now), us + ToSend(Due(ws, now), now))
  {
    var due := Due(ws, now);
    OrderIsKept(ws, now);
    forall ch: nat ensures (Waiting(ws, ch) <==> Waiting(Pending(ws, now), ch) || Waiting(due, ch))
                           && !(Waiting(Pending(ws, now), ch) && Waiting(due, ch))
                           && (Owed(us + ToSend(due, now), ch) <==> Owed(us, ch) || Waiting(due, ch))
    {
      SplitsWaiters(ws, now, ch);
      OwedMore(us, due, now, ch);
    }
    forall w <- due ensures !Owed(us, w.ch) { assert Waiting(due, w.ch); }
    OwedOnceMore(us, due, now);
  }

  lemma MovesConserve(r: Racing, due: seq<Waiter>, r': Racing)
    requires Conserved(r) && Moves(r.clock.waiters, r.unsent, due, r'.clock.waiters, r'.unsent)
    requires r'.clock.sent == r.clock.sent && r'.clock.made == r.clock.made
    ensures Conserved(r')
  {}

  lemma AdvanceConserves(r: Racing, d: int)
    requires Conserved(r)
    ensures Conserved(Advanced(r, d))
  {
    DueMoves(r.clock.waiters, r.unsent, r.clock.now + d);
    MovesConserve(r, Due(r.clock.waiters, r.clock.now + d), Advanced(r, d));
  }

  lemma OwedWithout(us: seq<Unsent>, k: nat, ch: nat)
    requires OwedOnce(us) && k < |us|
    ensures OwedOnce(Without(us, k))
    ensures Owed(Without(us, k), ch) <==> Owed(us, ch) && ch != us[k].ch
  {
    var rest := Without(us, k);
    if Owed(us, ch) && ch != us[k].ch {
      var i :| 0 <= i < |us| && us[i].ch == ch;
      assert rest[if i < k then i else i - 1] == us[i];
    }
    if Owed(rest, ch) {
      var i :| 0 <= i < |rest| && rest[i].ch == ch;
      assert rest[i] == us[if i < k then i else i + 1];
    }
  }

  /** A send finds its channel empty, so it cannot block. */
  lemma SendConserves(r: Racing, k: nat)
    requires Conserved(r) && k < |r.unsent|
    ensures r.unsent[k].ch !in r.clock.sent && Conserved(Taken(r, Sends(k)))
  {
    assert Owed(r.unsent, r.unsent[k].ch);
    forall ch: nat ensures OwedOnce(Without(r.unsent, k))
                           && (Owed(Without(r.unsent, k), ch) <==> Owed(r.unsent, ch) && ch != r.unsent[k].ch)
    {
      OwedWithout(r.unsent, k, ch);
    }
  }

  lemma WaitConserves(r: Racing, d: int)
    requires Conserved(r)
    ensures Conserved(Taken(r, Waits(d)))
  {
    if d > 0 {
      var ws, w := r.clock.waiters, Waiter(r.clock.now + d, r.clock.made);
      forall u <- ws ensures u.ch < w.ch { assert Waiting(ws, u.ch); }
      forall ch: nat ensures Waiting(ws + [w], ch) <==> Waiting(ws, ch) || ch == w.ch {
        assert w in ws + [w];
        assert forall u <- ws :: u in ws + [w];
      }
    }
  }

  /** Under every interleaving each channel is sent on at most once and none is lost. */
  lemma {:induction false} RunConserves(r: Racing, xs: seq<Section>)
    requires Conserved(r) && ValidRun(r, xs)
    ensures Conserved(Ran(r, xs))
    decreases |xs|
  {
    if xs != [] {
      match xs[0] {
        case Waits(d) => WaitConserves(r, d);
        case Advances(d) => AdvanceConserves(r, d);
        case SetReads(t) =>
        case SetFinishes(k) =>
          if r.late[k].ToAdvance? { AdvanceConserves(r.(late := Without(r.late, k)), r.late[k].d); }
        case Sends(k) => SendConserves(r, k);
      }
      RunConserves(Taken(r, xs[0]), xs[1..]);
    }
  }

  // ---- waiters stay in the future -----------------------------------------------------------

  ghost predicate InFuture(r: Racing) {
    AllInFuture(r.clock.waiters, r.clock.now)
  }

  /** The section is no backward write, or one whose target the clock has not fallen behind. */
  predicate Guarded(r: Racing, x: Section) {
    x.SetFinishes? && x.k < |r.late| && r.late[x.k].ToWrite? ==> r.late[x.k].t <= r.clock.now
  }

  lemma GuardedKeepsFuture(r: Racing, x: Section)
    requires InFuture(r) && Possible(r, x) && Guarded(r, x)
    ensures InFuture(Taken(r, x))
  {
    if x.Advances? || (x.SetFinishes? && r.late[x.k].ToAdvance?) {
      var now := r.clock.now + if x.Advances? then x.d else r.late[x.k].d;
      forall w <- Pending(r.clock.waiters, now) ensures now < w.at { PendingOrDue(r.clock.waiters, now, w); }
    }
  }

  ghost predicate GuardedRun(r: Racing, xs: seq<Section>)
    requires ValidRun(r, xs)
    decreases |xs|
  {
    xs == [] || (Guarded(r, xs[0]) && GuardedRun(Taken(r, xs[0]), xs[1..]))
  }

  /** Under every interleaving whose late writes are guarded, all waiters stay strictly in the future. */
  lemma {:induction false} GuardedRunKeepsFuture(r: Racing, xs: seq<Section>)
    requires InFuture(r) && ValidRun(r, xs) && GuardedRun(r, xs)
    ensures InFuture(Ran(r, xs))
    decreases |xs|
  {
    if xs != [] {
      GuardedKeepsFuture(r, xs[0]);
      GuardedRunKeepsFuture(Taken(r, xs[0]), xs[1..]);
    }
  }

  /** And no weaker guard will do: a late write is safe whatever waiter arrives just before it exactly
      when its target is not ahead of the clock. */
  lemma WriteIsSafeExactly(r: Racing, k: nat)
    requires InFuture(r) && k < |r.late| && r.late[k].ToWrite?
    ensures (forall d: int :: InFuture(Taken(Taken(r, Waits(d)), SetFinishes(k)))) <==> r.late[k].t <= r.clock.now
  {
    var t := r.late[k].t;
    if t <= r.clock.now {
      forall d: int ensures InFuture(Taken(Taken(r, Waits(d)), SetFinishes(k))) {
        GuardedKeepsFuture(r, Waits(d));
        GuardedKeepsFuture(Taken(r, Waits(d)), SetFinishes(k));
      }
    } else {
      var d := t - r.clock.now;
      var late := Taken(Taken(r, Waits(d)), SetFinishes(k));
      assert late.clock.waiters[|r.clock.waiters|] == Waiter(t, r.clock.made);
    }
  }

  /** The section does not move the clock back. */
  predicate Forward(r: Racing, x: Section) {
    match x
    case Advances(d) => d >= 0
    case SetFinishes(k) => k < |r.late| && r.late[k].ToAdvance? && r.late[k].d >= 0
    case _ => true
  }

  ghost predicate ForwardRun(r: Racing, xs: seq<Section>)
    requires ValidRun(r, xs)
    decreases |xs|
  {
    xs == [] || (Forward(r, xs[0]) && ForwardRun(Taken(r, xs[0]), xs[1..]))
  }

  lemma {:induction false} ForwardRunAdvances(r: Racing, xs: seq<Section>)
    requires ValidRun(r, xs) && ForwardRun(r, xs)
    ensures r.clock.now <= Ran(r, xs).clock.now
    decreases |xs|
  {
    if xs != [] { ForwardRunAdvances(Taken(r, xs[0]), xs[1..]); }
  }

  /** So a backward Set is guarded unless the clock is moved back between its two sections. */
  lemma GuardedUnlessSetBack(r: Racing, t: int, xs: seq<Section>)
    requires t <= r.clock.now && ValidRun(Taken(r, SetReads(t)), xs) && ForwardRun(Taken(r, SetReads(t)), xs)
    ensures t <= Ran(Taken(r, SetReads(t)), xs).clock.now
  {
    ForwardRunAdvances(Taken(r, SetReads(t)), xs);
  }

  /** A forward Set lands on its target exactly when the clock still reads what it read before. */
  lemma LandsExactly(r: Racing, t: int, xs: seq<Section>, k: nat)
    requires t > r.clock.now && ValidRun(Taken(r, SetReads(t)), xs)
    requires var s := Ran(Taken(r, SetReads(t)), xs);
             k < |s.late| && s.late[k] == ToAdvance(t, t - r.clock.now)
    ensures var s := Ran(Taken(r, SetReads(t)), xs);
            Taken(s, SetFinishes(k)).clock.now == t <==> s.clock.now == r.clock.now
  {}

  // ---- alone, the sections are the steps ----------------------------------------------------

  /** Makes every send that is owed, oldest first. */
  function Flushed(r: Racing): Racing
    decreases |r.unsent|
  {
    if r.unsent == [] then r else Flushed(Taken(r, Sends(0)))
  }

  lemma {:induction false} FiredFirst(sent: map<nat, int>, w: Waiter, rest: seq<Waiter>, now: int)
    ensures Fired(sent, [w] + rest, now) == Fired(sent[w.ch := now], rest, now)
  {
    if rest == [] {
      assert ([w] + rest)[..0] == [];
    } else {
      var n := |rest| - 1;
      FiredFirst(sent, w, rest[..n], now);
      assert ([w] + rest)[..|rest|] == [w] + rest[..n];
    }
  }

  lemma {:induction false} FlushedIsFired(r: Racing, due: seq<Waiter>, now: int)
    requires r.unsent == ToSend(due, now)
    ensures Flushed(r) == r.(clock := r.clock.(sent := Fired(r.clock.sent, due, now)), unsent := [])
    decreases |due|
  {
    if due != [] {
      var rest := due[1..];
      assert due == [due[0]] + rest;
      assert Without(r.unsent, 0) == ToSend(rest, now);
      FlushedIsFired(Taken(r, Sends(0)), rest, now);
      FiredFirst(r.clock.sent, due[0], rest, now);
    }
  }

  /** Advance and Set on their own, sends included, are the steps of the one-caller clock. */
  lemma AdvanceAlone(v: View, d: int)
    ensures Flushed(Taken(Racing(v, [], []), Advances(d))) == Racing(AdvanceStep(v, d), [], [])
  {
    var now := v.now + d;
    var owed := ToSend(Due(v.waiters, now), now);
    var r := Racing(v.(now := now, waiters := Pending(v.waiters, now)), [], owed);
    assert [] + owed == owed;
    assert Taken(Racing(v, [], []), Advances(d)) == r;
    FlushedIsFired(r, Due(v.waiters, now), now);
  }

  lemma SetAlone(v: View, t: int)
    ensures Flushed(Taken(Taken(Racing(v, [], []), SetReads(t)), SetFinishes(0))) == Racing(SetStep(v, t), [], [])
  {
    var r := Taken(Racing(v, [], []), SetReads(t));
    assert Without(r.late, 0) == [];
    if t - v.now > 0 { AdvanceAlone(v, t - v.now); }
  }

  // ---- two overlapping Sets -----------------------------------------------------------------

  /** One Set reads 10 and decides to write 5; another sets 0; a waiter for 3 arrives; the first writes 5.
      The waiter is then in the past, pending, and nothing is owed to it. */
  lemma OverlappingSetsStrandWaiter()
    ensures var r := Racing(View(10, [], 0, map[]), [], []);
            var xs := [SetReads(5), SetReads(0), SetFinishes(1), Waits(3), SetFinishes(0)];
            && ValidRun(r, xs) && Ran(r, xs) == Racing(View(5, [Waiter(3, 0)], 1, map[]), [], [])
            && !InFuture(Ran(r, xs))
  {
    var r := Racing(View(10, [], 0, map[]), [], []);
    var r1 := Taken(r, SetReads(5));
    var r2 := Taken(r1, SetReads(0));
    assert r2.late == [ToWrite(5), ToWrite(0)];
    var r3 := Taken(r2, SetFinishes(1));
    assert r3.late == [ToWrite(5)];
    var r4 := Taken(r3, Waits(3));
    var r5 := Taken(r4, SetFinishes(0));
    assert r5 == Racing(View(5, [Waiter(3, 0)], 1, map[]), [], []);
    assert r5.clock.waiters[0] == Waiter(3, 0);
    Unroll(r4, SetFinishes(0), []);
    Unroll(r3, Waits(3), [SetFinishes(0)]);
    Unroll(r2, SetFinishes(1), [Waits(3), SetFinishes(0)]);
    Unroll(r1, SetReads(0), [SetFinishes(1), Waits(3), SetFinishes(0)]);
    Unroll(r, SetReads(5), [SetReads(0), SetFinishes(1), Waits(3), SetFinishes(0)]);
  }

  /** Two Sets to 10 from 0 each read 0, and the clock ends at 20. */
  lemma OverlappingSetsOvershoot()
    ensures var r := Racing(View(0, [], 0, map[]), [], []);
            var xs := [SetReads(10), SetReads(10), SetFinishes(0), SetFinishes(0)];
            ValidRun(r, xs) && Ran(r, xs).clock.now == 20
  {
    var r := Racing(View(0, [], 0, map[]), [], []);
    var r1 := Taken(r, SetReads(10));
    var r2 := Taken(r1, SetReads(10));
    assert r2.late == [ToAdvance(10, 10), ToAdvance(10, 10)];
    var r3 := Taken(r2, SetFinishes(0));
    assert r3.late == [ToAdvance(10, 10)];
    Unroll(r3, SetFinishes(0), []);
    Unroll(r2, SetFinishes(0), [SetFinishes(0)]);
    Unroll(r1, SetReads(10), [SetFinishes(0), SetFinishes(0)]);
    Unroll(r, SetReads(10), [SetReads(10), SetFinishes(0), SetFinishes(0)]);
  }

  lemma Unroll(r: Racing, x: Section, xs: seq<Section>)
    requires Possible(r, x) && ValidRun(Taken(r, x), xs)
    ensures ValidRun(r, [x] + xs) && Ran(r, [x] + xs) == Ran(Taken(r, x), xs)
  {
    assert ([x] + xs)[1..] == xs;
  }
}
