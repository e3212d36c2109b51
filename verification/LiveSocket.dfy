/** connectLiveSocket of web/src/lib/api.ts: the reconnecting live-updates socket, driven by browser
    events in any order. */
module LiveSockets {
  import opened Prelude

  const NORMAL_CLOSURE := 1000

  datatype Status = Live | Reconnecting | Disconnected | Complete

  /** What the caller and the browser see the machine do. */
  datatype Output = Opened | Reported(status: Status) | Armed(delay: nat) | Updated | CloseRequested

  /** A browser socket: it opens at most once, then closes once; nothing follows its close event. */
  datatype Wire = Connecting | Open | Shut

  datatype Options = Options(initialDelay: nat, maxDelay: nat, degradedAfter: nat)

  /** The closure's variables, the browser's sockets and pending timer, and everything emitted. */
  datatype View = View(closed: bool, attempt: nat, timer: Option<nat>, wires: seq<Wire>, out: seq<Output>)

  function Pow2(n: nat): (p: nat)
    ensures p > 0
  {
    if n == 0 then 1 else 2 * Pow2(n - 1)
  }

  function Min(a: nat, b: nat): nat {
    if a <= b then a else b
  }

  /** The wait before the reconnect that follows the `k`-th consecutive close. */
  function Backoff(o: Options, k: nat): nat
    requires k > 0
  {
    Min(o.initialDelay * Pow2(k - 1), o.maxDelay)
  }

  datatype Event =
    | Opens(socket: nat)
    | Closes(socket: nat, code: int)
    | Receives(socket: nat, wellFormed: bool)
    | TimerFires
    | Teardown

  /** What the browser can deliver; the caller may tear down at any time, even twice. */
  predicate Possible(v: View, e: Event) {
    match e
    case Opens(i) => i < |v.wires| && v.wires[i].Connecting?
    case Closes(i, _) => i < |v.wires| && !v.wires[i].Shut?
    case Receives(i, _) => i < |v.wires| && v.wires[i].Open?
    case TimerFires => v.timer.Some?
    case Teardown => true
  }

  function Connected(v: View): View {
    if v.closed then v else v.(wires := v.wires + [Connecting], out := v.out + [Opened])
  }

  function Handled(o: Options, v: View, e: Event): View
    requires Possible(v, e)
  {
    match e
    case Opens(i) =>
      var w := v.(wires := v.wires[i := Open]);
      if w.closed then w else w.(attempt := 0, out := w.out + [Reported(Live)])
    case Closes(i, code) =>
      var w := v.(wires := v.wires[i := Shut]);
      if w.closed then w
      else if code == NORMAL_CLOSURE then w.(out := w.out + [Reported(Complete)])
      else
        var k := w.attempt + 1;
        w.(attempt := k,
           timer := Some(Backoff(o, k)),
           out := w.out + [Reported(if k > o.degradedAfter then Disconnected else Reconnecting),
                           Armed(Backoff(o, k))])
    case Receives(_, wellFormed) => if wellFormed then v.(out := v.out + [Updated]) else v
    case TimerFires => Connected(v.(timer := None))
    case Teardown =>
      v.(closed := true, timer := None, out := if v.wires == [] then v.out else v.out + [CloseRequested])
  }

  // ---- the source's closure as an object ----------------------------------------------------

  class LiveSocket {
    const options: Options
    var closed: bool
    var attempt: nat
    var reconnectTimer: Option<nat>
    /** The browser's sockets, oldest first; `ws` is the last one. */
    var sockets: seq<Wire>
    var out: seq<Output>

    ghost function Now(): View
      reads this
    {
      View(closed, attempt, reconnectTimer, sockets, out)
    }

    constructor (options: Options)
      ensures Now() == Connected(View(false, 0, None, [], [])) && this.options == options
    {
      this.options := options;
      closed, attempt, reconnectTimer, sockets, out := false, 0, None, [], [];
      new;
      Connect();
    }

    method Connect()
      modifies this
      ensures Now() == Connected(old(Now()))
    {
      if closed { return; }
      sockets := sockets + [Connecting];
      out := out + [Opened];
    }

    method ScheduleReconnect()
      requires attempt > 0
      modifies this`reconnectTimer, this`out
      ensures reconnectTimer == Some(Backoff(options, attempt))
      ensures out == old(out) + [Armed(Backoff(options, attempt))]
    {
      var delay := Min(options.initialDelay * Pow2(attempt - 1), options.maxDelay);
      reconnectTimer := Some(delay);
      out := out + [Armed(delay)];
    }

    method OnTimer()
      requires Possible(Now(), TimerFires)
      modifies this
      ensures Now() == Handled(options, old(Now()), TimerFires)
    {
      reconnectTimer := None;
      Connect();
    }

    method OnOpen(socket: nat)
      requires Possible(Now(), Opens(socket))
      modifies this
      ensures Now() == Handled(options, old(Now()), Opens(socket))
    {
      sockets := sockets[socket := Open];
      if closed { return; }
      attempt := 0;
      out := out + [Reported(Live)];
    }

    method OnClose(socket: nat, code: int)
      requires Possible(Now(), Closes(socket, code))
      modifies this
      ensures Now() == Handled(options, old(Now()), Closes(socket, code))
    {
      sockets := sockets[socket := Shut];
      if closed { return; }
      if code == NORMAL_CLOSURE {
        out := out + [Reported(Complete)];
        return;
      }
      attempt := attempt + 1;
      out := out + [Reported(if attempt > options.degradedAfter then Disconnected else Reconnecting)];
      ScheduleReconnect();
    }

    /** Does not look at `closed`: an update may still be delivered after teardown. */
    method OnMessage(socket: nat, wellFormed: bool)
      requires Possible(Now(), Receives(socket, wellFormed))
      modifies this
      ensures Now() == Handled(options, old(Now()), Receives(socket, wellFormed))
    {
      if wellFormed { out := out + [Updated]; }
    }

    method Close()
      modifies this
      ensures Now() == Handled(options, old(Now()), Teardown)
    {
      closed := true;
      if reconnectTimer.Some? { reconnectTimer := None; }
      if sockets != [] { out := out + [CloseRequested]; }
    }
  }

  // ---- runs ---------------------------------------------------------------------------------

  predicate ValidRun(o: Options, es: seq<Event>)
    decreases |es|, 0
  {
    es == [] || (ValidRun(o, es[..|es| - 1]) && Possible(Ran(o, es[..|es| - 1]), es[|es| - 1]))
  }

  function Ran(o: Options, es: seq<Event>): View
    requires ValidRun(o, es)
    decreases |es|, 1
  {
    if es == [] then Connected(View(false, 0, None, [], []))
    else Handled(o, Ran(o, es[..|es| - 1]), es[|es| - 1])
  }

  predicate Completed(v: View) {
    Reported(Complete) in v.out
  }

  /** How many sockets have not seen their close event. */
  function Unshut(wires: seq<Wire>): nat {
    if wires == [] then 0 else Unshut(wires[..|wires| - 1]) + if wires[|wires| - 1].Shut? then 0 else 1
  }

  lemma {:induction false} UnshutUpdate(wires: seq<Wire>, i: nat, w: Wire)
    requires i < |wires|
    ensures Unshut(wires[i := w])
            == Unshut(wires) - (if wires[i].Shut? then 0 else 1) + (if w.Shut? then 0 else 1)
  {
    var n := |wires| - 1;
    if i < n {
      assert wires[i := w][..n] == wires[..n][i := w];
      UnshutUpdate(wires[..n], i, w);
    } else {
      assert wires[i := w][..n] == wires[..n];
    }
  }

  lemma UnshutAppend(wires: seq<Wire>, w: Wire)
    ensures Unshut(wires + [w]) == Unshut(wires) + if w.Shut? then 0 else 1
  {
    assert (wires + [w])[..|wires|] == wires;
  }

  lemma {:induction false} UnshutPositive(wires: seq<Wire>, i: nat)
    requires i < |wires| && !wires[i].Shut?
    ensures Unshut(wires) > 0
  {
    if i < |wires| - 1 { UnshutPositive(wires[..|wires| - 1], i); }
  }

  /** Neither torn down nor complete: exactly one of an unclosed socket and a pending reconnect timer.
      Complete: neither. Torn down: no timer. */
  predicate Lifeline(v: View) {
    if v.closed then v.timer.None?
    else if Completed(v) then Unshut(v.wires) == 0 && v.timer.None?
    else (Unshut(v.wires) == 1) != v.timer.Some? && Unshut(v.wires) <= 1
  }

  lemma LifelineKept(o: Options, v: View, e: Event)
    requires Lifeline(v) && Possible(v, e)
    ensures Lifeline(Handled(o, v, e))
  {
    match e
    case Opens(i) => UnshutUpdate(v.wires, i, Open); UnshutPositive(v.wires, i);
    case Closes(i, _) => UnshutUpdate(v.wires, i, Shut); UnshutPositive(v.wires, i);
    case Receives(i, _) =>
    case TimerFires => UnshutAppend(v.wires, Connecting);
    case Teardown =>
  }

  /** Every run keeps its one lifeline. */
  lemma {:induction false} OneLifeline(o: Options, es: seq<Event>)
    requires ValidRun(o, es)
    ensures Lifeline(Ran(o, es))
  {
    if es == [] {
      UnshutAppend([], Connecting);
    } else {
      OneLifeline(o, es[..|es| - 1]);
      LifelineKept(o, Ran(o, es[..|es| - 1]), es[|es| - 1]);
    }
  }

  /** Outputs that open a socket, arm a timer or report a status; updates are not among them. */
  predicate Telling(x: Output) {
    x.Opened? || x.Reported? || x.Armed?
  }

  function Tellings(out: seq<Output>): seq<Output> {
    if out == [] then []
    else Tellings(out[..|out| - 1]) + if Telling(out[|out| - 1]) then [out[|out| - 1]] else []
  }

  lemma QuietAppend(out: seq<Output>, x: Output)
    requires !Telling(x)
    ensures Tellings(out + [x]) == Tellings(out)
  {
    assert (out + [x])[..|out|] == out;
  }

  /** `w` comes after `v`, and in between nothing opened a socket, armed a timer or reported a status. */
  ghost predicate SilentSince(v: View, w: View) {
    && Tellings(w.out) == Tellings(v.out) && |w.wires| == |v.wires|
    && (v.closed ==> w.closed) && (Completed(v) ==> Completed(w))
  }

  lemma SilentStep(o: Options, v: View, e: Event)
    requires Lifeline(v) && Possible(v, e) && (v.closed || Completed(v))
    ensures SilentSince(v, Handled(o, v, e))
  {
    match e
    case Opens(i) => if !v.closed { UnshutPositive(v.wires, i); }
    case Closes(i, _) => if !v.closed { UnshutPositive(v.wires, i); }
    case Receives(i, wellFormed) => if wellFormed { QuietAppend(v.out, Updated); }
    case TimerFires =>
    case Teardown => if v.wires != [] { QuietAppend(v.out, CloseRequested); }
  }

  /** Once torn down, or once the server closed normally, nothing that follows opens a socket, arms a
      timer or reports a status. */
  lemma {:induction false} SilentAfterEnd(o: Options, es: seq<Event>, more: seq<Event>)
    requires ValidRun(o, es + more)
    requires ValidRun(o, es) && (Ran(o, es).closed || Completed(Ran(o, es)))
    ensures SilentSince(Ran(o, es), Ran(o, es + more))
  {
    if more == [] {
      assert es + more == es;
    } else {
      var before := es + more[..|more| - 1];
      assert (es + more)[..|es + more| - 1] == before;
      SilentAfterEnd(o, es, more[..|more| - 1]);
      OneLifeline(o, before);
      SilentStep(o, Ran(o, before), more[|more| - 1]);
    }
  }

  /** Consecutive closes since the last open. */
  function Streak(es: seq<Event>): nat {
    if es == [] || es[|es| - 1].Opens? then 0
    else Streak(es[..|es| - 1]) + if es[|es| - 1].Closes? && es[|es| - 1].code != NORMAL_CLOSURE then 1 else 0
  }

  lemma {:induction false} AttemptIsStreak(o: Options, es: seq<Event>)
    requires ValidRun(o, es) && !Ran(o, es).closed
    ensures Ran(o, es).attempt == Streak(es)
  {
    if es != [] {
      AttemptIsStreak(o, es[..|es| - 1]);
    }
  }

  /** The k-th consecutive close since the last open reports 'disconnected' exactly beyond the
      threshold and waits min(initial * 2^(k-1), max); a normal closure reports completion and arms
      nothing. */
  lemma CloseIsReported(o: Options, es: seq<Event>, socket: nat, code: int)
    requires ValidRun(o, es) && Possible(Ran(o, es), Closes(socket, code)) && !Ran(o, es).closed
    ensures var v := Ran(o, es);
            var w := Handled(o, v, Closes(socket, code));
            var k := Streak(es + [Closes(socket, code)]);
            if code == NORMAL_CLOSURE then w.out == v.out + [Reported(Complete)] && w.timer == v.timer
            else
              && w.timer == Some(Backoff(o, k))
              && w.out == v.out + [Reported(if k > o.degradedAfter then Disconnected else Reconnecting),
                                   Armed(Backoff(o, k))]
  {
    AttemptIsStreak(o, es);
    assert (es + [Closes(socket, code)])[..|es|] == es;
  }

  lemma Twice(a: nat, p: nat)
    ensures a * (2 * p) == 2 * (a * p)
  {}

  /** Each wait is twice the one before, up to the cap. */
  lemma BackoffStep(o: Options, k: nat)
    requires k > 0
    ensures Backoff(o, k) <= Backoff(o, k + 1) == Min(2 * Backoff(o, k), o.maxDelay)
  {
    Twice(o.initialDelay, Pow2(k - 1));
  }

  /** Backoff never shrinks with the streak, never exceeds the cap, and starts at the initial delay. */
  lemma {:induction false} BackoffGrows(o: Options, j: nat, k: nat)
    requires 0 < j <= k
    ensures Backoff(o, j) <= Backoff(o, k) <= o.maxDelay && Backoff(o, 1) == Min(o.initialDelay, o.maxDelay)
    decreases k - j
  {
    assert o.initialDelay * Pow2(0) == o.initialDelay;
    if j < k {
      BackoffStep(o, j);
      BackoffGrows(o, j + 1, k);
    }
  }

  // ---- what the badge shows -----------------------------------------------------------------

  /** The status last reported. */
  function LastStatus(out: seq<Output>): Option<Status> {
    if out == [] then None
    else if out[|out| - 1].Reported? then Some(out[|out| - 1].status)
    else LastStatus(out[..|out| - 1])
  }

  predicate AnyOpen(wires: seq<Wire>) {
    exists i :: 0 <= i < |wires| && wires[i].Open?
  }

  /** Complete once the server closed normally; live while a socket is open; nothing before the first
      open or close; otherwise reconnecting, or disconnected beyond the threshold. */
  function StatusOf(o: Options, v: View): Option<Status> {
    if Completed(v) then Some(Complete)
    else if AnyOpen(v.wires) then Some(Live)
    else if v.attempt == 0 then None
    else Some(if v.attempt > o.degradedAfter then Disconnected else Reconnecting)
  }

  lemma LastStatusOne(out: seq<Output>, x: Output)
    ensures LastStatus(out + [x]) == if x.Reported? then Some(x.status) else LastStatus(out)
  {
    assert (out + [x])[..|out|] == out;
  }

  lemma OthersAreShut(wires: seq<Wire>, i: nat, j: nat)
    requires i < |wires| && j < |wires| && i != j && !wires[i].Shut? && Unshut(wires) <= 1
    ensures wires[j].Shut?
  {
    UnshutUpdate(wires, i, Shut);
    if !wires[j].Shut? { UnshutPositive(wires[i := Shut], j); }
  }

  lemma CloseShowsStatus(o: Options, v: View, i: nat, code: int)
    requires Lifeline(v) && Possible(v, Closes(i, code)) && !v.closed
    ensures var w := Handled(o, v, Closes(i, code)); LastStatus(w.out) == StatusOf(o, w)
  {
    UnshutPositive(v.wires, i);
    forall j | 0 <= j < |v.wires| && j != i ensures v.wires[j].Shut? { OthersAreShut(v.wires, i, j); }
    assert !AnyOpen(v.wires[i := Shut]);
    if code == NORMAL_CLOSURE {
      LastStatusOne(v.out, Reported(Complete));
    } else {
      var k := v.attempt + 1;
      var status := if k > o.degradedAfter then Disconnected else Reconnecting;
      LastStatusOne(v.out, Reported(status));
      LastStatusOne(v.out + [Reported(status)], Armed(Backoff(o, k)));
      assert v.out + [Reported(status), Armed(Backoff(o, k))] == (v.out + [Reported(status)]) + [Armed(Backoff(o, k))];
    }
  }

  lemma OpenShowsStatus(o: Options, v: View, i: nat)
    requires Lifeline(v) && Possible(v, Opens(i)) && !v.closed
    ensures var w := Handled(o, v, Opens(i)); LastStatus(w.out) == StatusOf(o, w)
  {
    UnshutPositive(v.wires, i);
    LastStatusOne(v.out, Reported(Live));
    assert v.wires[i := Open][i].Open?;
  }

  lemma OthersShowStatus(o: Options, v: View, e: Event)
    requires Lifeline(v) && Possible(v, e) && !v.closed && !e.Opens? && !e.Closes? && !e.Teardown?
    requires LastStatus(v.out) == StatusOf(o, v)
    ensures var w := Handled(o, v, e); LastStatus(w.out) == StatusOf(o, w)
  {
    if e.TimerFires? {
      LastStatusOne(v.out, Opened);
      assert forall i :: 0 <= i < |v.wires| ==> (v.wires + [Connecting])[i] == v.wires[i];
    } else {
      LastStatusOne(v.out, Updated);
    }
  }

  lemma HandledKeeps(o: Options, v: View, e: Event)
    requires Possible(v, e)
    ensures Handled(o, v, e).closed == (v.closed || e.Teardown?)
    ensures v.wires != [] ==> Handled(o, v, e).wires != []
  {}

  /** Until teardown the last status reported is always the true one. */
  lemma {:induction false} BadgeIsTrue(o: Options, es: seq<Event>)
    requires ValidRun(o, es) && !Ran(o, es).closed
    ensures LastStatus(Ran(o, es).out) == StatusOf(o, Ran(o, es))
  {
    if es == [] {
      LastStatusOne([], Opened);
      assert [] + [Opened] == [Opened];
    } else {
      var before, e := es[..|es| - 1], es[|es| - 1];
      var v := Ran(o, before);
      OneLifeline(o, before);
      HandledKeeps(o, v, e);
      BadgeIsTrue(o, before);
      match e
      case Opens(i) => OpenShowsStatus(o, v, i);
      case Closes(i, code) => CloseShowsStatus(o, v, i, code);
      case Receives(_, _) => OthersShowStatus(o, v, e);
      case TimerFires => OthersShowStatus(o, v, e);
      case Teardown =>
    }
  }

  predicate TornDown(es: seq<Event>) {
    Teardown in es
  }

  /** The opens that arrive before any teardown, and the teardowns. */
  function OpensHeard(es: seq<Event>): nat {
    if es == [] then 0
    else
      var init, last := es[..|es| - 1], es[|es| - 1];
      OpensHeard(init) + if last.Opens? && !TornDown(init) then 1 else 0
  }

  function Teardowns(es: seq<Event>): nat {
    if es == [] then 0 else Teardowns(es[..|es| - 1]) + if es[|es| - 1].Teardown? then 1 else 0
  }

  function Times(out: seq<Output>, x: Output): nat {
    if out == [] then 0 else Times(out[..|out| - 1], x) + if out[|out| - 1] == x then 1 else 0
  }

  lemma TimesOne(out: seq<Output>, y: Output, x: Output)
    ensures Times(out + [y], x) == Times(out, x) + if y == x then 1 else 0
  {
    assert (out + [y])[..|out|] == out;
  }

  lemma TimesTwo(out: seq<Output>, y: Output, z: Output, x: Output)
    ensures Times(out + [y, z], x) == Times(out, x) + (if y == x then 1 else 0) + if z == x then 1 else 0
  {
    TimesOne(out, y, x);
    TimesOne(out + [y], z, x);
    assert out + [y, z] == (out + [y]) + [z];
  }

  /** What one event adds to the live reports and to the close requests. */
  lemma HandledReports(o: Options, v: View, e: Event)
    requires Possible(v, e)
    ensures var w := Handled(o, v, e);
            && Times(w.out, Reported(Live)) == Times(v.out, Reported(Live)) + (if e.Opens? && !v.closed then 1 else 0)
            && Times(w.out, CloseRequested)
               == Times(v.out, CloseRequested) + if e.Teardown? && v.wires != [] then 1 else 0
  {
    var w := Handled(o, v, e);
    if w.out != v.out {
      if e.Closes? && e.code != NORMAL_CLOSURE {
        var k := v.attempt + 1;
        var report := Reported(if k > o.degradedAfter then Disconnected else Reconnecting);
        TimesTwo(v.out, report, Armed(Backoff(o, k)), Reported(Live));
        TimesTwo(v.out, report, Armed(Backoff(o, k)), CloseRequested);
      } else {
        assert w.out == v.out + [w.out[|v.out|]];
        TimesOne(v.out, w.out[|v.out|], Reported(Live));
        TimesOne(v.out, w.out[|v.out|], CloseRequested);
      }
    }
  }

  lemma TornDownMore(es: seq<Event>)
    requires es != []
    ensures TornDown(es) == (TornDown(es[..|es| - 1]) || es[|es| - 1].Teardown?)
  {
    assert es == es[..|es| - 1] + [es[|es| - 1]];
  }

  /** Every open before teardown is reported live, once; every teardown asks the socket to close. */
  lemma {:induction false} OpensAreReported(o: Options, es: seq<Event>)
    requires ValidRun(o, es)
    ensures var v := Ran(o, es);
            && Times(v.out, Reported(Live)) == OpensHeard(es) && Times(v.out, CloseRequested) == Teardowns(es)
            && (v.closed <==> TornDown(es)) && v.wires != []
  {
    if es == [] {
      TimesOne([], Opened, Reported(Live));
      TimesOne([], Opened, CloseRequested);
      assert [] + [Opened] == [Opened];
    } else {
      var before, e := es[..|es| - 1], es[|es| - 1];
      OpensAreReported(o, before);
      TornDownMore(es);
      HandledKeeps(o, Ran(o, before), e);
      HandledReports(o, Ran(o, before), e);
    }
  }

  // ---- updates ------------------------------------------------------------------------------

  function Updates(out: seq<Output>): nat {
    if out == [] then 0 else Updates(out[..|out| - 1]) + if out[|out| - 1].Updated? then 1 else 0
  }

  /** The well-formed messages among `es`. */
  function Messages(es: seq<Event>): nat {
    if es == [] then 0
    else Messages(es[..|es| - 1]) + if es[|es| - 1].Receives? && es[|es| - 1].wellFormed then 1 else 0
  }

  lemma UpdatesOne(out: seq<Output>, x: Output)
    ensures Updates(out + [x]) == Updates(out) + if x.Updated? then 1 else 0
  {
    assert (out + [x])[..|out|] == out;
  }

  lemma UpdatesTwo(out: seq<Output>, x: Output, y: Output)
    requires !x.Updated? && !y.Updated?
    ensures Updates(out + [x, y]) == Updates(out)
  {
    UpdatesOne(out, x);
    UpdatesOne(out + [x], y);
    assert out + [x, y] == (out + [x]) + [y];
  }

  lemma HandledUpdates(o: Options, v: View, e: Event)
    requires Possible(v, e)
    ensures Updates(Handled(o, v, e).out) == Updates(v.out) + if e.Receives? && e.wellFormed then 1 else 0
  {
    match e
    case Opens(i) => UpdatesOne(v.out, Reported(Live));
    case Closes(i, code) =>
      if code == NORMAL_CLOSURE {
        UpdatesOne(v.out, Reported(Complete));
      } else {
        var k := v.attempt + 1;
        UpdatesTwo(v.out, Reported(if k > o.degradedAfter then Disconnected else Reconnecting), Armed(Backoff(o, k)));
      }
    case Receives(_, _) => UpdatesOne(v.out, Updated);
    case TimerFires => UpdatesOne(v.out, Opened);
    case Teardown => UpdatesOne(v.out, CloseRequested);
  }

  /** In every run, torn down or not, the updates passed on are exactly the well-formed messages. */
  lemma {:induction false} UpdatesAreMessages(o: Options, es: seq<Event>)
    requires ValidRun(o, es)
    ensures Updates(Ran(o, es).out) == Messages(es)
  {
    if es != [] {
      UpdatesAreMessages(o, es[..|es| - 1]);
      HandledUpdates(o, Ran(o, es[..|es| - 1]), es[|es| - 1]);
    }
  }

  lemma {:induction false} MessagesJoin(es: seq<Event>, more: seq<Event>)
    ensures Messages(es + more) == Messages(es) + Messages(more)
  {
    if more == [] {
      assert es + more == es;
    } else {
      assert (es + more)[..|es + more| - 1] == es + more[..|more| - 1];
      MessagesJoin(es, more[..|more| - 1]);
    }
  }

  ghost predicate AllShut(v: View) {
    forall i :: 0 <= i < |v.wires| ==> v.wires[i].Shut?
  }

  lemma {:induction false} ShutStaysShut(o: Options, es: seq<Event>, more: seq<Event>)
    requires ValidRun(o, es + more) && ValidRun(o, es) && Ran(o, es).closed && AllShut(Ran(o, es))
    ensures Ran(o, es + more).closed && AllShut(Ran(o, es + more)) && Messages(more) == 0
  {
    if more == [] {
      assert es + more == es;
    } else {
      assert (es + more)[..|es + more| - 1] == es + more[..|more| - 1];
      ShutStaysShut(o, es, more[..|more| - 1]);
    }
  }

  /** An update of the continuation `more`. */
  ghost predicate UpdatedDuring(o: Options, es: seq<Event>, more: seq<Event>) {
    ValidRun(o, es) && ValidRun(o, es + more) && Updates(Ran(o, es + more).out) > Updates(Ran(o, es).out)
  }

  /** Teardown ends the updates for good exactly when every socket has seen its close event by then. */
  lemma QuietExactly(o: Options, es: seq<Event>)
    requires ValidRun(o, es) && Ran(o, es).closed
    ensures (forall more: seq<Event> :: !UpdatedDuring(o, es, more)) <==> AllShut(Ran(o, es))
  {
    if AllShut(Ran(o, es)) {
      forall more: seq<Event> ensures !UpdatedDuring(o, es, more) {
        if ValidRun(o, es + more) {
          ShutStaysShut(o, es, more);
          ContinuationUpdates(o, es, more);
        }
      }
    } else {
      var i :| 0 <= i < |Ran(o, es).wires| && !Ran(o, es).wires[i].Shut?;
      var more := MessageFollows(o, es, i);
    }
  }

  /** The updates of a continuation are its well-formed messages. */
  lemma ContinuationUpdates(o: Options, es: seq<Event>, more: seq<Event>)
    requires ValidRun(o, es) && ValidRun(o, es + more)
    ensures Updates(Ran(o, es + more).out) == Updates(Ran(o, es).out) + Messages(more)
  {
    UpdatesAreMessages(o, es);
    UpdatesAreMessages(o, es + more);
    MessagesJoin(es, more);
  }

  lemma RunMore(o: Options, es: seq<Event>, e: Event)
    requires ValidRun(o, es) && Possible(Ran(o, es), e)
    ensures ValidRun(o, es + [e]) && Ran(o, es + [e]) == Handled(o, Ran(o, es), e)
  {
    assert (es + [e])[..|es|] == es;
  }

  /** A socket still open, or still connecting, can deliver a message. */
  lemma MessageFollows(o: Options, es: seq<Event>, i: nat) returns (more: seq<Event>)
    requires ValidRun(o, es) && i < |Ran(o, es).wires| && !Ran(o, es).wires[i].Shut?
    ensures UpdatedDuring(o, es, more)
  {
    var open := if Ran(o, es).wires[i].Connecting? then [Opens(i)] else [];
    if open == [] {
      assert es + open == es;
    } else {
      RunMore(o, es, Opens(i));
    }
    RunMore(o, es + open, Receives(i, true));
    more := open + [Receives(i, true)];
    assert es + more == (es + open) + [Receives(i, true)];
    ContinuationUpdates(o, es, more);
    assert more[..|more| - 1] == open;
  }

  /** Teardown with the socket open: the update that follows is passed on. */
  lemma UpdateAfterTeardown(o: Options)
    ensures ValidRun(o, [Opens(0)] + [Teardown]) && Ran(o, [Opens(0)] + [Teardown]).closed
    ensures UpdatedDuring(o, [Opens(0)] + [Teardown], [Receives(0, true)])
  {
    RunMore(o, [], Opens(0));
    assert [] + [Opens(0)] == [Opens(0)];
    RunMore(o, [Opens(0)], Teardown);
    var es := [Opens(0)] + [Teardown];
    RunMore(o, es, Receives(0, true));
    ContinuationUpdates(o, es, [Receives(0, true)]);
    assert [Receives(0, true)][..0] == [];
  }
}
