/** The per-partition commit tracker of internal/platform/kafkax/keyed.go: which offset is safe to
    commit when records finish out of order. */
module CommitTracking {
  import opened Prelude

  /** A record is named by its place in the log; its key and value are fixed by that place. */
  datatype Record = Record(partition: int, offset: int)

  /** What one partition remembers: the lowest offset not yet folded into a commit, and the finished
      records parked above it. */
  datatype Progress = Progress(next: int, parked: map<int, Record>)
  {
    /** Parked records sit under their own offset, strictly above the gap at `next`. */
    ghost predicate Sound(p: int) {
      forall o <- parked :: next < o && parked[o] == Record(p, o)
    }
  }

  /** The tracker's two maps as one value. */
  type Tracker = map<int, Progress>

  ghost predicate WellFormed(t: Tracker) {
    forall p <- t :: t[p].Sound(p)
  }

  /** The least integer from `n` upward that is missing from `done`. */
  function FirstGap(done: set<int>, n: int): (g: int)
    ensures n <= g && g !in done
    ensures forall o :: n <= o < g ==> o in done
  {
    if n in done then
      var g := FirstGap(done - {n}, n + 1);
      assert forall o :: n + 1 <= o < g ==> o in done - {n};
      g
    else n
  }

  /** Finishing a record parks it, moves `next` to the first gap and drops what that passed. */
  function Settled(q: Progress, r: Record): Progress {
    if r.offset < q.next then q
    else
      var parked := q.parked[r.offset := r];
      var next := FirstGap(parked.Keys, q.next);
      Progress(next, map o | o in parked && !(q.next <= o < next) :: parked[o])
  }

  /** Registering a record fixes its partition's starting offset, the first time only. */
  function Observed(t: Tracker, r: Record): Tracker {
    if r.partition in t then t else t[r.partition := Progress(r.offset, map[])]
  }

  function Completed(t: Tracker, r: Record): Tracker
    requires r.partition in t
  {
    t[r.partition := Settled(t[r.partition], r)]
  }

  /** What finishing `r` makes safe to commit: the record just below the new gap, if the gap moved. */
  function Advanced(t: Tracker, r: Record): Option<Record>
    requires r.partition in t
  {
    var next := Settled(t[r.partition], r).next;
    if next == t[r.partition].next then None else Some(Record(r.partition, next - 1))
  }

  lemma SettledSound(q: Progress, r: Record)
    requires q.Sound(r.partition)
    ensures Settled(q, r).Sound(r.partition)
  {}

  /** Commits that never move a partition backwards nor repeat an offset. */
  ghost predicate Increasing(issued: seq<Record>) {
    forall i, j :: 0 <= i < j < |issued| && issued[i].partition == issued[j].partition
                   ==> issued[i].offset < issued[j].offset
  }

  // ---- any order, any duplicates ------------------------------------------------------------

  /** Every record of `rs` belongs to a partition the tracker has observed. */
  predicate Known(t: Tracker, rs: seq<Record>) {
    forall i :: 0 <= i < |rs| ==> rs[i].partition in t
  }

  /** The tracker after the first `n` records of `rs` were completed, in that order. */
  function CompleteFirst(t: Tracker, rs: seq<Record>, n: nat): (u: Tracker)
    requires Known(t, rs) && n <= |rs|
    ensures u.Keys == t.Keys
  {
    if n == 0 then t else Completed(CompleteFirst(t, rs, n - 1), rs[n - 1])
  }

  /** The offsets of partition `p`, from `start` upward, among the first `n` records of `rs`. */
  function OffsetsOf(rs: seq<Record>, n: nat, p: int, start: int): set<int>
    requires n <= |rs|
  {
    set i | 0 <= i < n && rs[i].partition == p && start <= rs[i].offset :: rs[i].offset
  }

  lemma GapUnique(done: set<int>, n: int, g: int)
    requires n <= g && g !in done && forall o :: n <= o < g ==> o in done
    ensures FirstGap(done, n) == g
  {
    var f := FirstGap(done, n);
    assert f < g ==> f in done;
    assert g < f ==> g in done;
  }

  /** `next` is the first gap of the finished offsets `done`, and what is parked is what finished above. */
  ghost predicate Tracks(q: Progress, p: int, done: set<int>, start: int) {
    && q.Sound(p)
    && q.next == FirstGap(done, start)
    && q.parked.Keys == set o <- done | q.next < o
  }

  lemma OffsetsOneMore(rs: seq<Record>, n: nat, p: int, start: int)
    requires n < |rs|
    ensures OffsetsOf(rs, n + 1, p, start)
            == OffsetsOf(rs, n, p, start)
               + if rs[n].partition == p && start <= rs[n].offset then {rs[n].offset} else {}
  {}

  lemma TracksOneMore(q: Progress, r: Record, done: set<int>, start: int)
    requires Tracks(q, r.partition, done, start)
    ensures Tracks(Settled(q, r), r.partition, done + if start <= r.offset then {r.offset} else {}, start)
  {
    if q.next <= r.offset {
      SettledIsFirstGap(q, r, done, start);
    } else if start <= r.offset {
      assert r.offset in done && done + {r.offset} == done;
    } else {
      assert done + {} == done;
    }
  }

  /** `next` and the parked offsets are functions of the set of finished offsets alone: `next` is the
      least offset from the start not finished, and what is parked is what finished above it. */
  lemma {:induction false} TrackerIsFirstGap(t: Tracker, rs: seq<Record>, n: nat, p: int)
    requires Known(t, rs) && n <= |rs| && p in t && t[p].parked == map[]
    ensures Tracks(CompleteFirst(t, rs, n)[p], p, OffsetsOf(rs, n, p, t[p].next), t[p].next)
  {
    if n > 0 {
      var before, done := CompleteFirst(t, rs, n - 1), OffsetsOf(rs, n - 1, p, t[p].next);
      TrackerIsFirstGap(t, rs, n - 1, p);
      OffsetsOneMore(rs, n - 1, p, t[p].next);
      if rs[n - 1].partition == p {
        TracksOneMore(before[p], rs[n - 1], done, t[p].next);
      } else {
        assert done + {} == done;
      }
    }
  }

  lemma SettledIsFirstGap(q: Progress, r: Record, done: set<int>, start: int)
    requires q.Sound(r.partition) && q.next == FirstGap(done, start) && q.next <= r.offset
    requires q.parked.Keys == set o <- done | q.next < o
    ensures var q' := Settled(q, r);
            && q'.Sound(r.partition)
            && q'.next == FirstGap(done + {r.offset}, start)
            && q'.parked.Keys == set o <- done + {r.offset} | q'.next < o
  {
    SettledSound(q, r);
    var parked := q.parked[r.offset := r];
    var g := FirstGap(parked.Keys, q.next);
    forall o | start <= o < g ensures o in done + {r.offset} {
      assert o < q.next ==> o in done;
      assert q.next <= o ==> o in parked.Keys;
    }
    GapUnique(done + {r.offset}, start, g);
  }

  lemma SoundByOffsets(q: Progress, q': Progress, p: int)
    requires q.Sound(p) && q'.Sound(p) && q.next == q'.next && q.parked.Keys == q'.parked.Keys
    ensures q == q'
  {
    forall o <- q.parked ensures q.parked[o] == q'.parked[o] {
      assert q.parked[o] == Record(p, o);
    }
  }

  /** Two histories that finished the same offsets leave the same tracker, whatever the order and
      however often an offset was repeated. */
  lemma OrderDoesNotMatter(t: Tracker, rs: seq<Record>, ss: seq<Record>)
    requires forall p <- t :: t[p].parked == map[]
    requires Known(t, rs) && Known(t, ss)
    requires forall r :: r in rs <==> r in ss
    ensures CompleteFirst(t, rs, |rs|) == CompleteFirst(t, ss, |ss|)
  {
    var u, v := CompleteFirst(t, rs, |rs|), CompleteFirst(t, ss, |ss|);
    forall p <- t ensures u[p] == v[p] {
      SameOffsets(rs, ss, p, t[p].next);
      TrackerIsFirstGap(t, rs, |rs|, p);
      TrackerIsFirstGap(t, ss, |ss|, p);
      SoundByOffsets(u[p], v[p], p);
    }
  }

  lemma SameOffsets(rs: seq<Record>, ss: seq<Record>, p: int, start: int)
    requires forall r :: r in rs <==> r in ss
    ensures OffsetsOf(rs, |rs|, p, start) == OffsetsOf(ss, |ss|, p, start)
  {
    forall o ensures o in OffsetsOf(rs, |rs|, p, start) <==> o in OffsetsOf(ss, |ss|, p, start) {
      assert o in OffsetsOf(rs, |rs|, p, start) <==> start <= o && Record(p, o) in rs;
      assert o in OffsetsOf(ss, |ss|, p, start) <==> start <= o && Record(p, o) in ss;
    }
  }

  // ---- the source's object ------------------------------------------------------------------

  class CommitTracker {
    var next: map<int, int>
    var completed: map<int, map<int, Record>>
    /** Both maps as one value. */
    ghost var value: Tracker

    ghost predicate Valid()
      reads this
    {
      && value.Keys == next.Keys == completed.Keys
      && (forall p <- value :: value[p] == Progress(next[p], completed[p]))
      && WellFormed(value)
    }

    constructor ()
      ensures Valid() && value == map[]
    {
      next, completed, value := map[], map[], map[];
    }

    method Observe(r: Record)
      requires Valid()
      modifies this
      ensures Valid() && value == Observed(old(value), r)
    {
      if r.partition !in next {
        next := next[r.partition := r.offset];
        completed := completed[r.partition := map[]];
      }
      value := Observed(value, r);
    }

    /** A record of a partition never observed would write to a nil map, so the source requires
        observe first. */
    method Complete(r: Record) returns (advanced: Option<Record>)
      requires Valid() && r.partition in value
      modifies this
      ensures Valid() && value == Completed(old(value), r)
      ensures advanced == Advanced(old(value), r)
    {
      var p := r.partition;
      var n := next[p];
      if r.offset < n {
        return None;
      }
      var held;
      held, n, advanced := Drain(p, completed[p][r.offset := r], n);
      SettledSound(value[p], r);
      value := Completed(value, r);
      completed := completed[p := held];
      next := next[p := n];
    }

    /** The loop of complete: walks the contiguous run that starts at `first`, deleting as it goes. */
    static method Drain(p: int, parked: map<int, Record>, first: int)
      returns (held: map<int, Record>, n: int, advanced: Option<Record>)
      requires forall o <- parked :: parked[o] == Record(p, o)
      ensures n == FirstGap(parked.Keys, first)
      ensures held == map o | o in parked && !(first <= o < n) :: parked[o]
      ensures advanced == if n == first then None else Some(Record(p, n - 1))
    {
      held, n, advanced := parked, first, None;
      while n in held
        invariant first <= n && forall o :: first <= o < n ==> o in parked
        invariant forall o :: o in held <==> o in parked && !(first <= o < n)
        invariant forall o <- held :: held[o] == parked[o]
        invariant advanced == if n == first then None else Some(Record(p, n - 1))
        decreases |held|
      {
        advanced := Some(held[n]);
        held := held - {n};
        n := n + 1;
      }
      GapUnique(parked.Keys, first, n);
    }
  }
}
