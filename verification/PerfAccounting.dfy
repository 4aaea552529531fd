/** Byte accounting of the throughput test: per-stream statistics, and combining streams. */
module PerfAccounting {
  import opened Common

  const MAX_SLOTS: nat := 6001

  datatype Interval = Interval(bytes: nat, datagrams: nat)

  datatype Stats = Stats(
    bytes: nat, duration: nat, datagrams: nat, reordered: nat, jitter: nat, intervals: seq<Interval>)

  const NO_STATS := Stats(0, 0, 0, 0, 0, [])

  function At(intervals: seq<Interval>, k: nat): Interval {
    if k < |intervals| then intervals[k] else Interval(0, 0)
  }

  /** `Vec::resize_with`: grows with zeros, or cuts. */
  function Resize(intervals: seq<Interval>, n: nat): (r: seq<Interval>)
    ensures |r| == n && forall k :: 0 <= k < n ==> r[k] == At(intervals, k)
  {
    seq(n, k requires 0 <= k => At(intervals, k))
  }

  function Add(a: Interval, b: Interval): Interval {
    Interval(a.bytes + b.bytes, a.datagrams + b.datagrams)
  }

  /** One transfer of n bytes at a time since the start. */
  datatype Transfer = Transfer(n: nat, elapsed: nat)

  function One(udp: bool): nat {
    if udp then 1 else 0
  }

  function Counted(s: Stats, t: Transfer, udp: bool, interval: nat): Stats {
    var s' := s.(bytes := s.bytes + t.n, datagrams := s.datagrams + One(udp));
    if interval == 0 || t.elapsed / interval >= MAX_SLOTS then s'
    else
      var slot := t.elapsed / interval;
      var grown := Resize(s.intervals, slot + 1);
      s'.(intervals := grown[slot := Add(grown[slot], Interval(t.n, One(udp)))])
  }

  method Count(s: Stats, n: nat, udp: bool, elapsed: nat, interval: nat) returns (r: Stats)
    ensures r == Counted(s, Transfer(n, elapsed), udp, interval)
  {
    r := s.(bytes := s.bytes + n);
    r := r.(datagrams := r.datagrams + One(udp));
    if interval != 0 {
      var slot := elapsed / interval;
      if slot < MAX_SLOTS {
        var intervals := Resize(r.intervals, slot + 1);
        intervals := intervals[slot := intervals[slot].(bytes := intervals[slot].bytes + n)];
        intervals := intervals[slot := intervals[slot].(datagrams := intervals[slot].datagrams + One(udp))];
        r := r.(intervals := intervals);
      }
    }
  }

  function CountedAll(s: Stats, ts: seq<Transfer>, udp: bool, interval: nat): Stats {
    if ts == [] then s
    else Counted(CountedAll(s, ts[..|ts| - 1], udp, interval), ts[|ts| - 1], udp, interval)
  }

  ghost predicate Monotone(ts: seq<Transfer>) {
    forall i, j :: 0 <= i < j < |ts| ==> ts[i].elapsed <= ts[j].elapsed
  }

  function Total(ts: seq<Transfer>): nat {
    if ts == [] then 0 else Total(ts[..|ts| - 1]) + ts[|ts| - 1].n
  }

  /** The bytes, and the number, of the transfers that fall into one slot. */
  function InSlot(ts: seq<Transfer>, udp: bool, interval: nat, slot: nat): Interval
    requires interval > 0
  {
    if ts == [] then Interval(0, 0)
    else
      var last := ts[|ts| - 1];
      var rest := InSlot(ts[..|ts| - 1], udp, interval, slot);
      if last.elapsed / interval == slot then Add(rest, Interval(last.n, One(udp))) else rest
  }

  function SumBytes(intervals: seq<Interval>): nat {
    if intervals == [] then 0 else SumBytes(intervals[..|intervals| - 1]) + intervals[|intervals| - 1].bytes
  }

  lemma {:induction false} DivMonotone(a: nat, b: nat, d: nat)
    requires a <= b && d > 0
    ensures a / d <= b / d
  {
    var x, y := a / d, b / d;
    if y < x {
      MulMonotone(d, y + 1, x);
      assert false;
    }
  }

  lemma {:induction false} MulMonotone(d: nat, x: nat, y: nat)
    requires x <= y
    ensures d * x <= d * y
  {
  }

  /** The transfers of a slot, by position. */
  function Positions(ts: seq<Transfer>, interval: nat, slot: nat): set<nat>
    requires interval > 0
  {
    set i: nat | i < |ts| && ts[i].elapsed / interval == slot
  }

  /** Datagrams are counted one by one over UDP and not at all over TCP, in total and in each slot. */
  lemma {:induction false} DatagramsAreCounted(ts: seq<Transfer>, udp: bool, interval: nat, slot: nat)
    ensures CountedAll(NO_STATS, ts, udp, interval).datagrams == if udp then |ts| else 0
    ensures interval > 0 ==>
      InSlot(ts, udp, interval, slot).datagrams == if udp then |Positions(ts, interval, slot)| else 0
  {
    if ts == [] {
    } else {
      var init := ts[..|ts| - 1];
      DatagramsAreCounted(init, udp, interval, slot);
      if interval > 0 {
        var last: nat := |ts| - 1;
        if ts[last].elapsed / interval == slot {
          assert Positions(ts, interval, slot) == Positions(init, interval, slot) + {last};
        } else {
          assert Positions(ts, interval, slot) == Positions(init, interval, slot);
        }
      }
    }
  }

  /** On a monotone clock every recorded slot holds exactly the transfers that fell into it. */
  lemma {:induction false} IntervalsAreExact(ts: seq<Transfer>, udp: bool, interval: nat, slot: nat)
    requires interval > 0 && Monotone(ts) && slot < MAX_SLOTS
    ensures At(CountedAll(NO_STATS, ts, udp, interval).intervals, slot) == InSlot(ts, udp, interval, slot)
    ensures ts != [] ==>
      |CountedAll(NO_STATS, ts, udp, interval).intervals| <= ts[|ts| - 1].elapsed / interval + 1
    decreases |ts|
  {
    if ts == [] {
    } else {
      var rest, last := ts[..|ts| - 1], ts[|ts| - 1];
      IntervalsAreExact(rest, udp, interval, slot);
      if rest != [] {
        DivMonotone(rest[|rest| - 1].elapsed, last.elapsed, interval);
      }
    }
  }

  lemma {:induction false} SumAfterUpdate(s: seq<Interval>, k: nat, v: Interval)
    requires k < |s|
    ensures SumBytes(s[k := v]) == SumBytes(s) - s[k].bytes + v.bytes
    ensures s[k].bytes <= SumBytes(s)
    decreases |s|
  {
    var n := |s| - 1;
    if k < n {
      SumAfterUpdate(s[..n], k, v);
      assert s[k := v][..n] == s[..n][k := v];
    } else {
      assert s[k := v][..n] == s[..n];
    }
  }

  lemma {:induction false} SumAfterGrow(s: seq<Interval>, n: nat)
    requires |s| <= n
    ensures SumBytes(Resize(s, n)) == SumBytes(s)
    decreases n - |s|
  {
    if |s| == n {
      assert Resize(s, n) == s;
    } else {
      SumAfterGrow(s, n - 1);
      assert Resize(s, n)[..n - 1] == Resize(s, n - 1);
    }
  }

  /** A transfer whose bytes stay in its interval: in range, and no later transfer in an earlier slot cut it off. */
  ghost predicate Kept(ts: seq<Transfer>, interval: nat, i: nat)
    requires interval > 0 && i < |ts|
  {
    && ts[i].elapsed / interval < MAX_SLOTS
    && forall j :: i < j < |ts| ==> ts[i].elapsed / interval <= ts[j].elapsed / interval
  }

  /** The bytes of the transfers in slots below a bound that no later transfer in an earlier slot follows. */
  function KeptBytes(ts: seq<Transfer>, interval: nat, below: nat): nat
    requires interval > 0
  {
    if ts == [] then 0
    else
      var last := ts[|ts| - 1];
      var slot := last.elapsed / interval;
      if slot < below then KeptBytes(ts[..|ts| - 1], interval, slot + 1) + last.n
      else KeptBytes(ts[..|ts| - 1], interval, below)
  }

  /** The bytes of the transfers at or past a slot. */
  function BytesFrom(ts: seq<Transfer>, interval: nat, slot: nat): nat
    requires interval > 0
  {
    if ts == [] then 0
    else
      var last := ts[|ts| - 1];
      BytesFrom(ts[..|ts| - 1], interval, slot) + if last.elapsed / interval >= slot then last.n else 0
  }

  lemma {:induction false} ResizeTwice(s: seq<Interval>, m: nat, n: nat)
    requires m <= n
    ensures Resize(Resize(s, n), m) == Resize(s, m)
  {
  }

  /** What counting one transfer in a slot does to the bytes below a bound. */
  lemma {:induction false} BytesBelow(before: seq<Interval>, slot: nat, n: nat, datagrams: nat, below: nat)
    ensures var grown := Resize(before, slot + 1);
      var after := Resize(grown[slot := Add(grown[slot], Interval(n, datagrams))], below);
      && (slot < below ==> SumBytes(after) == SumBytes(grown) + n)
      && (slot >= below ==> after == Resize(before, below))
  {
    hide SumBytes;
    var grown := Resize(before, slot + 1);
    var after := grown[slot := Add(grown[slot], Interval(n, datagrams))];
    if slot < below {
      SumAfterGrow(after, below);
      SumAfterUpdate(grown, slot, after[slot]);
    } else {
      ResizeTwice(before, below, slot + 1);
    }
  }

  /** Whatever the clock does, the slots below a bound hold the bytes kept there. */
  lemma {:induction false} SlotsHoldKept(ts: seq<Transfer>, udp: bool, interval: nat, below: nat)
    requires interval > 0 && below <= MAX_SLOTS
    ensures var s := CountedAll(NO_STATS, ts, udp, interval);
      && SumBytes(Resize(s.intervals, below)) == KeptBytes(ts, interval, below)
      && s.bytes == Total(ts) && |s.intervals| <= MAX_SLOTS
    decreases |ts|
  {
    hide Resize, SumBytes;
    if ts == [] {
      NoBytes(below);
    } else {
      var rest, last := ts[..|ts| - 1], ts[|ts| - 1];
      var slot := last.elapsed / interval;
      SlotsHoldKept(rest, udp, interval, if slot < below then slot + 1 else below);
      if slot < MAX_SLOTS {
        var before := CountedAll(NO_STATS, rest, udp, interval).intervals;
        BytesBelow(before, slot, last.n, One(udp), below);
      }
    }
  }

  lemma {:induction false} NoBytes(n: nat)
    ensures SumBytes(Resize([], n)) == 0
  {
    SumAfterGrow([], n);
  }

  /** All bytes below a bound are kept exactly when every transfer that has any is. */
  lemma {:induction false} AllKept(ts: seq<Transfer>, interval: nat, below: nat)
    requires interval > 0
    ensures KeptBytes(ts, interval, below) <= Total(ts)
    ensures KeptBytes(ts, interval, below) == Total(ts) <==>
      forall i :: 0 <= i < |ts| && ts[i].n > 0 ==>
        && ts[i].elapsed / interval < below
        && forall j :: i < j < |ts| ==> ts[i].elapsed / interval <= ts[j].elapsed / interval
    decreases |ts|
  {
    if ts == [] {
    } else {
      var m := |ts| - 1;
      var slot := ts[m].elapsed / interval;
      AllKept(ts[..m], interval, if slot < below then slot + 1 else below);
      assert forall i :: 0 <= i < m ==> ts[..m][i] == ts[i];
    }
  }

  /** On a monotone clock nothing is lost but what falls past the last slot. */
  lemma {:induction false} MonotoneKeeps(ts: seq<Transfer>, interval: nat, below: nat)
    requires interval > 0 && Monotone(ts)
    ensures KeptBytes(ts, interval, below) + BytesFrom(ts, interval, below) == Total(ts)
    decreases |ts|
  {
    if ts == [] {
    } else {
      var rest, last := ts[..|ts| - 1], ts[|ts| - 1];
      var slot := last.elapsed / interval;
      MonotoneKeeps(rest, interval, if slot < below then slot + 1 else below);
      if slot < below {
        NothingPast(rest, interval, slot + 1, last.elapsed);
        NothingPast(rest, interval, below, last.elapsed);
      }
    }
  }

  lemma {:induction false} NothingPast(ts: seq<Transfer>, interval: nat, slot: nat, latest: nat)
    requires interval > 0 && latest / interval < slot && forall t :: t in ts ==> t.elapsed <= latest
    ensures BytesFrom(ts, interval, slot) == 0
    decreases |ts|
  {
    if ts == [] {
    } else {
      NothingPast(ts[..|ts| - 1], interval, slot, latest);
      DivMonotone(ts[|ts| - 1].elapsed, latest, interval);
    }
  }

  /**
   Where every byte of a stream ends up, for any transfers and any clock: the intervals hold the bytes kept, and
   they add up to the total if and only if every transfer that has bytes is kept; on a clock that never goes back
   only transfers in slot 6001 or later are missing from them.
   */
  lemma {:induction false} IntervalsSumToTotal(ts: seq<Transfer>, udp: bool, interval: nat)
    requires interval > 0
    ensures var s := CountedAll(NO_STATS, ts, udp, interval);
      && s.bytes == Total(ts)
      && SumBytes(s.intervals) == KeptBytes(ts, interval, MAX_SLOTS) <= s.bytes
      && (SumBytes(s.intervals) == s.bytes <==>
            forall i :: 0 <= i < |ts| && ts[i].n > 0 ==> Kept(ts, interval, i))
      && (Monotone(ts) ==> SumBytes(s.intervals) + BytesFrom(ts, interval, MAX_SLOTS) == s.bytes)
  {
    hide CountedAll, KeptBytes, BytesFrom, Total, SumBytes, Resize;
    SlotsHoldKept(ts, udp, interval, MAX_SLOTS);
    SumAfterGrow(CountedAll(NO_STATS, ts, udp, interval).intervals, MAX_SLOTS);
    AllKept(ts, interval, MAX_SLOTS);
    if Monotone(ts) {
      MonotoneKeeps(ts, interval, MAX_SLOTS);
    }
  }

  lemma {:induction false} CountedAppend(s: Stats, ts: seq<Transfer>, t: Transfer, udp: bool, interval: nat)
    ensures CountedAll(s, ts + [t], udp, interval) == Counted(CountedAll(s, ts, udp, interval), t, udp, interval)
    ensures Total(ts + [t]) == Total(ts) + t.n
  {
    hide Counted;
    assert (ts + [t])[..|ts|] == ts;
  }

  /**
   A transfer dated an interval before the one it follows cuts that one's bytes off. The program reads a clock that
   never goes back, so this says why it must; `LateTransfersHaveNone` is the loss it can meet.
   */
  lemma {:induction false} SteppingBackLoses(first: nat, second: nat, udp: bool, interval: nat)
    requires interval > 0
    ensures var s := CountedAll(NO_STATS, [Transfer(first, interval), Transfer(second, 0)], udp, interval);
      s.bytes == first + second && s.intervals == [Interval(second, One(udp))]
  {
    var a, b := Transfer(first, interval), Transfer(second, 0);
    NothingCounted(udp, interval);
    CountedAppend(NO_STATS, [], a, udp, interval);
    CountedAppend(NO_STATS, [a], b, udp, interval);
    assert [] + [a] == [a] && [a] + [b] == [a, b];
    assert interval / interval == 1 && 0 / interval == 0;
    hide CountedAll;
    var one := Counted(NO_STATS, a, udp, interval);
    assert one.intervals == [Interval(0, 0), Interval(first, One(udp))];
  }

  /** With intervals of 100 ms, in nanoseconds, a transfer 600.1 seconds into a test has none. */
  lemma {:induction false} LateTransfersHaveNone(n: nat, udp: bool)
    ensures var s := CountedAll(NO_STATS, [Transfer(n, 600_100_000_000)], udp, 100_000_000);
      s.bytes == n && s.intervals == []
  {
    var late := Transfer(n, 600_100_000_000);
    NothingCounted(udp, 100_000_000);
    CountedAppend(NO_STATS, [], late, udp, 100_000_000);
    assert [] + [late] == [late];
  }

  // ----- Combining streams -----

  function Max(a: nat, b: nat): nat {
    if a < b then b else a
  }

  /** One stream added to a total, of `streams` streams. */
  function Merged(total: Stats, s: Stats, streams: nat): (r: Stats)
    requires streams > 0
  {
    var n := Max(|total.intervals|, |s.intervals|);
    Stats(
      total.bytes + s.bytes,
      Max(total.duration, s.duration),
      total.datagrams + s.datagrams,
      total.reordered + s.reordered,
      total.jitter + s.jitter / streams,
      seq(n, k requires 0 <= k => Add(At(total.intervals, k), At(s.intervals, k))))
  }

  function MergedAll(all: seq<Stats>, streams: nat): Stats
    requires streams > 0
  {
    if all == [] then NO_STATS else Merged(MergedAll(all[..|all| - 1], streams), all[|all| - 1], streams)
  }

  function Combined(all: seq<Stats>): Stats {
    if all == [] then NO_STATS else MergedAll(all, |all|)
  }

  method Combine(all: seq<Stats>) returns (total: Stats)
    ensures total == Combined(all)
  {
    total := NO_STATS;
    for i := 0 to |all|
      invariant |all| > 0 ==> total == MergedAll(all[..i], |all|)
      invariant |all| == 0 ==> total == NO_STATS
    {
      ghost var before := total;
      var s := all[i];
      total := total.(bytes := total.bytes + s.bytes);
      total := total.(datagrams := total.datagrams + s.datagrams);
      total := total.(reordered := total.reordered + s.reordered);
      total := total.(duration := Max(total.duration, s.duration));
      total := total.(jitter := total.jitter + s.jitter / |all|);
      var n := Max(|total.intervals|, |s.intervals|);
      var intervals := Resize(total.intervals, n);
      for k := 0 to |s.intervals|
        invariant |intervals| == n
        invariant forall j :: 0 <= j < k ==> intervals[j] == Add(At(before.intervals, j), s.intervals[j])
        invariant forall j :: k <= j < n ==> intervals[j] == At(before.intervals, j)
      {
        intervals := intervals[k := Add(intervals[k], s.intervals[k])];
      }
      assert intervals == Merged(before, s, |all|).intervals;
      total := total.(intervals := intervals);
      assert all[..i + 1][..i] == all[..i];
    }
    assert all[..|all|] == all;
  }

  function Sum(all: seq<Stats>, f: Stats -> nat): nat {
    if all == [] then 0 else Sum(all[..|all| - 1], f) + f(all[|all| - 1])
  }

  lemma {:induction false} MergedTotals(all: seq<Stats>, streams: nat)
    requires streams > 0
    ensures var t := MergedAll(all, streams);
      && t.bytes == Sum(all, (s: Stats) => s.bytes)
      && t.datagrams == Sum(all, (s: Stats) => s.datagrams)
      && t.reordered == Sum(all, (s: Stats) => s.reordered)
    decreases |all|
  {
    if all == [] {
    } else {
      MergedTotals(all[..|all| - 1], streams);
    }
  }

  lemma {:induction false} MergedSlots(all: seq<Stats>, streams: nat, k: nat)
    requires streams > 0
    ensures var t := MergedAll(all, streams);
      && At(t.intervals, k).bytes == Sum(all, (s: Stats) => At(s.intervals, k).bytes)
      && At(t.intervals, k).datagrams == Sum(all, (s: Stats) => At(s.intervals, k).datagrams)
    decreases |all|
  {
    if all == [] {
    } else {
      MergedSlots(all[..|all| - 1], streams, k);
      MergedSlot(MergedAll(all[..|all| - 1], streams), all[|all| - 1], streams, k);
    }
  }

  lemma {:induction false} MergedSlot(total: Stats, s: Stats, streams: nat, k: nat)
    requires streams > 0
    ensures At(Merged(total, s, streams).intervals, k) == Add(At(total.intervals, k), At(s.intervals, k))
  {
  }

  lemma {:induction false} MergedDuration(all: seq<Stats>, streams: nat)
    requires streams > 0
    ensures var t := MergedAll(all, streams);
      && (forall s :: s in all ==> s.duration <= t.duration)
      && (all != [] ==> exists s :: s in all && s.duration == t.duration)
    decreases |all|
  {
    if all == [] {
    } else {
      var rest, last := all[..|all| - 1], all[|all| - 1];
      MergedDuration(rest, streams);
      assert all == rest + [last];
      assert last in all;
      var t := MergedAll(rest, streams);
      if rest == [] {
        assert MergedAll(all, streams).duration == last.duration;
      } else {
        var s :| s in rest && s.duration == t.duration;
        assert s in all;
      }
    }
  }

  /** Combining conserves every total, and what each interval counted, across streams. */
  lemma {:induction false} CombineConserves(all: seq<Stats>, k: nat)
    ensures var t := Combined(all);
      && t.bytes == Sum(all, (s: Stats) => s.bytes)
      && t.datagrams == Sum(all, (s: Stats) => s.datagrams)
      && t.reordered == Sum(all, (s: Stats) => s.reordered)
      && At(t.intervals, k).bytes == Sum(all, (s: Stats) => At(s.intervals, k).bytes)
      && At(t.intervals, k).datagrams == Sum(all, (s: Stats) => At(s.intervals, k).datagrams)
      && (forall s :: s in all ==> s.duration <= t.duration)
      && (all != [] ==> exists s :: s in all && s.duration == t.duration)
  {
    if all != [] {
      MergedTotals(all, |all|);
      MergedSlots(all, |all|, k);
      MergedDuration(all, |all|);
    }
  }

  // ----- What counting leaves alone -----

  lemma {:induction false} NothingCounted(udp: bool, interval: nat)
    ensures CountedAll(NO_STATS, [], udp, interval) == NO_STATS && Total([]) == 0
  {
  }

  /** Counting never touches the duration. */
  lemma {:induction false} CountedKeepsDuration(ts: seq<Transfer>, udp: bool, interval: nat)
    ensures CountedAll(NO_STATS, ts, udp, interval).duration == 0
    decreases |ts|
  {
    if ts == [] {
    } else {
      CountedKeepsDuration(ts[..|ts| - 1], udp, interval);
    }
  }
}
