/** The receiving side of the UDP throughput test: which datagrams count, and which came late. */
module PerfReceive {
  import opened Common
  import opened PerfAccounting

  /** A datagram with its header read; `whole` is whether it is long enough to have one. */
  datatype Datagram = Datagram(whole: bool, id: Bytes, ends: bool, skipped: bool, seqno: nat, len: nat, elapsed: nat)

  /** The datagrams counted: of this test, not marked to be skipped, before the one that ends it. */
  function Counting(packets: seq<Datagram>, id: Bytes): seq<Datagram> {
    if packets == [] then []
    else
      var p := packets[0];
      if !p.whole || p.id != id then Counting(packets[1..], id)
      else if p.ends then []
      else if p.skipped then Counting(packets[1..], id)
      else [p] + Counting(packets[1..], id)
  }

  function Transfers(ds: seq<Datagram>): (r: seq<Transfer>)
    ensures |r| == |ds| && forall i :: 0 <= i < |r| ==> r[i] == Transfer(ds[i].len, ds[i].elapsed)
  {
    seq(|ds|, i requires 0 <= i < |ds| => Transfer(ds[i].len, ds[i].elapsed))
  }

  /** Datagrams of another test, too short to be read or marked to be skipped make no difference, wherever they come. */
  lemma {:induction false} OthersDoNotCount(before: seq<Datagram>, d: Datagram, after: seq<Datagram>, id: Bytes)
    requires !d.whole || d.id != id || (d.skipped && !d.ends)
    ensures Counting(before + [d] + after, id) == Counting(before + after, id)
    decreases |before|
  {
    var all := before + [d] + after;
    if before == [] {
      assert all[1..] == after && before + after == after;
    } else {
      assert all[1..] == before[1..] + [d] + after && (before + after)[1..] == before[1..] + after;
      OthersDoNotCount(before[1..], d, after, id);
    }
  }

  /** Every other datagram counts, up to the first that ends the test; nothing after that does. */
  lemma {:induction false} DataCounts(before: seq<Datagram>, d: Datagram, after: seq<Datagram>, id: Bytes)
    requires forall i :: 0 <= i < |before| ==> !(before[i].whole && before[i].id == id && before[i].ends)
    requires d.whole && d.id == id
    ensures d.ends ==> Counting(before + [d] + after, id) == Counting(before, id)
    ensures !d.ends && !d.skipped ==>
      Counting(before + [d] + after, id) == Counting(before, id) + [d] + Counting(after, id)
    decreases |before|
  {
    var all := before + [d] + after;
    if before == [] {
      assert all[1..] == after;
    } else {
      assert all[1..] == before[1..] + [d] + after;
      DataCounts(before[1..], d, after, id);
    }
  }

  /** A datagram is late when one before it has its number or a higher one. */
  predicate IsLate(ds: seq<Datagram>, i: nat)
    requires i < |ds|
  {
    exists j :: 0 <= j < i && ds[j].seqno >= ds[i].seqno
  }

  function Late(ds: seq<Datagram>): nat {
    if ds == [] then 0
    else Late(ds[..|ds| - 1]) + (if IsLate(ds, |ds| - 1) then 1 else 0)
  }

  /** One past the highest number so far. */
  ghost predicate Expects(ds: seq<Datagram>, expected: nat) {
    && (forall i :: 0 <= i < |ds| ==> ds[i].seqno < expected)
    && (expected > 0 ==> exists i :: 0 <= i < |ds| && ds[i].seqno == expected - 1)
  }

  lemma {:induction false} LateIffBelow(ds: seq<Datagram>, d: Datagram, expected: nat)
    requires Expects(ds, expected)
    ensures IsLate(ds + [d], |ds|) <==> d.seqno < expected
    ensures Expects(ds + [d], if d.seqno < expected then expected else d.seqno + 1)
    ensures Late(ds + [d]) == Late(ds) + (if d.seqno < expected then 1 else 0)
  {
    var all := ds + [d];
    assert all[..|ds|] == ds && forall i :: 0 <= i < |ds| ==> all[i] == ds[i];
    assert all[|ds|] == d;
    if d.seqno < expected {
      var i :| 0 <= i < |ds| && ds[i].seqno == expected - 1;
      assert all[i].seqno >= d.seqno && all[i].seqno == expected - 1;
    }
  }

  /** The statistics after some counted datagrams, and the number expected next. */
  ghost predicate Tallied(stats: Stats, counted: seq<Datagram>, expected: nat, interval: nat) {
    && Expects(counted, expected) && stats.reordered == Late(counted)
    && stats.(reordered := 0) == CountedAll(NO_STATS, Transfers(counted), true, interval)
    && stats.bytes == Total(Transfers(counted)) && stats.datagrams == |counted|
  }

  /** The loop, with its end at the terminating datagram or where no more arrive before the deadline. */
  method ReceiveUdp(packets: seq<Datagram>, id: Bytes, interval: nat) returns (stats: Stats)
    ensures var counted := Counting(packets, id);
            && stats.bytes == Total(Transfers(counted)) && stats.datagrams == |counted|
            && stats.reordered == Late(counted)
            && stats.(reordered := 0) == CountedAll(NO_STATS, Transfers(counted), true, interval)
  {
    hide Tallied, Counted, Transfers;
    stats := NO_STATS;
    ghost var counted: seq<Datagram> := [];
    var expected: nat := 0;
    TallyStarts(interval);
    for i := 0 to |packets|
      invariant counted + Counting(packets[i..], id) == Counting(packets, id)
      invariant Tallied(stats, counted, expected, interval)
    {
      var p := packets[i];
      assert packets[i..][0] == p && packets[i..][1..] == packets[i + 1..];
      if !p.whole || p.id != id {
        continue;
      }
      if p.ends {
        assert counted + [] == counted;
        TallyMeans(stats, counted, expected, interval);
        return;
      }
      if p.skipped {
        continue;
      }
      var rest := Counting(packets[i + 1..], id);
      assert counted + ([p] + rest) == (counted + [p]) + rest;
      TallyOne(stats, counted, p, expected, interval);
      if p.seqno < expected {
        stats := stats.(reordered := stats.reordered + 1);
      } else {
        expected := p.seqno + 1;
      }
      stats := Count(stats, p.len, true, p.elapsed, interval);
      counted := counted + [p];
    }
    assert packets[|packets|..] == [] && counted + [] == counted;
    TallyMeans(stats, counted, expected, interval);
  }

  lemma {:induction false} TallyStarts(interval: nat)
    ensures Tallied(NO_STATS, [], 0, interval)
  {
    NoneLate();
    NothingCounted(true, interval);
    assert Transfers([]) == [];
  }

  lemma {:induction false} TallyMeans(stats: Stats, counted: seq<Datagram>, expected: nat, interval: nat)
    requires Tallied(stats, counted, expected, interval)
    ensures stats.bytes == Total(Transfers(counted)) && stats.datagrams == |counted|
    ensures stats.reordered == Late(counted)
    ensures stats.(reordered := 0) == CountedAll(NO_STATS, Transfers(counted), true, interval)
  {
  }

  lemma {:induction false} TallyOne(stats: Stats, counted: seq<Datagram>, p: Datagram, expected: nat, interval: nat)
    requires Tallied(stats, counted, expected, interval)
    ensures var late := p.seqno < expected;
            Tallied(Counted(if late then stats.(reordered := stats.reordered + 1) else stats,
                            Transfer(p.len, p.elapsed), true, interval),
                    counted + [p], if late then expected else p.seqno + 1, interval)
  {
    hide Counted, CountedAll, Total, Late, Expects, Resize;
    LateIffBelow(counted, p, expected);
    CountingOne(stats, counted, p, interval);
    assert stats.(reordered := stats.reordered) == stats;
  }

  lemma {:induction false} NoneLate()
    ensures Late([]) == 0 && Expects([], 0)
  {
  }

  /** Counting one more datagram, before or after its lateness is noted. */
  lemma {:induction false} CountingOne(s: Stats, ds: seq<Datagram>, d: Datagram, interval: nat)
    requires s.(reordered := 0) == CountedAll(NO_STATS, Transfers(ds), true, interval)
    requires s.bytes == Total(Transfers(ds)) && s.datagrams == |ds|
    ensures forall r: nat ::
              var s' := Counted(s.(reordered := r), Transfer(d.len, d.elapsed), true, interval);
              && s'.(reordered := 0) == CountedAll(NO_STATS, Transfers(ds + [d]), true, interval)
              && s'.bytes == Total(Transfers(ds + [d])) && s'.datagrams == |ds| + 1 && s'.reordered == r
  {
    hide Resize;
    var ts := Transfers(ds + [d]);
    assert ts == Transfers(ds) + [Transfer(d.len, d.elapsed)];
    assert ts[..|ds|] == Transfers(ds);
  }

  /** Datagrams that come in the order they were sent are never late, whichever are lost. */
  lemma {:induction false} InOrderIsNeverLate(ds: seq<Datagram>)
    requires forall i, j :: 0 <= i < j < |ds| ==> ds[i].seqno < ds[j].seqno
    ensures Late(ds) == 0
    decreases |ds|
  {
    if ds == [] {
    } else {
      InOrderIsNeverLate(ds[..|ds| - 1]);
    }
  }

  /** A second copy of a datagram always counts as late. */
  lemma {:induction false} CopiesAreLate(ds: seq<Datagram>, i: nat, j: nat)
    requires i < j < |ds| && ds[i].seqno == ds[j].seqno
    ensures IsLate(ds, j) && Late(ds) > 0
    decreases |ds|
  {
    if j == |ds| - 1 {
    } else {
      var init := ds[..|ds| - 1];
      CopiesAreLate(init, i, j);
    }
  }
}
