/** Progress reports of one download (tidewave-core/src/http_handlers.rs, the read loop of
    `perform_download`). */
module DownloadProgress {

  type Byte = bv8

  /** One successful read: the data it yields, and the bytes that came over the wire since
      the previous read (with decompression the two have nothing to do with each other). */
  datatype Chunk = Chunk(wire: nat, data: seq<Byte>)

  const ONE_MB: nat := 1048576

  /** A total of zero stands for an unknown length. */
  function ProgressStep(total: nat): (step: nat)
    ensures total == 0 ==> step == 1048576
    ensures total > 0 ==> 100 * step <= total < 100 * step + 100
  {
    if total > 0 then total / 100 else ONE_MB
  }

  function WireBytes(chunks: seq<Chunk>): nat {
    if chunks == [] then 0 else WireBytes(chunks[..|chunks| - 1]) + chunks[|chunks| - 1].wire
  }

  function Content(chunks: seq<Chunk>): seq<Byte> {
    if chunks == [] then [] else Content(chunks[..|chunks| - 1]) + chunks[|chunks| - 1].data
  }

  lemma {:induction false} WireBytesGrow(chunks: seq<Chunk>, m: nat, n: nat)
    requires m <= n <= |chunks|
    ensures WireBytes(chunks[..m]) <= WireBytes(chunks[..n])
    decreases n
  {
    if m < n {
      assert chunks[..n][..n - 1] == chunks[..n - 1];
      WireBytesGrow(chunks, m, n - 1);
    }
  }

  /** The sizes reported: a read is reported if it is the first or at least a step past the
      last report. */
  function Reports(chunks: seq<Chunk>, step: nat): seq<nat> {
    if chunks == [] then [] else
    var earlier, size := Reports(chunks[..|chunks| - 1], step), WireBytes(chunks);
    if earlier == [] || size >= earlier[|earlier| - 1] + step then earlier + [size] else earlier
  }

  /** The read loop: `chunks` are the non-empty reads up to the end of the body. */
  method ReadLoop(total: nat, chunks: seq<Chunk>) returns (file: seq<Byte>, sizes: seq<nat>)
    ensures file == Content(chunks)
    ensures sizes == Reports(chunks, ProgressStep(total))
  {
    file, sizes := [], [];
    var nextProgressThreshold := 0;
    var networkBytes := 0;
    var i := 0;
    while i < |chunks|
      invariant 0 <= i <= |chunks|
      invariant file == Content(chunks[..i]) && networkBytes == WireBytes(chunks[..i])
      invariant sizes == Reports(chunks[..i], ProgressStep(total))
      invariant nextProgressThreshold == if sizes == [] then 0 else sizes[|sizes| - 1] + ProgressStep(total)
    {
      assert chunks[..i + 1][..i] == chunks[..i];
      file := file + chunks[i].data;
      networkBytes := networkBytes + chunks[i].wire;
      if networkBytes >= nextProgressThreshold {
        nextProgressThreshold := networkBytes + ProgressStep(total);
        sizes := sizes + [networkBytes];
      }
      i := i + 1;
    }
    assert chunks[..i] == chunks;
  }

  /** Consecutive reports are `step` apart. */
  predicate Spaced(sizes: seq<nat>, step: nat) {
    forall i :: 0 < i < |sizes| ==> sizes[i - 1] + step <= sizes[i]
  }

  /** Reports are spaced, start with the first read, and are never a whole step behind. */
  lemma {:induction false} ReportsAreSpaced(chunks: seq<Chunk>, step: nat)
    requires chunks != []
    ensures var sizes := Reports(chunks, step);
            && sizes != [] && Spaced(sizes, step)
            && sizes[0] == chunks[0].wire
            && sizes[|sizes| - 1] <= WireBytes(chunks)
            && (WireBytes(chunks) < sizes[|sizes| - 1] + step || WireBytes(chunks) == sizes[|sizes| - 1])
  {
    if |chunks| == 1 {
      assert chunks[..0] == [];
    } else {
      var front := chunks[..|chunks| - 1];
      ReportsAreSpaced(front, step);
      assert front == chunks[..|front|] && chunks[..|chunks|] == chunks;
      WireBytesGrow(chunks, |front|, |chunks|);
    }
  }

  /** Every size reported is the number of wire bytes at the time. */
  lemma {:induction false} ReportsAreWireBytes(chunks: seq<Chunk>, step: nat, i: nat)
    requires i < |Reports(chunks, step)|
    ensures exists j :: 0 < j <= |chunks| && Reports(chunks, step)[i] == WireBytes(chunks[..j])
  {
    var front := chunks[..|chunks| - 1];
    assert chunks[..|chunks|] == chunks;
    if i < |Reports(front, step)| {
      ReportsAreWireBytes(front, step, i);
      var j :| 0 < j <= |front| && Reports(front, step)[i] == WireBytes(front[..j]);
      assert front[..j] == chunks[..j];
    }
  }

  lemma {:induction false} SpacedTotal(sizes: seq<nat>, step: nat, i: nat)
    requires Spaced(sizes, step) && i < |sizes|
    ensures sizes[0] + i * step <= sizes[i]
  {
    if i > 0 {
      SpacedTotal(sizes, step, i - 1);
      assert i * step == (i - 1) * step + step;
    }
  }

  /** With a known total of at least 100, a body that keeps to it sends at most 199 reports. */
  lemma AtMost199Reports(total: nat, chunks: seq<Chunk>)
    requires total >= 100
    requires chunks != [] ==> 1 <= chunks[0].wire && WireBytes(chunks) <= total
    ensures |Reports(chunks, ProgressStep(total))| <= 199
  {
    if chunks != [] {
      var step := ProgressStep(total);
      var sizes := Reports(chunks, step);
      ReportsAreSpaced(chunks, step);
      var n := |sizes| - 1;
      SpacedTotal(sizes, step, n);
      assert n >= 199 ==> n * step >= 199 * step;
    }
  }

  function Trickle(n: nat, wire: nat): (chunks: seq<Chunk>)
    ensures |chunks| == n
  {
    if n == 0 then [] else Trickle(n - 1, wire) + [Chunk(if n == 1 then 1 else wire, [])]
  }

  lemma {:induction false} TrickleBytes(n: nat, wire: nat)
    requires n >= 1
    ensures WireBytes(Trickle(n, wire)) == 1 + (n - 1) * wire
    ensures Trickle(n, wire)[0].wire == 1
  {
    var chunks := Trickle(n, wire);
    assert chunks[..n - 1] == Trickle(n - 1, wire);
    assert WireBytes(chunks) == WireBytes(Trickle(n - 1, wire)) + chunks[n - 1].wire;
    if n > 1 {
      TrickleBytes(n - 1, wire);
      OneMore(n - 2, wire);
    }
  }

  lemma OneMore(n: nat, wire: nat)
    ensures (n + 1) * wire == n * wire + wire
  {
  }

  lemma {:induction false} TrickleReports(n: nat, wire: nat, step: nat)
    requires n >= 1 && step <= wire
    ensures |Reports(Trickle(n, wire), step)| == n
    ensures Reports(Trickle(n, wire), step)[n - 1] == WireBytes(Trickle(n, wire))
  {
    var chunks := Trickle(n, wire);
    assert chunks[..n - 1] == Trickle(n - 1, wire);
    if n > 1 {
      TrickleReports(n - 1, wire, step);
      assert WireBytes(chunks) == WireBytes(Trickle(n - 1, wire)) + wire;
    }
  }

  /** 199 is reached: a body of 199 bytes that arrives byte by byte. */
  lemma Reaches199()
    ensures WireBytes(Trickle(199, 1)) == 199 && |Reports(Trickle(199, 1), ProgressStep(199))| == 199
  {
    TrickleBytes(199, 1);
    TrickleReports(199, 1, ProgressStep(199));
  }

  /** A body with wire bytes from its first read on, and no more than announced. */
  predicate KeepsTo(chunks: seq<Chunk>, total: nat) {
    chunks != [] && 1 <= chunks[0].wire && WireBytes(chunks) <= total
  }

  ghost predicate Bounded(total: nat, bound: nat) {
    forall chunks: seq<Chunk> :: KeepsTo(chunks, total) ==> |Reports(chunks, ProgressStep(total))| <= bound
  }

  /** The bound is for totals of at least 100 only: below, the step is zero and every read
      is reported, also those a decompressor makes without new wire bytes. */
  lemma ReportsBoundedExactlyFrom100(total: nat)
    requires total > 0
    ensures total >= 100 <==> exists bound: nat :: Bounded(total, bound)
  {
    if total >= 100 {
      forall chunks: seq<Chunk> | KeepsTo(chunks, total) ensures |Reports(chunks, ProgressStep(total))| <= 199 {
        AtMost199Reports(total, chunks);
      }
      assert Bounded(total, 199);
    } else {
      forall bound: nat ensures !Bounded(total, bound) {
        var chunks := Trickle(bound + 1, 0);
        TrickleBytes(bound + 1, 0);
        TrickleReports(bound + 1, 0, ProgressStep(total));
        assert KeepsTo(chunks, total);
      }
    }
  }

  /** Without a known total, reports are a megabyte apart. */
  lemma UnknownTotalReportsEveryMegabyte(chunks: seq<Chunk>, i: nat)
    requires 0 < i < |Reports(chunks, ProgressStep(0))|
    ensures Reports(chunks, ProgressStep(0))[i] >= Reports(chunks, ProgressStep(0))[i - 1] + 1048576
  {
    ReportsAreSpaced(chunks, ProgressStep(0));
  }
}
