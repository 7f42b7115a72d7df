/** The trace pipeline's small blocks: the byte-order reversal, the two-way stream
    selector, the event counters of the monitor, the activity indicator and the
    keepalive frame source. */
module TracePipeline {
  import opened Bits

  type U32 = x: int | 0 <= x < 0x1_0000_0000

  // ---------------------------------------------------------------- byteswap

  /** Byte `i` of a signal's bits (least significant bit first). */
  function Chunk(bits: seq<bool>, i: nat): seq<bool>
    requires 8 * i + 8 <= |bits|
  {
    bits[8 * i..8 * i + 8]
  }

  /** `byteswap`: the signal's bytes in reverse order. The first byte of the `Cat` (its
      least significant) is the signal's most significant byte. */
  function ByteSwap(bits: seq<bool>): (r: seq<bool>)
    requires |bits| % 8 == 0
    ensures |r| == |bits|
    decreases |bits|
  {
    if |bits| == 0 then [] else ByteSwap(bits[8..]) + bits[..8]
  }

  /** Byte `i` of the result is byte `m - 1 - i` of the signal, for `m` bytes. */
  lemma {:induction false} ByteSwapBytes(bits: seq<bool>, i: nat)
    requires |bits| % 8 == 0 && 8 * i + 8 <= |bits|
    ensures Chunk(ByteSwap(bits), i) == Chunk(bits, |bits| / 8 - 1 - i)
    decreases |bits|
  {
    var m := |bits| / 8;
    assert |bits| == 8 * m;
    var rest := bits[8..];
    var sw := ByteSwap(rest);
    assert ByteSwap(bits) == sw + bits[..8];
    if i < m - 1 {
      ByteSwapBytes(rest, i);
      assert (sw + bits[..8])[8 * i..8 * i + 8] == sw[8 * i..8 * i + 8];
      var j := m - 2 - i;
      assert 8 * (m - 1 - i) == 8 * j + 8;
      assert forall k :: 0 <= k < 8 ==> Chunk(rest, j)[k] == rest[8 * j + k] == bits[8 * j + 8 + k];
      assert Chunk(rest, j) == Chunk(bits, m - 1 - i);
    } else {
      assert (sw + bits[..8])[8 * i..8 * i + 8] == bits[..8];
    }
  }

  /** Swapping a concatenation swaps and exchanges its parts. */
  lemma {:induction false} ByteSwapAppend(a: seq<bool>, b: seq<bool>)
    requires |a| % 8 == 0 && |b| % 8 == 0
    ensures ByteSwap(a + b) == ByteSwap(b) + ByteSwap(a)
    decreases |a|
  {
    if |a| == 0 {
      assert a + b == b;
    } else {
      assert (a + b)[8..] == a[8..] + b && (a + b)[..8] == a[..8];
      ByteSwapAppend(a[8..], b);
      assert ByteSwap(a + b) == (ByteSwap(b) + ByteSwap(a[8..])) + a[..8];
      assert (ByteSwap(b) + ByteSwap(a[8..])) + a[..8] == ByteSwap(b) + (ByteSwap(a[8..]) + a[..8]);
    }
  }

  /** Reversing the byte order twice gives the signal back. */
  lemma {:induction false} ByteSwapInvolution(bits: seq<bool>)
    requires |bits| % 8 == 0
    ensures ByteSwap(ByteSwap(bits)) == bits
    decreases |bits|
  {
    if |bits| > 0 {
      ByteSwapAppend(ByteSwap(bits[8..]), bits[..8]);
      ByteSwapInvolution(bits[8..]);
      assert ByteSwap(bits[..8]) == ByteSwap(bits[..8][8..]) + bits[..8][..8];
      assert bits[..8] + bits[8..] == bits;
    }
  }

  // ---------------------------------------------------------------- Injector

  /** One beat offered on a stream endpoint (data as its bytes). */
  datatype Offer = Offer(valid: bool, data: seq<bv8>, first: bool, last: bool)

  /** The injector's combinational outputs: the offer on `source`, and the ready
      handed back to `sink` and to `sink_inject`. */
  datatype Routed = Routed(source: Offer, sinkReady: bool, injectReady: bool)

  /** `Injector`: a valid beat on `sink_inject` takes `source`; otherwise `sink` is
      connected. The endpoint not connected sees ready low. */
  function Inject(sink: Offer, inject: Offer, sourceReady: bool): (r: Routed)
    ensures inject.valid ==> r.source == inject && r.injectReady == sourceReady && !r.sinkReady
    ensures !inject.valid ==> r.source == sink && r.sinkReady == sourceReady && !r.injectReady
  {
    if inject.valid then Routed(inject, false, sourceReady) else Routed(sink, sourceReady, false)
  }

  /** No beat is lost or duplicated: on every edge at most one endpoint hands its beat
      over, and a beat is handed over exactly when `source` accepts it. */
  lemma InjectTransfers(sink: Offer, inject: Offer, sourceReady: bool)
    ensures var r := Inject(sink, inject, sourceReady);
      !(r.sinkReady && r.injectReady) &&
      ((sink.valid && r.sinkReady) || (inject.valid && r.injectReady)) == (r.source.valid && sourceReady)
  {
  }

  // ---------------------------------------------------------------- Monitor

  /** One edge seen by the monitor: the watched stream's valid and ready. */
  datatype Sample = Sample(valid: bool, ready: bool)

  /** Beats offered in a history of edges. */
  function Offered(h: seq<Sample>): (c: nat)
    ensures c <= |h|
    decreases |h|
  {
    if |h| == 0 then 0 else Offered(h[..|h| - 1]) + (if h[|h| - 1].valid then 1 else 0)
  }

  /** Edges on which a beat was offered and not taken. */
  function Dropped(h: seq<Sample>): (c: nat)
    decreases |h|
  {
    if |h| == 0 then 0 else Dropped(h[..|h| - 1]) + (if h[|h| - 1].valid && !h[|h| - 1].ready then 1 else 0)
  }

  /** Counted without wrap-around, the lost beats never exceed the offered ones. */
  lemma {:induction false} DroppedAtMostOffered(h: seq<Sample>)
    ensures Dropped(h) <= Offered(h)
    decreases |h|
  {
    if |h| > 0 {
      DroppedAtMostOffered(h[..|h| - 1]);
    }
  }

  /** One more edge adds its own offered and lost beat to the counts. */
  lemma CountsSnoc(h: seq<Sample>, x: Sample)
    ensures Offered(h + [x]) == Offered(h) + (if x.valid then 1 else 0)
    ensures Dropped(h + [x]) == Dropped(h) + (if x.valid && !x.ready then 1 else 0)
  {
    assert (h + [x])[..|h|] == h;
  }

  /** Counting modulo a counter's width step by step agrees with counting and then
      wrapping. */
  lemma WrapCount(c: nat, m: nat)
    requires m == 4 || m == 65536 || m == 0x1_0000_0000
    ensures (c % m + 1) % m == (c + 1) % m
  {
  }

  /** The wrapped counts of a history, advanced by one edge, are those of the longer
      history. */
  lemma CountersStep(total: int, lost: int, clk: int, h: seq<Sample>, x: Sample)
    requires total == Offered(h) % 0x1_0000_0000 && lost == Dropped(h) % 65536 && clk == |h| % 4
    ensures (if x.valid then (total + 1) % 0x1_0000_0000 else total) == Offered(h + [x]) % 0x1_0000_0000
    ensures (if x.valid && !x.ready then (lost + 1) % 65536 else lost) == Dropped(h + [x]) % 65536
    ensures (clk + 1) % 4 == |h + [x]| % 4
  {
    CountsSnoc(h, x);
    WrapCount(|h|, 4);
    if x.valid {
      WrapCount(Offered(h), 0x1_0000_0000);
    }
    if x.valid && !x.ready {
      WrapCount(Dropped(h), 65536);
    }
  }

  /** `Monitor`: the counters in the debug clock domain (the synchronisers that carry
      them across are not modelled). `history` is the sequence of edges seen. */
  class Monitor {
    var total: U32
    var lost: U16
    var clk: U2
    ghost var history: seq<Sample>

    /** The registers are the history's counts, wrapped to their widths. */
    ghost predicate Valid()
      reads this
    {
      total == Offered(history) % 0x1_0000_0000 && lost == Dropped(history) % 65536 &&
      clk == |history| % 4
    }

    constructor ()
      ensures Valid() && history == []
    {
      total, lost, clk := 0, 0, 0;
      history := [];
    }

    /** One edge: count an offered beat, count a lost one, tick the 2-bit clock. */
    method Step(valid: bool, ready: bool)
      requires Valid()
      modifies this
      ensures Valid() && history == old(history) + [Sample(valid, ready)]
      ensures total == if valid then (old(total) + 1) % 0x1_0000_0000 else old(total)
      ensures lost == if valid && !ready then (old(lost) + 1) % 65536 else old(lost)
      ensures clk == (old(clk) + 1) % 4
    {
      CountersStep(total, lost, clk, history, Sample(valid, ready));
      if valid {
        total := (total + 1) % 0x1_0000_0000;
      }
      if valid && !ready {
        lost := (lost + 1) % 65536;
      }
      clk := (clk + 1) % 4;
      history := history + [Sample(valid, ready)];
    }
  }

  // ---------------------------------------------------------------- Indicator

  /** `Indicator`'s hold counter on one edge: a change of the watched data reloads it
      to `hold - 1`, overriding the countdown; otherwise it counts down to 0 and stays. */
  function HoldNext(cnt: nat, changed: bool, hold: nat): (r: nat)
    requires 1 <= hold && cnt < hold
    ensures r < hold
    ensures changed ==> r == hold - 1
    ensures !changed ==> r == if cnt == 0 then 0 else cnt - 1
  {
    if changed then hold - 1 else if cnt != 0 then cnt - 1 else 0
  }

  /** The hold counter after `k` edges without a change. */
  function Quiet(cnt: nat, k: nat, hold: nat): (r: nat)
    requires 1 <= hold && cnt < hold
    ensures r < hold
    decreases k
  {
    if k == 0 then cnt else Quiet(HoldNext(cnt, false, hold), k - 1, hold)
  }

  /** After a change the indicator is lit for exactly `hold - 1` edges without a
      further change, and then dark. */
  lemma {:induction false} QuietCountsDown(cnt: nat, k: nat, hold: nat)
    requires 1 <= hold && cnt < hold
    ensures Quiet(cnt, k, hold) == if k < cnt then cnt - k else 0
    decreases k
  {
    if k > 0 {
      QuietCountsDown(HoldNext(cnt, false, hold), k - 1, hold);
    }
  }

  /** `Indicator` over data of type `T`; `hold` is its hold time in edges. */
  class Indicator<T(==)> {
    const hold: nat
    var lastData: T
    var holdCnt: nat

    ghost predicate Valid()
      reads this
    {
      1 <= hold && holdCnt < hold
    }

    constructor (hold: nat, initial: T)
      requires 1 <= hold
      ensures Valid() && this.hold == hold && lastData == initial && holdCnt == 0
    {
      this.hold := hold;
      lastData := initial;
      holdCnt := 0;
    }

    /** The indicator output: lit while the hold counter runs. */
    function Out(): (lit: bool)
      reads this
      requires Valid()
      ensures lit <==> holdCnt > 0
    {
      holdCnt != 0
    }

    /** One edge with the watched data `data`. */
    method Step(data: T)
      requires Valid()
      modifies this
      ensures Valid() && lastData == data
      ensures holdCnt == HoldNext(old(holdCnt), old(lastData) != data, hold)
    {
      var changed := lastData != data;
      lastData := data;
      if holdCnt != 0 {
        holdCnt := holdCnt - 1;
      }
      if changed {
        holdCnt := hold - 1;
      }
    }
  }

  // ---------------------------------------------------------------- Keepalive

  const KEEPALIVE_PERIOD: nat := 7500000

  /** The keepalive frame as the 128-bit `Cat`: 0xA6, 32 zero bits, `leds`, the lost
      and total frame counts, and 0x7fffffff, from the least significant bit up. */
  function KeepaliveFrame(leds: bv8, lost: bv16, total: bv32): (r: bv128)
    ensures r & 0xFF == 0xA6
    ensures (r >> 8) & 0xFFFF_FFFF == 0
    ensures (r >> 96) == 0x7fffffff
  {
    (0xA6 as bv128) | ((leds as bv128) << 40) | ((lost as bv128) << 48) |
    ((total as bv128) << 64) | ((0x7fffffff as bv128) << 96)
  }

  /** Byte `k` of a 128-bit value, least significant first. */
  function Byte128(x: bv128, k: nat): bv8
    requires k < 16
  {
    var y := if k == 0 then x else if k == 1 then x >> 8 else if k == 2 then x >> 16 else if k == 3 then x >> 24
      else if k == 4 then x >> 32 else if k == 5 then x >> 40 else if k == 6 then x >> 48 else if k == 7 then x >> 56
      else if k == 8 then x >> 64 else if k == 9 then x >> 72 else if k == 10 then x >> 80 else if k == 11 then x >> 88
      else if k == 12 then x >> 96 else if k == 13 then x >> 104 else if k == 14 then x >> 112 else x >> 120;
    (y & 0xFF) as bv8
  }

  /** The frame's bytes in stream order. */
  function FrameBytes(x: bv128): (b: seq<bv8>)
    ensures |b| == 16
  {
    seq(16, k requires 0 <= k < 16 => Byte128(x, k))
  }

  /** The keepalive frame's byte layout: header 0xA6, four zero bytes, the LEDs, the
      lost count (little-endian), the total count (little-endian) and 0x7fffffff. */
  lemma KeepaliveLayout(leds: bv8, lost: bv16, total: bv32)
    ensures FrameBytes(KeepaliveFrame(leds, lost, total)) ==
      [0xA6, 0, 0, 0, 0, leds] + LE16(lost) + LE32(total) + LE32(0x7fffffff)
  {
    var x := KeepaliveFrame(leds, lost, total);
    var want := [0xA6, 0, 0, 0, 0, leds] + LE16(lost) + LE32(total) + LE32(0x7fffffff);
    forall k | 0 <= k < 16
      ensures FrameBytes(x)[k] == want[k]
    {
      KeepaliveByte(leds, lost, total, k);
    }
  }

  lemma KeepaliveByte(leds: bv8, lost: bv16, total: bv32, k: nat)
    requires k < 16
    ensures Byte128(KeepaliveFrame(leds, lost, total), k) ==
      ([0xA6, 0, 0, 0, 0, leds] + LE16(lost) + LE32(total) + LE32(0x7fffffff))[k]
  {
    if k < 6 {
      KeepaliveHeaderByte(leds, lost, total, k);
    } else if k < 8 {
      KeepaliveLostByte(leds, lost, total, k);
    } else if k < 12 {
      KeepaliveTotalByte(leds, lost, total, k);
    } else {
      KeepaliveTailByte(leds, lost, total, k);
    }
  }

  lemma KeepaliveHeaderByte(leds: bv8, lost: bv16, total: bv32, k: nat)
    requires k < 6
    ensures Byte128(KeepaliveFrame(leds, lost, total), k) == [0xA6, 0, 0, 0, 0, leds][k]
  {
  }

  lemma KeepaliveLostByte(leds: bv8, lost: bv16, total: bv32, k: nat)
    requires 6 <= k < 8
    ensures Byte128(KeepaliveFrame(leds, lost, total), k) == LE16(lost)[k - 6]
  {
  }

  lemma KeepaliveTotalByte(leds: bv8, lost: bv16, total: bv32, k: nat)
    requires 8 <= k < 12
    ensures Byte128(KeepaliveFrame(leds, lost, total), k) == LE32(total)[k - 8]
  {
    if k == 8 {
    } else if k == 9 {
    } else if k == 10 {
    } else {
    }
  }

  lemma KeepaliveTailByte(leds: bv8, lost: bv16, total: bv32, k: nat)
    requires 12 <= k < 16
    ensures Byte128(KeepaliveFrame(leds, lost, total), k) == LE32(0x7fffffff)[k - 12]
  {
  }

  /** The keepalive countdown on one edge: below zero never; an accepted frame (valid,
      that is at 0, and ready) reloads it, overriding the countdown. */
  function KeepaliveNext(cnt: nat, ready: bool): (r: nat)
    requires cnt < KEEPALIVE_PERIOD
    ensures r < KEEPALIVE_PERIOD
    ensures cnt == 0 && ready ==> r == KEEPALIVE_PERIOD - 1
    ensures cnt == 0 && !ready ==> r == 0
    ensures cnt > 0 ==> r == cnt - 1
  {
    var r := if cnt > 0 then cnt - 1 else cnt;
    if cnt == 0 && ready then KEEPALIVE_PERIOD - 1 else r
  }

  /** The countdown after `k` edges. */
  function KeepaliveRun(cnt: nat, readies: seq<bool>): (r: nat)
    requires cnt < KEEPALIVE_PERIOD
    ensures r < KEEPALIVE_PERIOD
    decreases |readies|
  {
    if |readies| == 0 then cnt else KeepaliveRun(KeepaliveNext(cnt, readies[0]), readies[1..])
  }

  /** After a frame is accepted the next one is offered exactly `KEEPALIVE_PERIOD - 1`
      edges later, whatever the consumer's ready does meanwhile. */
  lemma {:induction false} KeepaliveCountsDown(cnt: nat, readies: seq<bool>)
    requires cnt < KEEPALIVE_PERIOD && |readies| <= cnt
    ensures KeepaliveRun(cnt, readies) == cnt - |readies|
    decreases |readies|
  {
    if |readies| > 0 {
      KeepaliveCountsDown(cnt - 1, readies[1..]);
    }
  }

  /** `Keepalive`'s timer and its stream flags. */
  class Keepalive {
    var cnt: nat

    ghost predicate Valid()
      reads this
    {
      cnt < KEEPALIVE_PERIOD
    }

    constructor ()
      ensures Valid() && cnt == 0
    {
      cnt := 0;
    }

    /** The frame is offered exactly when the countdown is at 0. */
    function SourceValid(): (v: bool)
      reads this
      ensures v <==> cnt == 0
    {
      cnt == 0
    }

    /** One edge with the consumer's ready. */
    method Step(ready: bool)
      requires Valid()
      modifies this
      ensures Valid() && cnt == KeepaliveNext(old(cnt), ready)
    {
      var accepted := SourceValid() && ready;
      if cnt > 0 {
        cnt := cnt - 1;
      }
      if accepted {
        cnt := KEEPALIVE_PERIOD - 1;
      }
    }
  }
}
