/** DAP_SWJ_Sequence over a run of edges: the bits it drives onto SWDIO. */
module DapSwjProps {
  import opened Bits
  import opened DapState
  import opened DapSequences
  import opened DapEngine

  /** The data pin (SWDIO) in the engine's pin word: bit 1. */
  function Swdio(pins: bv16): bool
  {
    pins & 2 != 0
  }

  /** The bit an edge from `s` to `t` drives onto SWDIO: one at step 1, none otherwise. */
  function DrivenAt(s: Regs, t: Regs): seq<bool>
  {
    if s.txb == 1 then [Swdio(t.eng.pinsin)] else []
  }

  /** The data byte an edge takes from the inbound stream: one at step 0 while the
      stream is accepted, none otherwise. */
  function TakenAt(s: Regs, i: Inputs): seq<bv8>
  {
    if s.txb == 0 && !s.busy then [i.inPayload] else []
  }

  /** The bits driven onto SWDIO by the edges `ins`, up to leaving the sub-machine. */
  function Driven(s: Regs, ins: seq<Inputs>): seq<bool>
    decreases |ins|
  {
    if |ins| == 0 || s.phase != SwjSequenceProcess then []
    else DrivenAt(s, Next(s, ins[0])) + Driven(Next(s, ins[0]), ins[1..])
  }

  /** The data bytes taken by the edges `ins`, up to leaving the sub-machine. */
  function Taken(s: Regs, ins: seq<Inputs>): seq<bv8>
    decreases |ins|
  {
    if |ins| == 0 || s.phase != SwjSequenceProcess then []
    else TakenAt(s, ins[0]) + Taken(Next(s, ins[0]), ins[1..])
  }

  /** The state at which the run leaves the sub-machine, or its final state. */
  function SettleSwj(s: Regs, ins: seq<Inputs>): Regs
    decreases |ins|
  {
    if |ins| == 0 || s.phase != SwjSequenceProcess then s else SettleSwj(Next(s, ins[0]), ins[1..])
  }

  /** Bit `k` of a sequence is bit `k % 8` of data byte `k / 8`: least significant
      bit first. */
  predicate LsbFirst(d: seq<bool>, b: seq<bv8>)
  {
    (|d| + 7) / 8 <= |b| && forall k :: 0 <= k < |d| ==> d[k] == BitOf(b[k / 8], k % 8)
  }

  /** The sub-machine of a `c0`-bit sequence after driving the bits `d` taken from the
      bytes `b`: the counters agree with `|d|`, the data register holds the current
      byte shifted by the bits already sent from it, and `b` holds one byte per 8 bits
      begun. */
  predicate SwjInv(s: Regs, c0: int, d: seq<bool>, b: seq<bv8>)
  {
    var m := |d|;
    s.phase == SwjSequenceProcess && s.txb <= 3 && 1 <= c0 <= 256 &&
    s.xfer.transferCount + m == c0 && s.sq.bitcount == m % 8 && LsbFirst(d, b) &&
    (s.txb == 0 ==> m % 8 == 0 && |b| == m / 8 && s.xfer.transferCount >= 1) &&
    (s.txb == 1 ==> |b| == m / 8 + 1 && s.xfer.transferCount >= 1 && Low8(s.xfer.tfrData as int) == HalfN(b[|b| - 1], m % 8)) &&
    (s.txb >= 2 ==> m >= 1 && |b| == (m - 1) / 8 + 1 &&
                    (m % 8 != 0 ==> Low8(s.xfer.tfrData as int) == HalfN(b[|b| - 1], m % 8)))
  }

  /** What step 0 does, from `s` to `t`: exactly when the stream is accepted it takes
      a byte into the data register. */
  predicate MovesTake(s: Regs, t: Regs, i: Inputs)
  {
    t.phase == SwjSequenceProcess && t.xfer.transferCount == s.xfer.transferCount && t.sq.bitcount == s.sq.bitcount &&
    if s.busy then t.txb == 0 else t.txb == 1 && t.xfer.tfrData == i.inPayload as bv32
  }

  /** What step 1 does: the data register's low bit onto SWDIO, the register shifted,
      one bit counted. */
  predicate MovesDrive(s: Regs, t: Regs)
  {
    t.phase == SwjSequenceProcess && t.txb == 2 &&
    Swdio(t.eng.pinsin) == BitOf(Low8(s.xfer.tfrData as int), 0) &&
    t.xfer.tfrData == Half(Low8(s.xfer.tfrData as int)) as bv32 &&
    t.xfer.transferCount == (s.xfer.transferCount - 1) % 65536 && t.sq.bitcount == (s.sq.bitcount + 1) % 8
  }

  /** What steps 2 and 3 do: the counters and data stay; the step holds, or advances to
      the next bit, the next byte or, after the final bit, WaitDone. */
  predicate MovesWait(s: Regs, t: Regs)
  {
    var tc := s.xfer.transferCount;
    t.xfer.tfrData == s.xfer.tfrData && t.xfer.transferCount == tc && t.sq.bitcount == s.sq.bitcount &&
    ((t.phase == SwjSequenceProcess && t.txb == s.txb) ||
     (t.phase == SwjSequenceProcess && s.txb == 2 && t.txb == 3) ||
     (t.phase == SwjSequenceProcess && s.txb == 3 && tc != 0 && t.txb == (if s.sq.bitcount != 0 then 1 else 0)) ||
     (t.phase == WaitDone && s.txb == 3 && tc == 0))
  }

  lemma SwjRegs(s: Regs, i: Inputs)
    requires s.phase == SwjSequenceProcess && s.txb <= 3
    ensures s.txb == 0 ==> MovesTake(s, Next(s, i), i)
    ensures s.txb == 1 ==> MovesDrive(s, Next(s, i))
    ensures s.txb >= 2 ==> MovesWait(s, Next(s, i))
  {
  }

  /** A byte widened to 32 bits and cut back to 8 is itself. */
  lemma Low8Widened(x: bv8)
    ensures Low8((x as bv32) as int) == x
  {
    var v := (x as bv32) as int;
    assert v == x as int;
    assert v % 256 == v;
  }

  lemma SwjAfter(s: Regs, t: Regs, i: Inputs, c0: int, d: seq<bool>, b: seq<bv8>)
    requires SwjInv(s, c0, d, b)
    requires s.txb == 0 ==> MovesTake(s, t, i)
    requires s.txb == 1 ==> MovesDrive(s, t)
    requires s.txb >= 2 ==> MovesWait(s, t)
    ensures var d' := d + DrivenAt(s, t); var b' := b + TakenAt(s, i);
      if t.phase == SwjSequenceProcess then SwjInv(t, c0, d', b')
      else t.phase == WaitDone && |d'| == c0 && |b'| == (c0 + 7) / 8 && LsbFirst(d', b')
  {
    if s.txb == 0 {
      AfterTake(s, t, i, c0, d, b);
    } else if s.txb == 1 {
      AfterDrive(s, t, i, c0, d, b);
    } else {
      AfterWait(s, t, i, c0, d, b);
    }
  }

  /** Step 0 takes the next data byte, unshifted. */
  lemma AfterTake(s: Regs, t: Regs, i: Inputs, c0: int, d: seq<bool>, b: seq<bv8>)
    requires SwjInv(s, c0, d, b) && MovesTake(s, t, i) && s.txb == 0
    ensures SwjInv(t, c0, d, b + TakenAt(s, i))
  {
    if !s.busy {
      Low8Widened(i.inPayload);
      var b' := b + [i.inPayload];
      assert forall k :: 0 <= k < |d| ==> b'[k / 8] == b[k / 8];
    } else {
      assert b + [] == b;
    }
  }

  /** Step 1 drives the low bit of the shifted byte, bit `|d| % 8` of the current byte. */
  lemma AfterDrive(s: Regs, t: Regs, i: Inputs, c0: int, d: seq<bool>, b: seq<bv8>)
    requires SwjInv(s, c0, d, b) && MovesDrive(s, t) && s.txb == 1
    ensures SwjInv(t, c0, d + DrivenAt(s, t), b + TakenAt(s, i))
  {
    var m := |d|;
    var j := m % 8;
    var x := b[|b| - 1];
    HalfNBits(x, j, 0);
    Low8Widened(Half(Low8(s.xfer.tfrData as int)));
    assert Low8(t.xfer.tfrData as int) == HalfN(x, j + 1);
    DriveExtends(d, b, Swdio(t.eng.pinsin));
    NextBitCounts(m);
    Clocking(t, c0, d + [Swdio(t.eng.pinsin)], b);
    assert b + [] == b;
  }

  /** The counters one bit on. */
  lemma NextBitCounts(m: nat)
    ensures (m + 1) % 8 == (if m % 8 == 7 then 0 else m % 8 + 1)
    ensures (m + 1 + 7) / 8 == m / 8 + 1 && m / 8 == (m + 1 - 1) / 8
  {
  }

  /** The invariant at step 2 from its parts. */
  lemma Clocking(t: Regs, c0: int, d: seq<bool>, b: seq<bv8>)
    requires t.phase == SwjSequenceProcess && t.txb == 2 && 1 <= c0 <= 256 && |d| >= 1
    requires t.xfer.transferCount + |d| == c0 && t.sq.bitcount == |d| % 8 && LsbFirst(d, b)
    requires |b| == (|d| - 1) / 8 + 1
    requires |d| % 8 != 0 ==> Low8(t.xfer.tfrData as int) == HalfN(b[|b| - 1], |d| % 8)
    ensures SwjInv(t, c0, d, b)
  {
  }

  /** A bit that is the next one of the bytes keeps the order least significant first. */
  lemma DriveExtends(d: seq<bool>, b: seq<bv8>, bit: bool)
    requires LsbFirst(d, b) && |d| / 8 < |b| && bit == BitOf(b[|d| / 8], |d| % 8)
    ensures LsbFirst(d + [bit], b)
  {
    var d' := d + [bit];
    forall k | 0 <= k < |d'| ensures d'[k] == BitOf(b[k / 8], k % 8) {
      if k < |d| { assert d'[k] == d[k]; }
    }
  }

  /** Steps 2 and 3 drive and take nothing; step 3 moves on to the next bit, the next
      byte or, after the final bit, WaitDone. */
  lemma AfterWait(s: Regs, t: Regs, i: Inputs, c0: int, d: seq<bool>, b: seq<bv8>)
    requires SwjInv(s, c0, d, b) && MovesWait(s, t) && s.txb >= 2
    ensures if t.phase == SwjSequenceProcess then SwjInv(t, c0, d + DrivenAt(s, t), b + TakenAt(s, i))
      else t.phase == WaitDone && |d| == c0 && |b| == (c0 + 7) / 8 && LsbFirst(d, b) &&
           d + DrivenAt(s, t) == d && b + TakenAt(s, i) == b
  {
    assert d + [] == d && b + [] == b;
  }

  /** One edge keeps the invariant, with the bit it drives and the byte it takes
      appended, or leaves for WaitDone with the whole sequence driven. */
  lemma SwjEdge(s: Regs, i: Inputs, c0: int, d: seq<bool>, b: seq<bv8>)
    requires SwjInv(s, c0, d, b)
    ensures var t := Next(s, i); var d' := d + DrivenAt(s, t); var b' := b + TakenAt(s, i);
      if t.phase == SwjSequenceProcess then SwjInv(t, c0, d', b')
      else t.phase == WaitDone && |d'| == c0 && |b'| == (c0 + 7) / 8 && LsbFirst(d', b')
  {
    SwjRegs(s, i);
    SwjAfter(s, Next(s, i), i, c0, d, b);
  }

  /** A run's first edge contributes its bit and its byte ahead of the rest of the run. */
  lemma DrivenCons(s: Regs, ins: seq<Inputs>)
    requires |ins| > 0 && s.phase == SwjSequenceProcess
    ensures Driven(s, ins) == DrivenAt(s, Next(s, ins[0])) + Driven(Next(s, ins[0]), ins[1..])
  {
  }

  lemma TakenCons(s: Regs, ins: seq<Inputs>)
    requires |ins| > 0 && s.phase == SwjSequenceProcess
    ensures Taken(s, ins) == TakenAt(s, ins[0]) + Taken(Next(s, ins[0]), ins[1..])
  {
  }

  lemma RunCons(s: Regs, ins: seq<Inputs>, d: seq<bool>, b: seq<bv8>)
    requires |ins| > 0 && s.phase == SwjSequenceProcess
    ensures var t := Next(s, ins[0]);
      d + Driven(s, ins) == (d + DrivenAt(s, t)) + Driven(t, ins[1..]) &&
      b + Taken(s, ins) == (b + TakenAt(s, ins[0])) + Taken(t, ins[1..])
  {
    var t := Next(s, ins[0]);
    DrivenCons(s, ins);
    TakenCons(s, ins);
    Assoc(d, DrivenAt(s, t), Driven(t, ins[1..]));
    Assoc(b, TakenAt(s, ins[0]), Taken(t, ins[1..]));
  }

  lemma Assoc<T>(a: seq<T>, x: seq<T>, y: seq<T>)
    ensures a + (x + y) == (a + x) + y
  {
  }

  /** Over any run the bits driven onto SWDIO are the data bytes' bits, least
      significant first, never more than the sequence's count; when the sub-machine
      is left, it is for WaitDone, with all `c0` bits driven from `(c0 + 7) / 8` bytes. */
  lemma {:induction false} SwjDrives(s: Regs, ins: seq<Inputs>, c0: int, d: seq<bool>, b: seq<bv8>)
    requires SwjInv(s, c0, d, b)
    ensures var dd := d + Driven(s, ins); var bb := b + Taken(s, ins);
      |dd| <= c0 && LsbFirst(dd, bb) &&
      (SettleSwj(s, ins).phase != SwjSequenceProcess ==>
        SettleSwj(s, ins).phase == WaitDone && |dd| == c0 && |bb| == (c0 + 7) / 8)
    decreases |ins|
  {
    if |ins| == 0 {
      assert d + [] == d && b + [] == b;
    } else {
      var t := Next(s, ins[0]);
      SwjEdge(s, ins[0], c0, d, b);
      if t.phase == SwjSequenceProcess {
        SwjDrives(t, ins[1..], c0, d + DrivenAt(s, t), b + TakenAt(s, ins[0]));
      }
      SwjDrivesCons(s, ins, c0, d, b);
    }
  }

  /** The step of `SwjDrives`: its statement for a run follows from the first edge's
      and from its statement for the rest of the run. */
  lemma SwjDrivesCons(s: Regs, ins: seq<Inputs>, c0: int, d: seq<bool>, b: seq<bv8>)
    requires |ins| > 0 && s.phase == SwjSequenceProcess
    requires var t := Next(s, ins[0]); var d' := d + DrivenAt(s, t); var b' := b + TakenAt(s, ins[0]);
      if t.phase == SwjSequenceProcess then
        var dd := d' + Driven(t, ins[1..]); var bb := b' + Taken(t, ins[1..]);
        |dd| <= c0 && LsbFirst(dd, bb) &&
        (SettleSwj(t, ins[1..]).phase != SwjSequenceProcess ==>
          SettleSwj(t, ins[1..]).phase == WaitDone && |dd| == c0 && |bb| == (c0 + 7) / 8)
      else t.phase == WaitDone && |d'| == c0 && |b'| == (c0 + 7) / 8 && LsbFirst(d', b')
    ensures var dd := d + Driven(s, ins); var bb := b + Taken(s, ins);
      |dd| <= c0 && LsbFirst(dd, bb) &&
      (SettleSwj(s, ins).phase != SwjSequenceProcess ==>
        SettleSwj(s, ins).phase == WaitDone && |dd| == c0 && |bb| == (c0 + 7) / 8)
  {
    var t := Next(s, ins[0]);
    RunCons(s, ins, d, b);
    if t.phase != SwjSequenceProcess {
      var d' := d + DrivenAt(s, t);
      var b' := b + TakenAt(s, ins[0]);
      assert d' + [] == d' && b' + [] == b';
    }
  }

  /** The dispatch edge of a complete DAP_SWJ_Sequence frame starts a sequence of
      `count` bits, a count of 0 meaning 256. */
  lemma SwjEntered(s: Regs, j: Inputs)
    requires s.phase == RxParams && s.frame.rxedLen == s.frame.rxLen && s.frame.rxBlock[0] == DAP_SWJ_Sequence
    ensures var c := if s.frame.rxBlock[1] == 0 then 256 else s.frame.rxBlock[1] as int;
      SwjInv(Next(s, j), c, [], [])
  {
  }

  /** DAP_SWJ_Sequence from its dispatch: whatever the inputs, the bits driven onto
      SWDIO are bits `0 .. count - 1` of the data bytes taken, least significant first,
      where a count of 0 means 256; when the sub-machine is left, it is for WaitDone,
      with exactly `count` bits driven from `(count + 7) / 8` data bytes. */
  lemma SwjSequenceBits(s: Regs, j: Inputs, ins: seq<Inputs>)
    requires s.phase == RxParams && s.frame.rxedLen == s.frame.rxLen && s.frame.rxBlock[0] == DAP_SWJ_Sequence
    ensures var c := if s.frame.rxBlock[1] == 0 then 256 else s.frame.rxBlock[1] as int;
      var t := Next(s, j); var d := Driven(t, ins); var b := Taken(t, ins);
      |d| <= c && LsbFirst(d, b) &&
      (SettleSwj(t, ins).phase != SwjSequenceProcess ==> SettleSwj(t, ins).phase == WaitDone && |d| == c && |b| == (c + 7) / 8)
  {
    var c := if s.frame.rxBlock[1] == 0 then 256 else s.frame.rxBlock[1] as int;
    var t := Next(s, j);
    SwjEntered(s, j);
    SwjDrives(t, ins, c, [], []);
    assert [] + Driven(t, ins) == Driven(t, ins) && [] + Taken(t, ins) == Taken(t, ins);
  }
}
