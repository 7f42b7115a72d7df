/** Properties of DAP_JTAG_Sequence over runs of edges. */
module DapJtagProps {
  import opened Bits
  import opened DapState
  import opened DapSequences
  import opened DapEngine

  /** The bit-steps a sequence's 6-bit cycle count stands for: 0 means 64, because
      the counter is decremented before it is compared with 1 and wraps. */
  function Cycles(tck: U6): (c: int)
    ensures 1 <= c <= 64
  {
    if tck == 0 then 64 else tck
  }

  /** Inside one sequence's body: fetching a TDI byte (1) or clocking its bits (2),
      the bits of the current byte never more than those of the sequence. */
  predicate InSequence(s: Regs)
  {
    s.phase == JtagSequenceProcess && s.sq.seqCount >= 1 && s.txb in {1, 2} &&
    (s.txb == 2 ==> 1 <= s.sq.bytebits <= 8 && s.sq.bytebits <= Cycles(s.sq.tckCycles))
  }

  /** The bit-steps the current sequence still makes. */
  function ClocksLeft(s: Regs): int
  {
    Cycles(s.sq.tckCycles)
  }

  /** The TDI bytes the current sequence still takes: one per 8 bits not covered by
      the byte being clocked. */
  function FetchesLeft(s: Regs): int
  {
    var c := Cycles(s.sq.tckCycles);
    if s.txb == 1 then (c + 7) / 8 else (c - s.sq.bytebits + 7) / 8
  }

  /** The bit-steps (step 2 edges) of the run, up to the end of the sequence. */
  function Clocks(s: Regs, ins: seq<Inputs>): (c: nat)
    decreases |ins|
  {
    if |ins| == 0 || !InSequence(s) then 0
    else (if s.txb == 2 then 1 else 0) + Clocks(Next(s, ins[0]), ins[1..])
  }

  /** The TDI bytes taken by the run (step 1 edges with the stream ready), up to the
      end of the sequence. */
  function Fetches(s: Regs, ins: seq<Inputs>): (c: nat)
    decreases |ins|
  {
    if |ins| == 0 || !InSequence(s) then 0
    else (if s.txb == 1 && !s.busy then 1 else 0) + Fetches(Next(s, ins[0]), ins[1..])
  }

  /** The state at which the run leaves the sequence, or its final state. */
  function SettleSequence(s: Regs, ins: seq<Inputs>): Regs
    decreases |ins|
  {
    if |ins| == 0 || !InSequence(s) then s else SettleSequence(Next(s, ins[0]), ins[1..])
  }

  /** One edge inside a sequence: a clock uses up one bit of the sequence and of the
      byte; a fetch loads a byte of `min(8, bits left)` bits; the clock of the final
      bit ends the sequence. */
  lemma SequenceEdge(s: Regs, i: Inputs)
    requires InSequence(s)
    ensures var t := Next(s, i);
      t.phase == JtagSequenceProcess &&
      if InSequence(t) then
        t.sq.seqCount == s.sq.seqCount &&
        ClocksLeft(t) == ClocksLeft(s) - (if s.txb == 2 then 1 else 0) &&
        FetchesLeft(t) == FetchesLeft(s) - (if s.txb == 1 && !s.busy then 1 else 0)
      else
        s.txb == 2 && ClocksLeft(s) == 1 && FetchesLeft(s) == 0 &&
        t.txb == 0 && t.sq.seqCount == s.sq.seqCount - 1
  {
    var t := Next(s, i);
    SequenceRegs(s, i);
    if s.txb == 1 {
      AfterFetch(s, t);
    } else {
      AfterClock(s, t);
    }
  }

  /** The registers after one edge inside a sequence. */
  lemma SequenceRegs(s: Regs, i: Inputs)
    requires InSequence(s)
    ensures var t := Next(s, i);
      t.phase == JtagSequenceProcess &&
      (s.txb == 1 ==>
        t.sq.tckCycles == s.sq.tckCycles && t.sq.seqCount == s.sq.seqCount &&
        t.txb == (if s.busy then 1 else 2) && (!s.busy ==> t.sq.bytebits == ByteBits(s.sq.tckCycles))) &&
      (s.txb == 2 ==>
        t.sq == ClockedCtx(s.sq, s.sq) &&
        t.txb == (if s.sq.tckCycles == 1 then 0 else if s.sq.bytebits == 1 then 1 else 2))
  {
  }

  lemma AfterFetch(s: Regs, t: Regs)
    requires InSequence(s) && s.txb == 1
    requires t.phase == JtagSequenceProcess && t.sq.tckCycles == s.sq.tckCycles && t.sq.seqCount == s.sq.seqCount &&
      t.txb == (if s.busy then 1 else 2) && (!s.busy ==> t.sq.bytebits == ByteBits(s.sq.tckCycles))
    ensures InSequence(t) && t.sq.seqCount == s.sq.seqCount && ClocksLeft(t) == ClocksLeft(s) &&
      FetchesLeft(t) == FetchesLeft(s) - (if !s.busy then 1 else 0)
  {
  }

  lemma AfterClock(s: Regs, t: Regs)
    requires InSequence(s) && s.txb == 2
    requires t.phase == JtagSequenceProcess && t.sq == ClockedCtx(s.sq, s.sq) &&
      t.txb == (if s.sq.tckCycles == 1 then 0 else if s.sq.bytebits == 1 then 1 else 2)
    ensures if InSequence(t) then
        t.sq.seqCount == s.sq.seqCount && ClocksLeft(t) == ClocksLeft(s) - 1 && FetchesLeft(t) == FetchesLeft(s)
      else
        ClocksLeft(s) == 1 && FetchesLeft(s) == 0 && t.txb == 0 && t.sq.seqCount == s.sq.seqCount - 1
  {
  }

  /** Whatever the inbound stream does, a sequence makes at most `ClocksLeft` bit-steps
      and takes at most `FetchesLeft` TDI bytes; when it ends it has made exactly that many,
      and the next sequence's info byte is due. */
  lemma {:induction false} SequenceSteps(s: Regs, ins: seq<Inputs>)
    requires InSequence(s)
    ensures Clocks(s, ins) <= ClocksLeft(s) && Fetches(s, ins) <= FetchesLeft(s)
    ensures var t := SettleSequence(s, ins);
      !InSequence(t) ==>
        Clocks(s, ins) == ClocksLeft(s) && Fetches(s, ins) == FetchesLeft(s) &&
        t.phase == JtagSequenceProcess && t.txb == 0 && t.sq.seqCount == s.sq.seqCount - 1
    decreases |ins|
  {
    if |ins| > 0 {
      var t := Next(s, ins[0]);
      SequenceEdge(s, ins[0]);
      if InSequence(t) {
        SequenceSteps(t, ins[1..]);
      }
    }
  }

  /** The info byte starts a sequence of `Cycles(info & 0x3F)` bit-steps in
      `(Cycles + 7) / 8` TDI bytes; a field of 0 means 64 bit-steps in 8 bytes. */
  lemma SequenceFromInfo(s: Regs, i: Inputs, ins: seq<Inputs>)
    requires s.phase == JtagSequenceProcess && s.sq.seqCount >= 1 && s.txb == 0 && !s.busy
    ensures var t := Next(s, i); var c := Cycles((i.inPayload & 0x3F) as int);
      InSequence(t) && Clocks(t, ins) <= c && Fetches(t, ins) <= (c + 7) / 8 &&
      (!InSequence(SettleSequence(t, ins)) ==> Clocks(t, ins) == c && Fetches(t, ins) == (c + 7) / 8)
    ensures i.inPayload & 0x3F == 0 ==>
      var t := Next(s, i);
      !InSequence(SettleSequence(t, ins)) ==> Clocks(t, ins) == 64 && Fetches(t, ins) == 8
  {
    SequenceSteps(Next(s, i), ins);
  }

  /** DAP_JTAG_Sequence with no sequences answers two bytes, the opcode and the status
      byte, on the edge after its setup: the TDO position starts at bit 16. */
  lemma EmptySequenceList(s: Regs, i: Inputs, j: Inputs)
    requires s.phase == RxParams && s.frame.rxedLen == s.frame.rxLen
    requires s.frame.rxBlock[0] == DAP_JTAG_Sequence && s.frame.rxBlock[1] == 0
    ensures var t := Next(s, i);
      t.phase == JtagSequenceProcess && t.sq.seqCount == 0 && t.sq.tdoCount == 16
    ensures var u := Next(Next(s, i), j);
      u.phase == Respond && !u.busy && u.reply.txLen == 2 && u.reply.txedLen == s.reply.txedLen
  {
    SequenceSetupEdge(s, i);
    NoSequenceLeftEdge(Next(s, i), j);
  }

  lemma SequenceSetupEdge(s: Regs, i: Inputs)
    requires s.phase == RxParams && s.frame.rxedLen == s.frame.rxLen
    requires s.frame.rxBlock[0] == DAP_JTAG_Sequence
    ensures var t := Next(s, i);
      t.phase == JtagSequenceProcess && t.sq.seqCount == s.frame.rxBlock[1] as int && t.sq.tdoCount == 16 &&
      t.txb == 0 && t.reply.txedLen == s.reply.txedLen
  {
  }

  /** With no sequence left the command answers as many bytes as the TDO bits reach. */
  lemma NoSequenceLeftEdge(t: Regs, j: Inputs)
    requires t.phase == JtagSequenceProcess && t.sq.seqCount == 0
    ensures var u := Next(t, j);
      u.phase == Respond && !u.busy && u.reply.txLen == (t.sq.tdoCount + 7) / 8 && u.reply.txedLen == t.reply.txedLen
  {
  }
}
