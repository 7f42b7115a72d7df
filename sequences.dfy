/** DAP_SWJ_Sequence and DAP_JTAG_Sequence: bit sequences clocked out one bit per
    engine handshake (SWJ) or one bit per edge (JTAG), taking the data bytes from
    the inbound stream as they are needed. */
module DapSequences {
  import opened Bits
  import opened DapState

  /** The byte shifted right by one (`x[1:8]`, zero-filled). */
  function Half(b: bv8): (r: bv8)
    ensures forall k :: 0 <= k < 7 ==> BitOf(r, k) == BitOf(b, k + 1)
    ensures !BitOf(r, 7)
  {
    b >> 1
  }

  /** `b` after `j` shifts. */
  function HalfN(b: bv8, j: nat): bv8
  {
    if j == 0 then b else Half(HalfN(b, j - 1))
  }

  /** After `j` shifts, bit `k` holds what was bit `j + k`: the bits of a byte leave
      through bit 0 least significant first. */
  lemma {:induction false} HalfNBits(b: bv8, j: nat, k: nat)
    requires j + k < 8
    ensures BitOf(HalfN(b, j), k) == BitOf(b, j + k)
  {
    if j > 0 {
      HalfNBits(b, j - 1, k + 1);
    }
  }

  // ---------------------------------------------------------------- DAP_SWJ_Sequence

  /** Setup: `<0x12> <count>`, a count of 0 meaning 256 bits. The engine is set up
      to drive the pins directly (`pinsin` 0xFF10). */
  function SwjSequenceSetup(s: Regs, n: Regs): (r: Regs)
    ensures r.xfer.transferCount == (if s.frame.rxBlock[1] == 0 then 256 else s.frame.rxBlock[1] as int)
    ensures 1 <= r.xfer.transferCount <= 256
    ensures r.eng == n.eng.(dwrite := 0, pinsin := 0xFF10, command := CMD_PINS_WRITE)
    ensures r.txb == 0 && r.sq.bitcount == 0 && r.phase == SwjSequenceProcess && r.reply == n.reply
  {
    var count := s.frame.rxBlock[1];
    n.(xfer := n.xfer.(transferCount := if count != 0 then count as int else 256),
       eng := n.eng.(dwrite := 0, pinsin := 0xFF10, command := CMD_PINS_WRITE),
       sq := n.sq.(bitcount := 0), txb := 0, phase := SwjSequenceProcess)
  }

  /** The 16-bit `pinsin` with bits 0..1 replaced by `b0` and `b1`. */
  function SetPins(p: bv16, b0: bool, b1: bool): (r: bv16)
    ensures r & 0xFFFC == p & 0xFFFC
    ensures r & 3 == (if b0 then 1 else 0) | (if b1 then 2 else 0)
  {
    (p & 0xFFFC) | (if b0 then 1 else 0) | (if b1 then 2 else 0)
  }

  /** One edge of DAP_SWJ_Sequence. Step 0 takes a data byte; step 1 puts its next bit
      on the data pin with the clock low; step 2 raises the clock once the engine has
      taken that; step 3 waits for it again, then moves to the next bit, the next byte
      (after 8 bits) or, after the last bit, to WaitDone. */
  function SwjSequenceStep(s: Regs, n: Regs, i: Inputs): (r: Regs)
    ensures s.txb == 0 && !s.busy ==>
      r.xfer.tfrData == i.inPayload as bv32 && r.txb == 1 && r.busy
    ensures s.txb == 1 ==>
      r.eng.pinsin == SetPins(n.eng.pinsin, false, BitOf(Low8(s.xfer.tfrData as int), 0)) &&
      r.xfer.tfrData == Half(Low8(s.xfer.tfrData as int)) as bv32 && r.eng.go &&
      r.xfer.transferCount == (s.xfer.transferCount - 1) % 65536 && r.sq.bitcount == (s.sq.bitcount + 1) % 8 &&
      r.txb == 2
    ensures s.txb in {2, 3} && !DbgDone(s) ==> !r.eng.go && r.txb == n.txb && r.phase == n.phase
    ensures s.txb == 2 && !s.eng.go && DbgDone(s) ==>
      r.eng.pinsin == SetPins(n.eng.pinsin, true, n.eng.pinsin & 2 != 0) && r.eng.go && r.txb == 3
    ensures s.txb == 3 && !s.eng.go && DbgDone(s) ==>
      if s.xfer.transferCount != 0 then r.txb == (if s.sq.bitcount != 0 then 1 else 0) && r.phase == n.phase
      else r.phase == WaitDone && r.txb == n.txb
  {
    if s.txb == 0 then
      if !s.busy then n.(xfer := n.xfer.(tfrData := i.inPayload as bv32), txb := 1, busy := true)
      else n.(busy := false)
    else if s.txb == 1 then
      var d := Low8(s.xfer.tfrData as int);
      n.(eng := n.eng.(pinsin := SetPins(n.eng.pinsin, false, BitOf(d, 0)), go := true),
         xfer := n.xfer.(tfrData := Half(d) as bv32, transferCount := (s.xfer.transferCount - 1) % 65536),
         sq := n.sq.(bitcount := (s.sq.bitcount + 1) % 8), txb := 2)
    else if s.txb == 2 || s.txb == 3 then
      var n := if !DbgDone(s) then n.(eng := n.eng.(go := false)) else n;
      if !s.eng.go && DbgDone(s) then
        if s.txb == 2 then
          n.(eng := n.eng.(pinsin := SetPins(n.eng.pinsin, true, n.eng.pinsin & 2 != 0), go := true), txb := 3)
        else if s.xfer.transferCount != 0 then n.(txb := if s.sq.bitcount != 0 then 1 else 0)
        else n.(phase := WaitDone)
      else n
    else n
  }

  // ---------------------------------------------------------------- DAP_JTAG_Sequence

  /** `(tdoCount + 7) & 0x78`: round the TDO bit position up to a byte boundary, in
      the 7-bit register. */
  function RoundUp(t: U7): (r: U7)
    ensures r % 8 == 0
    ensures t <= 120 ==> t <= r < t + 8
    ensures t > 120 ==> r == 0
  {
    ((t + 7) / 8 * 8) % 128
  }

  /** Rounding up is idempotent. */
  lemma RoundUpIdempotent(t: U7)
    ensures RoundUp(RoundUp(t)) == RoundUp(t)
  {
  }

  /** Setup: `<0x14> <count>`. TDO bits are stored from bit 16 of the response
      (after the opcode and status bytes), which is cleared. */
  function JtagSequenceSetup(s: Regs, n: Regs): (r: Regs)
    ensures r.sq.seqCount == s.frame.rxBlock[1] as int && r.sq.tdoCount == 16 && r.txb == 0
    ensures r.reply.txBlock[..2] == n.reply.txBlock[..2] && r.reply.txBlock[2..] == seq(12, _ => 0)
    ensures r.reply.txLen == n.reply.txLen && r.phase == JtagSequenceProcess
  {
    var b := PutBytes(n.reply.txBlock, 2, seq(12, _ => 0));
    assert b[2..] == b[2..14];
    WithTx(n, b).(sq := n.sq.(seqCount := s.frame.rxBlock[1] as int, tdoCount := 16), txb := 0, phase := JtagSequenceProcess)
  }

  /** The number of bits of the current byte: `tckCycles`, where 0 and more than 8
      mean a full byte. */
  function ByteBits(tck: U6): (r: U4)
    ensures 1 <= r <= 8
    ensures r == (if tck == 0 || tck > 7 then 8 else tck)
  {
    if tck == 0 || tck > 7 then 8 else tck
  }

  /** Step 0: take a sequence's info byte (cycle count, TMS, TDO capture) and round
      the TDO bit position up to a byte boundary, in case the previous sequence
      captured a part byte. */
  function TakeInfo(s: Regs, n: Regs, i: Inputs): (r: Regs)
    ensures r.sq.tdoCount == RoundUp(s.sq.tdoCount) && !r.busy && r.phase == n.phase
    ensures !s.busy ==>
      r.sq.tckCycles == (i.inPayload & 0x3F) as int && r.sq.tmsValue == BitOf(i.inPayload, 6) &&
      r.sq.tdoCapture == BitOf(i.inPayload, 7) && r.txb == 1
    ensures s.busy ==> r.sq == n.sq.(tdoCount := RoundUp(s.sq.tdoCount)) && r.txb == n.txb
    ensures r.sq.seqCount == n.sq.seqCount && r.reply == n.reply
  {
    var n := n.(busy := false);
    var p := i.inPayload;
    var n := if !s.busy then
      n.(sq := n.sq.(tckCycles := (p & 0x3F) as int, tmsValue := BitOf(p, 6), tdoCapture := BitOf(p, 7)), txb := 1)
    else n;
    n.(sq := n.sq.(tdoCount := RoundUp(s.sq.tdoCount)))
  }

  /** Step 1: take a TDI byte and the number of its bits to clock. */
  function TakeTdi(s: Regs, n: Regs, i: Inputs): (r: Regs)
    ensures r.phase == n.phase && r.sq.tckCycles == n.sq.tckCycles && r.sq.seqCount == n.sq.seqCount
    ensures r.sq.tdoCount == n.sq.tdoCount && r.reply == n.reply
    ensures s.busy ==> !r.busy && r.txb == n.txb
    ensures !s.busy ==> r.sq.tdiData == i.inPayload && r.txb == 2 && r.busy && r.sq.bytebits == ByteBits(s.sq.tckCycles)
  {
    var n := n.(busy := false);
    if !s.busy then
      n.(sq := n.sq.(tdiData := i.inPayload, bytebits := ByteBits(s.sq.tckCycles)), txb := 2, busy := true)
    else n
  }

  /** The response block after clocking one bit: when capturing, the bit at the TDO
      position is set to a placeholder (whether this is the byte's last bit), not to
      the target's TDO. */
  function CaptureTdo(q: SeqCtx, tx: Bytes14): (r: Bytes14)
    ensures q.tdoCapture && q.tdoCount / 8 < 14 ==> BitAt(r, q.tdoCount) == (q.bytebits == 1)
    ensures !q.tdoCapture ==> r == tx
  {
    if q.tdoCapture then SetBitAt(tx, q.tdoCount, q.bytebits == 1) else tx
  }

  /** The sequence context after clocking one bit, the registers this step does not
      assign taken from `nq`. */
  function ClockedCtx(q: SeqCtx, nq: SeqCtx): (r: SeqCtx)
    requires 1 <= q.seqCount
    ensures r.tckCycles == (q.tckCycles - 1) % 64 && r.bytebits == (q.bytebits - 1) % 16
    ensures r.tdiData == q.tdiData >> 1
    ensures r.seqCount == (if q.tckCycles == 1 then q.seqCount - 1 else nq.seqCount)
    ensures r.tdoCount == (if q.tdoCapture then (q.tdoCount + 1) % 128 else nq.tdoCount)
    ensures r.tmsValue == nq.tmsValue && r.tdoCapture == nq.tdoCapture && r.bitcount == nq.bitcount
  {
    nq.(tckCycles := (q.tckCycles - 1) % 64, bytebits := (q.bytebits - 1) % 16,
        tdoCount := if q.tdoCapture then (q.tdoCount + 1) % 128 else nq.tdoCount,
        tdiData := q.tdiData >> 1,
        seqCount := if q.tckCycles == 1 then q.seqCount - 1 else nq.seqCount)
  }

  /** Step 2: clock one bit; after the sequence's last bit take the next info byte,
      after a byte's last bit the next TDI byte. */
  function ClockBit(s: Regs, n: Regs): (r: Regs)
    requires 1 <= s.sq.seqCount
    ensures r.sq == ClockedCtx(s.sq, n.sq)
    ensures r.txb == (if s.sq.tckCycles == 1 then 0 else if s.sq.bytebits == 1 then 1 else n.txb)
    ensures r.reply == n.reply.(txBlock := CaptureTdo(s.sq, n.reply.txBlock))
    ensures r.phase == n.phase && r.busy == n.busy
  {
    var q := s.sq;
    n.(reply := n.reply.(txBlock := CaptureTdo(q, n.reply.txBlock)), sq := ClockedCtx(q, n.sq),
       txb := if q.tckCycles == 1 then 0 else if q.bytebits == 1 then 1 else n.txb)
  }

  /** One edge of DAP_JTAG_Sequence. With no sequence left it answers, with as many
      bytes as the TDO bits reach. */
  function JtagSequenceStep(s: Regs, n: Regs, i: Inputs): (r: Regs)
    ensures s.sq.seqCount == 0 ==>
      r.phase == Respond && !r.busy && r.reply.txLen == (s.sq.tdoCount + 7) / 8 && r.reply.txBlock == n.reply.txBlock
  {
    var n := n.(busy := true);
    if s.sq.seqCount == 0 then
      WithTxLen(n, n.reply.txBlock, (s.sq.tdoCount + 7) / 8).(busy := false, phase := Respond)
    else if s.txb == 0 then TakeInfo(s, n, i)
    else if s.txb == 1 then TakeTdi(s, n, i)
    else if s.txb == 2 then ClockBit(s, n)
    else n
  }
}
