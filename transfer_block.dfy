/** DAP_TransferBlock: `<0x06> <index> <count:2> <request> count x [<data:4>]`. One
    request byte applies to every element. The sub-machine takes the data word of
    a write (0..3), has the engine execute the element (4..6), and finally streams
    the four header bytes (7..10) and, for a read, the words in the RAM (11..15). */
module DapTransferBlock {
  import opened Bits
  import opened DapState
  import DapTransfer

  /** Response bytes 1..2: the 16-bit count of elements issued, little-endian. */
  function IssuedCount(tx: Bytes14): bv16
  {
    (tx[1] as bv16) | ((tx[2] as bv16) << 8)
  }

  function SetIssuedCount(tx: Bytes14, c: bv16): (r: Bytes14)
    ensures IssuedCount(r) == c
    ensures r[0] == tx[0] && r[3..] == tx[3..]
  {
    var r := PutBytes(tx, 1, LE16(c));
    assert r[1] == LE16(c)[0] && r[2] == LE16(c)[1];
    r
  }

  /** The registers every setup assigns: the request byte's fields go straight to the
      engine's registers, the element count is taken, the issued count cleared. Which
      step comes first depends on bit 33 of the 8-bit `tfrReq`, which does not exist:
      that value is the input `undefBit`. */
  function SetupRegs(s: Regs, n: Regs, i: Inputs): (r: Regs)
    ensures var rx := s.frame.rxBlock;
      r.xfer.dapIndex == rx[1] && r.xfer.transferCount == rx[2] as int + 256 * rx[3] as int &&
      r.xfer.retries == 0 && r.ram.adr == 0 && r.eng.go == n.eng.go && r.eng.command == CMD_TRANSACT &&
      r.eng.apndp == BitOf(rx[4], 0) && r.eng.rnw == BitOf(rx[4], 1) && r.eng.addr32 == ((rx[4] >> 2) & 3) as int &&
      r.txb == (if i.undefBit then 4 else 0)
    ensures IssuedCount(r.reply.txBlock) == 0 && r.reply.txBlock[0] == n.reply.txBlock[0]
    ensures r.reply.txLen == n.reply.txLen && r.phase == n.phase
  {
    var rx := s.frame.rxBlock;
    WithTx(n, SetIssuedCount(n.reply.txBlock, 0)).(
      ram := n.ram.(adr := 0),
      eng := n.eng.(command := CMD_TRANSACT, apndp := BitOf(rx[4], 0), rnw := BitOf(rx[4], 1),
                    addr32 := ((rx[4] >> 2) & 3) as int),
      xfer := n.xfer.(retries := 0, dapIndex := rx[1], transferCount := rx[2] as int + 256 * rx[3] as int),
      txb := if i.undefBit then 4 else 0)
  }

  /** Setup: the registers of `SetupRegs`; a count of 0 answers at once. */
  function TransferBlockSetup(s: Regs, n: Regs, i: Inputs): (r: Regs)
    ensures var b := SetupRegs(s, n, i);
      r.xfer == b.xfer && r.eng == b.eng && r.ram == b.ram && r.txb == b.txb && r.reply.txBlock[0] == n.reply.txBlock[0]
    ensures var count := s.frame.rxBlock[2] as int + 256 * s.frame.rxBlock[3] as int;
      (count != 0 ==> r.phase == TransferBlockProcess && IssuedCount(r.reply.txBlock) == 0 && r.reply.txLen == n.reply.txLen) &&
      (count == 0 ==> r.phase == Respond && r.reply.txLen == 4 && r.reply.txBlock[1..4] == [1, 0, 0])
  {
    var b := SetupRegs(s, n, i);
    if s.frame.rxBlock[2] as int + 256 * s.frame.rxBlock[3] as int != 0 then b.(phase := TransferBlockProcess)
    else WithTxLen(b, PutBytes(b.reply.txBlock, 1, [1, 0, 0]), 4).(phase := Respond)
  }

  /** Steps 0..3: data byte `txb` of a write element. */
  function TakeData(s: Regs, n: Regs, i: Inputs): (r: Regs)
    requires s.txb <= 3
    ensures s.busy ==> r == n.(busy := false)
    ensures !s.busy ==>
      WordByte(r.xfer.tfrData, s.txb) == i.inPayload &&
      (forall k :: 0 <= k < 4 && k != s.txb ==> WordByte(r.xfer.tfrData, k) == WordByte(n.xfer.tfrData, k)) &&
      r.txb == s.txb + 1 && r.busy == n.busy
  {
    if !s.busy then n.(xfer := n.xfer.(tfrData := SetWordByte(n.xfer.tfrData, s.txb, i.inPayload)), txb := s.txb + 1)
    else n.(busy := false)
  }

  /** Step 4: issue the element, counting it in response bytes 1..2 and in `retries`. */
  function IssueElement(s: Regs, n: Regs): (r: Regs)
    ensures IssuedCount(r.reply.txBlock) == IssuedCount(s.reply.txBlock) + 1
    ensures r.eng == n.eng.(dwrite := s.xfer.tfrData, go := true)
    ensures r.xfer.retries == (s.xfer.retries + 1) % 65536 && r.txb == 5
    ensures r.phase == n.phase && r.ram == n.ram
  {
    WithTx(n, SetIssuedCount(n.reply.txBlock, IssuedCount(s.reply.txBlock) + 1)).(
      eng := n.eng.(dwrite := s.xfer.tfrData, go := true),
      xfer := n.xfer.(retries := (s.xfer.retries + 1) % 65536), txb := 5)
  }

  /** Step 6 once done is seen: record ack/perr in response byte 3 and decide between
      re-issuing (4 or 5), the next element (0 or 4), a posted-mode RDBUFF read (4) and
      the response (7). */
  function Complete(s: Regs, n: Regs, i: Inputs): (r: Regs)
    ensures r.reply.txBlock[3] & 7 == i.ack as bv8
    ensures i.ack == 2 ==>
      r.txb == (if s.xfer.retries < s.session.waitRetry then 4 else 7) &&
      r.xfer == n.xfer && r.ram.adr == n.ram.adr && r.eng == n.eng
    ensures i.ack != 2 && i.again ==>
      r.txb == 5 && r.eng == n.eng.(go := true) && r.xfer == n.xfer.(retries := 0) &&
      r.ram.adr == (if !i.ignoreData && s.eng.rnw then (s.ram.adr + 1) % 4096 else n.ram.adr)
    ensures i.ack != 2 && !i.again ==> r == NextElement(s, Acknowledge(s, n, i), i)
    ensures r.txb in {0, 4, 5, 7}
    ensures r.phase == n.phase && r.session == n.session && r.reply.txLen == n.reply.txLen
  {
    var c := Acknowledge(s, n, i);
    if i.ack == 2 then c.(txb := if s.xfer.retries < s.session.waitRetry then 4 else 7)
    else if i.again then c.(xfer := c.xfer.(retries := 0), eng := c.eng.(go := true), txb := 5)
    else NextElement(s, c, i)
  }

  /** Response byte 3 set to the acknowledgement; the issued count is kept. */
  function AckRecorded(tx: Bytes14, ack: bv3, perr: bool): (r: Bytes14)
    ensures r[3] & 7 == ack as bv8 && IssuedCount(r) == IssuedCount(tx)
  {
    var r := PutByte(tx, 3, AckByte(ack, perr));
    assert r[1] == tx[1] && r[2] == tx[2] && r[3] == AckByte(ack, perr);
    r
  }

  /** The acknowledgement recorded in response byte 3; a read that was not a WAIT and
      whose data is not to be ignored moves the RAM address on past its stored word. */
  function Acknowledge(s: Regs, n: Regs, i: Inputs): (r: Regs)
    ensures r.reply.txBlock[3] & 7 == i.ack as bv8 && IssuedCount(r.reply.txBlock) == IssuedCount(n.reply.txBlock)
    ensures r.ram.adr == (if i.ack != 2 && !i.ignoreData && s.eng.rnw then (s.ram.adr + 1) % 4096 else n.ram.adr)
    ensures r.xfer == n.xfer && r.eng == n.eng && r.txb == n.txb && r.reply.txLen == n.reply.txLen
    ensures r.phase == n.phase && r.session == n.session && r.ram.mem == n.ram.mem
  {
    var n := WithTx(n, AckRecorded(n.reply.txBlock, i.ack, i.perr));
    if i.ack != 2 && !i.ignoreData && s.eng.rnw then n.(ram := n.ram.(adr := (s.ram.adr + 1) % 4096)) else n
  }

  /** A completed element that is not repeated is counted off; then the next element
      (its data word first for a write), a posted-mode RDBUFF read to collect the last
      read's data, or the response. */
  function NextElement(s: Regs, n: Regs, i: Inputs): (r: Regs)
    ensures i.ack == 1 && !i.perr && s.xfer.transferCount > 1 ==>
      r.txb == (if s.eng.rnw then 4 else 0) && r.xfer.transferCount == s.xfer.transferCount - 1 &&
      r.xfer.retries == n.xfer.retries && r.eng == n.eng && r.reply == n.reply && r.ram == n.ram
    ensures !(i.ack == 1 && !i.perr && s.xfer.transferCount > 1) && i.postedMode ==> r == RdBuffRead(s, n)
    ensures !(i.ack == 1 && !i.perr && s.xfer.transferCount > 1) && !i.postedMode ==> r == WrapUp(s, n)
    ensures r.phase == n.phase && r.session == n.session && r.reply.txLen == n.reply.txLen
  {
    if i.ack == 1 && !i.perr && s.xfer.transferCount > 1 then
      n.(xfer := n.xfer.(transferCount := s.xfer.transferCount - 1), txb := if s.eng.rnw then 4 else 0)
    else if i.postedMode then RdBuffRead(s, n)
    else WrapUp(s, n)
  }

  /** Posted mode: one more read, of DP register RDBUFF, collects the last read's data;
      it is issued but not counted as an element. */
  function RdBuffRead(s: Regs, n: Regs): (r: Regs)
    ensures r.txb == 4 && r.xfer.retries == 0 && r.xfer.transferCount == (s.xfer.transferCount - 1) % 65536
    ensures r.eng == n.eng.(rnw := true, apndp := false, addr32 := 3) && r.ram == n.ram
    ensures IssuedCount(r.reply.txBlock) == IssuedCount(s.reply.txBlock) - 1 && r.reply.txBlock[3] == n.reply.txBlock[3]
    ensures r.phase == n.phase && r.session == n.session && r.reply.txLen == n.reply.txLen
  {
    var b := SetIssuedCount(n.reply.txBlock, IssuedCount(s.reply.txBlock) - 1);
    WithTx(n, b).(eng := n.eng.(rnw := true, apndp := false, addr32 := 3),
                  xfer := n.xfer.(retries := 0, transferCount := (s.xfer.transferCount - 1) % 65536), txb := 4)
  }

  /** The block is finished: the words to send back are the reads stored in the RAM,
      counting this edge's read, and the RAM is read from address 0. */
  function WrapUp(s: Regs, n: Regs): (r: Regs)
    ensures r.txb == 7 && r.xfer.transferCount == s.ram.adr + (if s.eng.rnw then 1 else 0) && r.ram.adr == 0
    ensures r.xfer.retries == n.xfer.retries && r.eng == n.eng && r.reply == n.reply
    ensures r.phase == n.phase && r.session == n.session
  {
    n.(xfer := n.xfer.(transferCount := s.ram.adr + (if s.eng.rnw then 1 else 0)), ram := n.ram.(adr := 0), txb := 7)
  }

  /** Steps 7..10: stream response bytes 0..3. A write block has no words to follow;
      it returns to Idle at step 10 whether or not the last byte was accepted. */
  function SendHeader(s: Regs, n: Regs, i: Inputs): (r: Regs)
    requires 7 <= s.txb <= 10
    ensures i.outReady ==>
      r.port.valid && r.port.payload == s.reply.txBlock[s.txb - 7] && r.txb == s.txb + 1
    ensures !i.outReady ==> r.port.valid == n.port.valid && r.txb == n.txb
    ensures var fin := s.txb == 10 && !s.eng.rnw;
      r.port.last == (fin || n.port.last) && r.phase == (if fin then Idle else n.phase)
    ensures r.xfer == n.xfer && r.ram == n.ram && r.busy == n.busy
  {
    var n := if i.outReady then
      n.(port := n.port.(payload := s.reply.txBlock[s.txb - 7], valid := true), txb := s.txb + 1)
    else n;
    if s.txb == 10 && !s.eng.rnw then n.(port := n.port.(last := true), phase := Idle) else n
  }

  /** One edge of DAP_TransferBlock's sub-machine. */
  function TransferBlockStep(s: Regs, n: Regs, i: Inputs): (r: Regs)
    ensures r.phase != n.phase ==> r.phase == Idle && r.port.last
    ensures r.port.last ==> r.phase == Idle && r.busy && (r.port.valid || (s.txb == 10 && !s.eng.rnw && !i.outReady))
    ensures s.txb <= 3 ==> r.phase == n.phase && r.port.valid == n.port.valid && !r.port.last
  {
    var n := n.(busy := true, port := n.port.(last := false));
    if s.txb <= 3 then TakeData(s, n, i)
    else if s.txb == 4 then IssueElement(s, n)
    else if s.txb == 5 then (if !DbgDone(s) then n.(eng := n.eng.(go := false), txb := 6) else n)
    else if s.txb == 6 then (if DbgDone(s) then Complete(s, n, i) else n)
    else if s.txb <= 10 then SendHeader(s, n, i)
    else if s.txb == 11 then DapTransfer.FetchWord(s, n)
    else DapTransfer.SendWord(s, n, i, false)
  }
}
