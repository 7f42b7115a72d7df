/** DAP_Transfer: `<0x05> <index> <count> count x [<request> [<data:4>]]`. The
    sub-machine keyed by `txb` takes each request byte (0) and its data word
    (1..4) from the inbound stream, has the engine execute it (5..7), and finally
    streams the three header bytes (8..10) and the words read into the RAM
    (11..15). */
module DapTransfer {
  import opened Bits
  import opened DapState

  /** The request needs a data word: a write, or a read with value match or match mask. */
  predicate NeedsData(req: bv8)
  {
    !BitOf(req, 1) || BitOf(req, 4) || BitOf(req, 5)
  }

  /** Setup: `transferCount` is the request's count byte; a count of 0 answers at once. */
  function TransferSetup(s: Regs, n: Regs): (r: Regs)
    ensures r.xfer.dapIndex == s.frame.rxBlock[1] && r.xfer.transferCount == s.frame.rxBlock[2] as int
    ensures r.ram.adr == 0 && r.txb == 0 && r.eng == n.eng
    ensures s.frame.rxBlock[2] != 0 ==> r.phase == TransferProcess && r.busy && r.reply == n.reply
    ensures s.frame.rxBlock[2] == 0 ==>
      r.phase == Respond && !r.busy && r.reply.txLen == 3 && r.reply.txBlock[..3] == n.reply.txBlock[..2] + [1]
  {
    var rx := s.frame.rxBlock;
    var n := n.(xfer := n.xfer.(dapIndex := rx[1], transferCount := rx[2] as int),
                ram := n.ram.(adr := 0), busy := true, txb := 0);
    if rx[2] != 0 then n.(phase := TransferProcess)
    else WithTxLen(n, PutByte(n.reply.txBlock, 2, 1), 3).(busy := false, phase := Respond)
  }

  /** Step 0: take the next request byte when the inbound stream is ready; count it in
      response byte 1 and restart the WAIT retry counter. */
  function TakeRequest(s: Regs, n: Regs, i: Inputs): (r: Regs)
    requires s.txb == 0
    ensures s.busy ==> r == n.(busy := false)
    ensures !s.busy ==>
      r.xfer.tfrReq == i.inPayload && r.xfer.retries == 0 &&
      r.reply.txBlock[1] == s.reply.txBlock[1] + 1 &&
      r.txb == (if NeedsData(i.inPayload) then 1 else 5) && r.busy == (n.busy || !NeedsData(i.inPayload)) &&
      r.eng == n.eng && r.phase == n.phase && r.session == n.session
  {
    if s.busy then n.(busy := false)
    else
      var p := i.inPayload;
      var n := WithTx(n, PutByte(n.reply.txBlock, 1, s.reply.txBlock[1] + 1)).(xfer := n.xfer.(tfrReq := p, retries := 0));
      if NeedsData(p) then n.(txb := 1) else n.(txb := 5, busy := true)
  }

  /** The match-mask write as the source states it: it guards on `txb == 5`, a value
      the steps that apply it (1..4) never have, so it is never taken. */
  function MatchMaskWrite(s: Regs, n: Regs, i: Inputs): (r: Regs)
    ensures s.txb != 5 ==> r == n
    ensures BitOf(s.xfer.tfrReq, 5) && s.txb == 5 ==>
      r.xfer.mask == ((s.xfer.tfrData & 0xFF_FFFF) << 8) | (i.inPayload as bv32) && r.txb == 0
  {
    if BitOf(s.xfer.tfrReq, 5) && s.txb == 5 then
      n.(xfer := n.xfer.(mask := ((s.xfer.tfrData & 0xFF_FFFF) << 8) | (i.inPayload as bv32)), txb := 0)
    else n
  }

  /** Steps 1..4: data byte `txb - 1` of the transfer word. */
  function TakeData(s: Regs, n: Regs, i: Inputs): (r: Regs)
    requires 1 <= s.txb <= 4
    ensures s.busy ==> r == n.(busy := false)
    ensures !s.busy ==>
      WordByte(r.xfer.tfrData, s.txb - 1) == i.inPayload &&
      (forall k :: 0 <= k < 4 && k != s.txb - 1 ==> WordByte(r.xfer.tfrData, k) == WordByte(n.xfer.tfrData, k)) &&
      r.txb == s.txb + 1 && r.xfer.mask == n.xfer.mask && r.busy == n.busy
  {
    if !s.busy then
      var n := n.(xfer := n.xfer.(tfrData := SetWordByte(n.xfer.tfrData, s.txb - 1, i.inPayload)), txb := s.txb + 1);
      MatchMaskWrite(s, n, i)
    else n.(busy := false)
  }

  /** Step 5: issue the request to the engine: port, direction and register address
      from the request byte, the collected word as write data. */
  function IssueRequest(s: Regs, n: Regs): (r: Regs)
    ensures r.eng.command == CMD_TRANSACT && r.eng.go && r.eng.dwrite == s.xfer.tfrData
    ensures r.eng.apndp == BitOf(s.xfer.tfrReq, 0) && r.eng.rnw == BitOf(s.xfer.tfrReq, 1)
    ensures r.eng.addr32 == ((s.xfer.tfrReq >> 2) & 3) as int
    ensures r.txb == 6 && r.xfer == n.xfer && r.phase == n.phase
  {
    var req := s.xfer.tfrReq;
    n.(eng := n.eng.(command := CMD_TRANSACT, apndp := BitOf(req, 0), rnw := BitOf(req, 1),
                     addr32 := ((req >> 2) & 3) as int, dwrite := s.xfer.tfrData, go := true),
       txb := 6)
  }

  /** Step 7 once done is seen: record ack/perr in response byte 2 and decide
      between re-issuing (5), the next request (0), a posted-mode RDBUFF read (5),
      and the response (8). */
  function Complete(s: Regs, n: Regs, i: Inputs): (r: Regs)
    ensures r.reply.txBlock[2] & 7 == i.ack as bv8
    ensures i.ack == 2 ==>
      r.xfer == n.xfer.(retries := (s.xfer.retries + 1) % 65536) &&
      r.txb == (if s.xfer.retries < s.session.waitRetry then 5 else 8) && r.ram.adr == n.ram.adr
    ensures i.ack != 2 && BitOf(s.xfer.tfrReq, 4) ==> r == MatchCheck(s, Acknowledge(n, i), i)
    ensures i.ack != 2 && !BitOf(s.xfer.tfrReq, 4) ==>
      r.ram.adr == (if i.again || (!i.ignoreData && s.eng.rnw) then (s.ram.adr + 1) % 4096 else n.ram.adr)
    ensures i.ack != 2 && !BitOf(s.xfer.tfrReq, 4) && i.again ==> r.txb == 5 && r.xfer == n.xfer
    ensures i.ack != 2 && !BitOf(s.xfer.tfrReq, 4) && !i.again ==> r == NextRequest(s, Advance(s, Acknowledge(n, i), i), i)
    ensures r.txb in {0, 5, 8}
    ensures r.phase == n.phase && r.session == n.session && r.eng == n.eng && r.reply.txLen == n.reply.txLen
  {
    var c := Acknowledge(n, i);
    if i.ack == 2 then
      c.(xfer := c.xfer.(retries := (s.xfer.retries + 1) % 65536),
         txb := if s.xfer.retries < s.session.waitRetry then 5 else 8)
    else if BitOf(s.xfer.tfrReq, 4) then MatchCheck(s, c, i)
    else if i.again then Advance(s, c, i).(txb := 5)
    else NextRequest(s, Advance(s, c, i), i)
  }

  /** The acknowledgement recorded in response byte 2. */
  function Acknowledge(n: Regs, i: Inputs): (r: Regs)
    ensures r.reply.txBlock[2] & 7 == i.ack as bv8
    ensures r.reply.txBlock[..2] == n.reply.txBlock[..2] && r.reply.txLen == n.reply.txLen
    ensures r.xfer == n.xfer && r.ram == n.ram && r.eng == n.eng && r.txb == n.txb
    ensures r.phase == n.phase && r.session == n.session
  {
    WithTx(n, PutByte(n.reply.txBlock, 2, AckByte(i.ack, i.perr)))
  }

  /** A value-match read, with the test as written: re-read (5) while the values agree
      or the match retries are used up; otherwise flag a mismatch in bit 4 of the status
      byte and answer (8). */
  function MatchCheck(s: Regs, n: Regs, i: Inputs): (r: Regs)
    ensures r.txb == (if (i.dread & s.xfer.mask) != s.xfer.tfrData && s.xfer.matchretries < s.session.matchRetry then 8 else 5)
    ensures r.txb == 8 ==> BitAt(r.reply.txBlock, 21)
    ensures r.reply.txBlock[2] & 7 == n.reply.txBlock[2] & 7 && r.reply.txLen == n.reply.txLen
    ensures r.xfer == n.xfer && r.ram == n.ram && r.eng == n.eng && r.phase == n.phase && r.session == n.session
  {
    if (i.dread & s.xfer.mask) != s.xfer.tfrData && s.xfer.matchretries < s.session.matchRetry then
      var b := SetBitAt(n.reply.txBlock, 21, true);
      assert b[2] & 7 == n.reply.txBlock[2] & 7;
      WithTx(n, b).(txb := 8)
    else n.(txb := 5)
  }

  /** The RAM address moves on past a stored read word, or for a repeated request. */
  function Advance(s: Regs, n: Regs, i: Inputs): (r: Regs)
    ensures r.ram.adr == (if i.again || (!i.ignoreData && s.eng.rnw) then (s.ram.adr + 1) % 4096 else n.ram.adr)
    ensures r.ram.mem == n.ram.mem && r.reply == n.reply && r.xfer == n.xfer && r.eng == n.eng && r.txb == n.txb
    ensures r.phase == n.phase && r.session == n.session
  {
    if i.again || (!i.ignoreData && s.eng.rnw) then n.(ram := n.ram.(adr := (s.ram.adr + 1) % 4096)) else n
  }

  /** A request that is not repeated is counted off; then the next request, a
      posted-mode read of DP register RDBUFF (request 0x0E) to collect the last read's
      data, or the response, whose word count is the reads stored in the RAM. */
  function NextRequest(s: Regs, n: Regs, i: Inputs): (r: Regs)
    ensures i.ack == 1 && !i.perr && s.xfer.transferCount > 1 ==>
      r.txb == 0 && r.xfer == n.xfer.(transferCount := s.xfer.transferCount - 1)
    ensures !(i.ack == 1 && !i.perr && s.xfer.transferCount > 1) && i.postedMode ==>
      r.txb == 5 && r.xfer == n.xfer.(transferCount := (s.xfer.transferCount - 1) % 65536, tfrReq := 0x0E, retries := 0)
    ensures !(i.ack == 1 && !i.perr && s.xfer.transferCount > 1) && !i.postedMode ==>
      r.txb == 8 && r.xfer == n.xfer.(transferCount := s.ram.adr + (if s.eng.rnw then 1 else 0))
    ensures r.reply == n.reply && r.ram == n.ram && r.eng == n.eng && r.phase == n.phase && r.session == n.session
  {
    if i.ack == 1 && !i.perr && s.xfer.transferCount > 1 then
      n.(xfer := n.xfer.(transferCount := s.xfer.transferCount - 1), txb := 0)
    else if i.postedMode then
      n.(xfer := n.xfer.(transferCount := (s.xfer.transferCount - 1) % 65536, tfrReq := 0x0E, retries := 0), txb := 5)
    else n.(xfer := n.xfer.(transferCount := s.ram.adr + (if s.eng.rnw then 1 else 0)), txb := 8)
  }

  /** Steps 8..10: stream response bytes 0..2; with no words to follow, byte 2 is the last. */
  function SendHeader(s: Regs, n: Regs, i: Inputs): (r: Regs)
    requires 8 <= s.txb <= 10
    ensures r.ram.adr == 0 && r.xfer == n.xfer
    ensures var fin := s.txb == 10 && s.xfer.transferCount == 0;
      i.outReady ==>
        r.port.valid && r.port.payload == s.reply.txBlock[s.txb - 8] && r.txb == s.txb + 1 &&
        r.port.last == (fin || n.port.last) && r.phase == (if fin then Idle else n.phase) &&
        r.busy == (if fin then false else n.busy)
    ensures !i.outReady ==> r.port == n.port && r.txb == n.txb && r.phase == n.phase
  {
    var n := n.(ram := n.ram.(adr := 0));
    if i.outReady then
      var n := n.(port := n.port.(payload := s.reply.txBlock[s.txb - 8], valid := true), txb := s.txb + 1);
      if s.txb == 10 && s.xfer.transferCount == 0 then n.(port := n.port.(last := true), busy := false, phase := Idle)
      else n
    else n
  }

  /** Step 11: account for the word about to be sent, while the RAM's read port fetches it. */
  function FetchWord(s: Regs, n: Regs): (r: Regs)
    ensures r.xfer.transferCount == (s.xfer.transferCount - 1) % 65536 && r.txb == 12
    ensures r.port == n.port && r.phase == n.phase && r.ram == n.ram
  {
    n.(xfer := n.xfer.(transferCount := (s.xfer.transferCount - 1) % 65536), txb := 12)
  }

  /** Steps 12..15: stream byte `txb - 12` of the word on the RAM's read port; after
      byte 3 either finish or advance to the next RAM word. */
  function SendWord(s: Regs, n: Regs, i: Inputs, release: bool): (r: Regs)
    requires 12 <= s.txb
    ensures var fin := s.txb == 15 && s.xfer.transferCount == 0;
      i.outReady ==>
        r.port.valid && r.port.payload == WordByte(s.ram.datR, s.txb - 12) &&
        r.port.last == (fin || n.port.last) && r.phase == (if fin then Idle else n.phase) &&
        r.txb == (if s.txb == 15 then (if fin then 0 else 11) else s.txb + 1) &&
        r.ram.adr == (if s.txb == 15 && !fin then (s.ram.adr + 1) % 4096 else n.ram.adr) &&
        r.busy == (if fin && release then false else n.busy)
    ensures !i.outReady ==> r == n
    ensures r.xfer == n.xfer && r.ram.mem == n.ram.mem && r.ram.datR == n.ram.datR
  {
    if i.outReady then
      var n := n.(port := n.port.(payload := WordByte(s.ram.datR, s.txb - 12), valid := true), txb := (s.txb + 1) % 16);
      if s.txb == 15 then
        if s.xfer.transferCount == 0 then
          n.(port := n.port.(last := true), busy := if release then false else n.busy, phase := Idle)
        else n.(ram := n.ram.(adr := (s.ram.adr + 1) % 4096), txb := 11)
      else n
    else n
  }

  /** One edge of DAP_Transfer's sub-machine. By default the inbound stream is held
      off and no byte is marked last. */
  function TransferStep(s: Regs, n: Regs, i: Inputs): (r: Regs)
    ensures r.phase != n.phase ==> r.phase == Idle && r.port.last
    ensures r.port.last ==> r.phase == Idle && r.port.valid && !r.busy
    ensures s.txb <= 4 ==> r.phase == n.phase && r.port.valid == n.port.valid && !r.port.last
  {
    var n := n.(busy := true, port := n.port.(last := false));
    if s.txb == 0 then TakeRequest(s, n, i)
    else if s.txb <= 4 then TakeData(s, n, i)
    else if s.txb == 5 then IssueRequest(s, n)
    else if s.txb == 6 then (if !DbgDone(s) then n.(eng := n.eng.(go := false), txb := 7) else n)
    else if s.txb == 7 then (if DbgDone(s) then Complete(s, n, i) else n)
    else if s.txb <= 10 then SendHeader(s, n, i)
    else if s.txb == 11 then FetchWord(s, n)
    else SendWord(s, n, i, true)
  }
}
