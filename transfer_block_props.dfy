/** Properties of DAP_TransferBlock's sub-machine over runs of edges. */
module DapTransferBlockProps {
  import opened Bits
  import opened DapState
  import opened DapTransferBlock
  import opened DapEngine
  import opened DapTransferProps

  // ---------------------------------------------------------------- WAIT retries

  /** Inside the issue/wait/complete loop of one element (steps 4..6); at step 4 the
      retry counter is clear of its 16-bit wrap. */
  predicate InBlockRetry(s: Regs)
  {
    s.phase == TransferBlockProcess && 4 <= s.txb <= 6 && (s.txb == 4 ==> s.xfer.retries < 65535)
  }

  /** The issue edges (step 4) of the run, up to leaving the loop. */
  function BlockIssues(s: Regs, ins: seq<Inputs>): (c: nat)
    decreases |ins|
  {
    if |ins| == 0 || !InBlockRetry(s) then 0
    else (if s.txb == 4 then 1 else 0) + BlockIssues(Next(s, ins[0]), ins[1..])
  }

  /** The state at which the run first leaves the loop, or its final state. */
  function BlockSettle(s: Regs, ins: seq<Inputs>): Regs
    decreases |ins|
  {
    if |ins| == 0 || !InBlockRetry(s) then s else BlockSettle(Next(s, ins[0]), ins[1..])
  }

  /** The issues still allowed under WAIT: the counter is bumped at each issue and a
      WAIT re-issues only while it is below `waitRetry`. */
  function BlockIssuesLeft(s: Regs): int
  {
    var wr := s.session.waitRetry;
    var r := s.xfer.retries;
    if s.txb == 4 then 1 + (if wr > r + 1 then wr - r - 1 else 0)
    else if wr > r then wr - r else 0
  }

  /** The registers after one loop edge under WAIT. */
  lemma BlockRetryRegs(s: Regs, i: Inputs)
    requires InBlockRetry(s) && i.ack == 2
    ensures var t := Next(s, i);
      t.phase == TransferBlockProcess && t.session == s.session &&
      (s.txb == 4 ==> t.txb == 5 && t.xfer.retries == s.xfer.retries + 1) &&
      (s.txb == 5 ==> t.txb in {5, 6} && t.xfer.retries == s.xfer.retries) &&
      (s.txb == 6 ==>
        t.xfer.retries == s.xfer.retries &&
        (t.txb == 6 || t.txb == (if s.xfer.retries < s.session.waitRetry then 4 else 7)) &&
        (t.txb == 7 ==> t.reply.txBlock[3] & 7 == 2))
  {
  }

  lemma AfterBlockRetry(s: Regs, t: Regs)
    requires InBlockRetry(s)
    requires t.phase == TransferBlockProcess && t.session == s.session
    requires s.txb == 4 ==> t.txb == 5 && t.xfer.retries == s.xfer.retries + 1
    requires s.txb == 5 ==> t.txb in {5, 6} && t.xfer.retries == s.xfer.retries
    requires s.txb == 6 ==>
      (t.xfer.retries == s.xfer.retries &&
       (t.txb == 6 || t.txb == (if s.xfer.retries < s.session.waitRetry then 4 else 7)))
    ensures InBlockRetry(t) ==> BlockIssuesLeft(t) == BlockIssuesLeft(s) - (if s.txb == 4 then 1 else 0)
    ensures !InBlockRetry(t) ==> s.txb == 6 && t.txb == 7 && BlockIssuesLeft(s) == 0
  {
  }

  /** One loop edge under WAIT: an issue takes one off the issues left; the loop is
      left only from step 6, for the response (7), with no issue left and WAIT
      recorded in response byte 3. */
  lemma BlockRetryEdge(s: Regs, i: Inputs)
    requires InBlockRetry(s) && i.ack == 2
    ensures var t := Next(s, i);
      t.phase == TransferBlockProcess && t.session == s.session &&
      (InBlockRetry(t) ==> BlockIssuesLeft(t) == BlockIssuesLeft(s) - (if s.txb == 4 then 1 else 0)) &&
      (!InBlockRetry(t) ==> s.txb == 6 && t.txb == 7 && BlockIssuesLeft(s) == 0 && t.reply.txBlock[3] & 7 == 2)
  {
    BlockRetryRegs(s, i);
    AfterBlockRetry(s, Next(s, i));
  }

  /** Under a persistent WAIT answer an element is issued at most `BlockIssuesLeft`
      times; when the loop is left it has been issued exactly that often, and the
      response with ack WAIT follows. */
  lemma {:induction false} BlockWaitBound(s: Regs, ins: seq<Inputs>)
    requires InBlockRetry(s)
    requires forall k :: 0 <= k < |ins| ==> ins[k].ack == 2
    ensures BlockIssues(s, ins) <= BlockIssuesLeft(s)
    ensures var t := BlockSettle(s, ins);
      !InBlockRetry(t) ==>
        BlockIssues(s, ins) == BlockIssuesLeft(s) && t.phase == TransferBlockProcess && t.txb == 7 &&
        t.reply.txBlock[3] & 7 == 2
    decreases |ins|
  {
    if |ins| > 0 {
      var t := Next(s, ins[0]);
      BlockRetryEdge(s, ins[0]);
      if InBlockRetry(t) {
        BlockWaitBound(t, ins[1..]);
      }
    }
  }

  /** From an element about to be issued with the retry counter at 0, as after setup,
      a persistent WAIT allows `waitRetry` issues in all, and one when `waitRetry` is
      0: one issue fewer than DAP_Transfer allows. */
  lemma FirstElementBound(s: Regs, ins: seq<Inputs>)
    requires s.phase == TransferBlockProcess && s.txb == 4 && s.xfer.retries == 0
    requires forall k :: 0 <= k < |ins| ==> ins[k].ack == 2
    ensures var most := if s.session.waitRetry == 0 then 1 else s.session.waitRetry;
      BlockIssues(s, ins) <= most && (!InBlockRetry(BlockSettle(s, ins)) ==> BlockIssues(s, ins) == most)
  {
    BlockWaitBound(s, ins);
  }

  // ---------------------------------------------------------------- the response

  /** Streaming the response (steps 7..15) with the RAM's read port consistent; the
      word steps are reached by read blocks only, and the address stays clear of the
      12-bit register's wrap. */
  predicate BlockSending(s: Regs)
  {
    s.phase == TransferBlockProcess && 7 <= s.txb <= 15 &&
    (s.txb >= 11 ==> s.eng.rnw) &&
    (s.txb <= 11 && s.eng.rnw ==> s.xfer.transferCount >= 1 && s.ram.adr + s.xfer.transferCount < 4095) &&
    (s.txb >= 12 ==> s.ram.adr + s.xfer.transferCount < 4094 && s.ram.datR == WordAt(s.ram.mem, s.ram.adr))
  }

  /** The response bytes still to be sent: the rest of the four header bytes, then for
      a read block the rest of the word on the read port and the RAM words still
      counted in `transferCount`. */
  function BlockRemaining(s: Regs): seq<bv8>
    requires BlockSending(s)
  {
    var tc := s.xfer.transferCount;
    if s.txb <= 10 then s.reply.txBlock[..4][s.txb - 7..] + (if s.eng.rnw then Words(s.ram.mem, s.ram.adr, tc) else [])
    else if s.txb == 11 then Words(s.ram.mem, s.ram.adr, tc)
    else LE32(s.ram.datR)[s.txb - 12..] + Words(s.ram.mem, s.ram.adr + 1, tc)
  }

  /** The edges the response still takes when the host is always ready: one per byte
      and, for a read block, one fetch per word. */
  function BlockEdgesLeft(s: Regs): nat
    requires BlockSending(s)
  {
    |BlockRemaining(s)| + (if s.eng.rnw then s.xfer.transferCount else 0)
  }

  /** What one edge of the response does, from `s` to `t`: with no beat it keeps the
      bytes still to send, except that a write block's final header step ends the
      command even when the host was not ready; with a beat it sends the first byte
      still to send, after which the response goes on or, after its final byte, the
      machine is in Idle. */
  predicate BlockAdvances(s: Regs, t: Regs, ready: bool)
    requires BlockSending(s)
  {
    if !t.port.valid then
      (BlockSending(t) && BlockRemaining(t) == BlockRemaining(s) && (ready ==> BlockEdgesLeft(t) == BlockEdgesLeft(s) - 1)) ||
      (!ready && s.txb == 10 && !s.eng.rnw && t.phase == Idle)
    else
      ready && Emits(t, BlockRemaining(s)) &&
      (|BlockRemaining(s)| == 1 ==> t.phase == Idle) &&
      (|BlockRemaining(s)| > 1 ==>
        BlockSending(t) && BlockRemaining(t) == BlockRemaining(s)[1..] && BlockEdgesLeft(t) == BlockEdgesLeft(s) - 1)
  }

  /** The registers after a header edge (steps 7..10). */
  lemma BlockHeaderRegs(s: Regs, i: Inputs)
    requires s.phase == TransferBlockProcess && 7 <= s.txb <= 10 && s.doneCdc != 2
    ensures var t := Next(s, i); var fin := s.txb == 10 && !s.eng.rnw;
      t.ram.mem == s.ram.mem && t.ram.adr == s.ram.adr && t.xfer == s.xfer && t.eng.rnw == s.eng.rnw &&
      t.reply.txBlock == s.reply.txBlock && t.doneCdc == ShiftDone(s.doneCdc, i.done) &&
      t.port.valid == i.outReady && t.phase == (if fin then Idle else TransferBlockProcess) &&
      (i.outReady ==> t.port.payload == s.reply.txBlock[s.txb - 7] && t.port.last == fin && t.txb == s.txb + 1) &&
      (!i.outReady ==> t.txb == s.txb)
  {
  }

  lemma AfterBlockHeader(s: Regs, t: Regs, ready: bool)
    requires BlockSending(s) && s.txb <= 10
    requires var fin := s.txb == 10 && !s.eng.rnw;
      t.ram.mem == s.ram.mem && t.ram.adr == s.ram.adr && t.xfer == s.xfer && t.eng.rnw == s.eng.rnw &&
      t.reply.txBlock == s.reply.txBlock &&
      t.port.valid == ready && t.phase == (if fin then Idle else TransferBlockProcess) &&
      (ready ==> t.port.payload == s.reply.txBlock[s.txb - 7] && t.port.last == fin && t.txb == s.txb + 1) &&
      (!ready ==> t.txb == s.txb)
    ensures BlockAdvances(s, t, ready)
  {
    var h := s.reply.txBlock[..4];
    DropFirst(h, s.txb - 7, if s.eng.rnw then Words(s.ram.mem, s.ram.adr, s.xfer.transferCount) else []);
  }

  /** The registers after the fetch edge (step 11). */
  lemma BlockFetchRegs(s: Regs, i: Inputs)
    requires s.phase == TransferBlockProcess && s.txb == 11 && s.doneCdc != 2
    ensures var t := Next(s, i);
      t.ram == RamPort(s.ram.adr, WordAt(s.ram.mem, s.ram.adr), s.ram.mem) &&
      t.xfer.transferCount == (s.xfer.transferCount - 1) % 65536 && t.eng.rnw == s.eng.rnw &&
      t.doneCdc == ShiftDone(s.doneCdc, i.done) &&
      !t.port.valid && t.txb == 12 && t.phase == TransferBlockProcess
  {
  }

  lemma AfterBlockFetch(s: Regs, t: Regs, ready: bool)
    requires BlockSending(s) && s.txb == 11
    requires t.ram == RamPort(s.ram.adr, WordAt(s.ram.mem, s.ram.adr), s.ram.mem) &&
      t.xfer.transferCount == (s.xfer.transferCount - 1) % 65536 && t.eng.rnw == s.eng.rnw &&
      !t.port.valid && t.txb == 12 && t.phase == TransferBlockProcess
    ensures BlockAdvances(s, t, ready)
  {
    var w := LE32(WordAt(s.ram.mem, s.ram.adr));
    assert w[0..] == w;
  }

  /** The registers after a word edge the host does not take (steps 12..15). */
  lemma BlockWordHeldRegs(s: Regs, i: Inputs)
    requires s.phase == TransferBlockProcess && 12 <= s.txb && s.doneCdc != 2 && !i.outReady
    ensures var t := Next(s, i);
      t.ram == RamPort(s.ram.adr, WordAt(s.ram.mem, s.ram.adr), s.ram.mem) && t.xfer == s.xfer &&
      t.eng.rnw == s.eng.rnw && t.doneCdc == ShiftDone(s.doneCdc, i.done) &&
      !t.port.valid && t.txb == s.txb && t.phase == TransferBlockProcess
  {
  }

  lemma AfterBlockWordHeld(s: Regs, t: Regs)
    requires BlockSending(s) && 12 <= s.txb
    requires t.ram == RamPort(s.ram.adr, WordAt(s.ram.mem, s.ram.adr), s.ram.mem) && t.xfer == s.xfer &&
      t.eng.rnw == s.eng.rnw && !t.port.valid && t.txb == s.txb && t.phase == TransferBlockProcess
    ensures BlockAdvances(s, t, false)
  {
  }

  /** The registers after sending one of a word's first three bytes. */
  lemma BlockWordByteRegs(s: Regs, i: Inputs)
    requires s.phase == TransferBlockProcess && 12 <= s.txb < 15 && i.outReady && s.doneCdc != 2
    ensures var t := Next(s, i);
      t.phase == TransferBlockProcess && t.txb == s.txb + 1 && t.xfer == s.xfer && t.eng.rnw == s.eng.rnw &&
      t.port == Port(WordByte(s.ram.datR, s.txb - 12), true, false) &&
      t.ram == RamPort(s.ram.adr, WordAt(s.ram.mem, s.ram.adr), s.ram.mem) &&
      t.doneCdc == ShiftDone(s.doneCdc, i.done)
  {
  }

  lemma AfterBlockWordByte(s: Regs, t: Regs)
    requires BlockSending(s) && 12 <= s.txb < 15
    requires t.phase == TransferBlockProcess && t.txb == s.txb + 1 && t.xfer == s.xfer && t.eng.rnw == s.eng.rnw &&
      t.port == Port(WordByte(s.ram.datR, s.txb - 12), true, false) &&
      t.ram == RamPort(s.ram.adr, WordAt(s.ram.mem, s.ram.adr), s.ram.mem)
    ensures BlockAdvances(s, t, true)
  {
    var w := LE32(s.ram.datR);
    LE32At(s.ram.datR, s.txb - 12);
    DropFirst(w, s.txb - 12, Words(s.ram.mem, s.ram.adr + 1, s.xfer.transferCount));
  }

  /** The registers after sending a word's final byte. */
  lemma BlockLastByteRegs(s: Regs, i: Inputs)
    requires s.phase == TransferBlockProcess && s.txb == 15 && i.outReady && s.doneCdc != 2
    ensures var t := Next(s, i); var fin := s.xfer.transferCount == 0;
      t.phase == (if fin then Idle else TransferBlockProcess) && t.txb == (if fin then 0 else 11) &&
      t.xfer == s.xfer && t.eng.rnw == s.eng.rnw &&
      t.port == Port(WordByte(s.ram.datR, 3), true, fin) &&
      t.ram.mem == s.ram.mem && t.ram.adr == (if fin then s.ram.adr else (s.ram.adr + 1) % 4096) &&
      t.doneCdc == ShiftDone(s.doneCdc, i.done)
  {
  }

  lemma AfterBlockLastByte(s: Regs, t: Regs)
    requires BlockSending(s) && s.txb == 15
    requires var fin := s.xfer.transferCount == 0;
      t.phase == (if fin then Idle else TransferBlockProcess) && t.txb == (if fin then 0 else 11) &&
      t.xfer == s.xfer && t.eng.rnw == s.eng.rnw &&
      t.port == Port(WordByte(s.ram.datR, 3), true, fin) &&
      t.ram.mem == s.ram.mem && t.ram.adr == (if fin then s.ram.adr else (s.ram.adr + 1) % 4096)
    ensures BlockAdvances(s, t, true)
  {
    LE32At(s.ram.datR, 3);
    var rest := Words(s.ram.mem, s.ram.adr + 1, s.xfer.transferCount);
    DropFirst(LE32(s.ram.datR), 3, rest);
    if s.xfer.transferCount > 0 {
      assert t.ram.adr == s.ram.adr + 1;
      assert LE32(s.ram.datR)[4..] + rest == rest;
    }
  }

  /** One edge of the response, with done held steady: the RAM is not written and the
      edge advances the response. */
  lemma BlockResponseEdge(s: Regs, i: Inputs, level: bool)
    requires BlockSending(s) && Held(s, level) && i.done == level
    ensures var t := Next(s, i);
      t.ram.mem == s.ram.mem && Held(t, level) && BlockAdvances(s, t, i.outReady)
  {
    var t := Next(s, i);
    if s.txb <= 10 {
      BlockHeaderRegs(s, i);
      AfterBlockHeader(s, t, i.outReady);
    } else if s.txb == 11 {
      BlockFetchRegs(s, i);
      AfterBlockFetch(s, t, i.outReady);
    } else if !i.outReady {
      BlockWordHeldRegs(s, i);
      AfterBlockWordHeld(s, t);
    } else if s.txb < 15 {
      BlockWordByteRegs(s, i);
      AfterBlockWordByte(s, t);
    } else {
      BlockLastByteRegs(s, i);
      AfterBlockLastByte(s, t);
    }
    HeldStays(s, t, level);
  }

  /** Whatever the host's ready pattern, the stream carries a prefix of the response:
      the four header bytes and, for a read block, the RAM words in address order,
      only the final byte marked last. */
  lemma {:induction false} BlockResponseIsPrefix(s: Regs, ins: seq<Inputs>, level: bool)
    requires BlockSending(s) && Held(s, level) && Steady(ins, level, false)
    ensures Output(s, ins, TransferBlockProcess) <= Beats(BlockRemaining(s))
    decreases |ins|
  {
    if |ins| > 0 {
      var t := Next(s, ins[0]);
      BlockResponseEdge(s, ins[0], level);
      if t.phase == TransferBlockProcess && (!t.port.valid || |BlockRemaining(s)| > 1) {
        BlockResponseIsPrefix(t, ins[1..], level);
      }
      PrefixStep(t, Output(t, ins[1..], TransferBlockProcess), BlockRemaining(s));
    }
  }

  /** With the host always ready, the whole response goes out in `BlockEdgesLeft`
      edges and the machine is back in Idle. */
  lemma {:induction false} BlockResponseComplete(s: Regs, ins: seq<Inputs>, level: bool)
    requires BlockSending(s) && Held(s, level) && Steady(ins, level, true)
    requires |ins| == BlockEdgesLeft(s)
    ensures Output(s, ins, TransferBlockProcess) == Beats(BlockRemaining(s))
    ensures Run(s, ins).phase == Idle
    decreases |ins|
  {
    var t := Next(s, ins[0]);
    BlockResponseEdge(s, ins[0], level);
    if !t.port.valid || |BlockRemaining(s)| > 1 {
      BlockResponseComplete(t, ins[1..], level);
    } else {
      assert ins[1..] == [];
    }
    ExactStep(t, Output(t, ins[1..], TransferBlockProcess), BlockRemaining(s));
  }

  /** The response as the block's wrap-up leaves it (step 7, RAM address 0): the four
      header bytes `<0x06> <issued:2> <ack>`, then for a read block the
      `transferCount` words stored from RAM address 0, little-endian. */
  lemma BlockAnswer(s: Regs, ins: seq<Inputs>, level: bool)
    requires s.phase == TransferBlockProcess && s.txb == 7 && s.ram.adr == 0
    requires s.eng.rnw ==> 1 <= s.xfer.transferCount < 4095
    requires Held(s, level) && Steady(ins, level, true)
    requires |ins| == 4 + (if s.eng.rnw then 5 * s.xfer.transferCount else 0)
    ensures Output(s, ins, TransferBlockProcess) ==
      Beats(s.reply.txBlock[..4] + (if s.eng.rnw then Words(s.ram.mem, 0, s.xfer.transferCount) else []))
    ensures Run(s, ins).phase == Idle
  {
    assert s.reply.txBlock[..4][0..] == s.reply.txBlock[..4];
    BlockResponseComplete(s, ins, level);
  }
}
