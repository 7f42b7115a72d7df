/** Properties of DAP_Transfer's sub-machine over runs of edges. */
module DapTransferProps {
  import opened Bits
  import opened DapState
  import opened DapTransfer
  import opened DapEngine

  /** Inside the issue/wait/complete loop of one request (steps 5..7). */
  predicate InRetryLoop(s: Regs)
  {
    s.phase == TransferProcess && 5 <= s.txb <= 7
  }

  /** The edges of `ins` that issue the request (step 5), up to leaving the loop. */
  function Issues(s: Regs, ins: seq<Inputs>): (c: nat)
    decreases |ins|
  {
    if |ins| == 0 || !InRetryLoop(s) then 0
    else (if s.txb == 5 then 1 else 0) + Issues(Next(s, ins[0]), ins[1..])
  }

  /** The state at which the run first leaves the loop, or its final state. */
  function Settle(s: Regs, ins: seq<Inputs>): Regs
    decreases |ins|
  {
    if |ins| == 0 || !InRetryLoop(s) then s else Settle(Next(s, ins[0]), ins[1..])
  }

  /** The issues still allowed: `waitRetry - retries` re-issues after the one the
      step-5 state is about to make. */
  function IssuesLeft(s: Regs): int
  {
    s.session.waitRetry - s.xfer.retries + (if s.txb == 5 then 1 else 0)
  }

  /** One loop edge while the target answers WAIT: the step advances 5 -> 6 -> 7 (6 and
      7 held until the synchronised done drops and returns), and completion counts the
      retry and goes back to 5, or on to the response (8) once `waitRetry` retries
      have been made. */
  lemma RetryEdge(s: Regs, i: Inputs)
    requires InRetryLoop(s) && s.xfer.retries <= s.session.waitRetry && i.ack == 2
    ensures var t := Next(s, i);
      t.phase == TransferProcess && t.session == s.session &&
      (InRetryLoop(t) ==> t.xfer.retries <= t.session.waitRetry && IssuesLeft(t) == IssuesLeft(s) - (if s.txb == 5 then 1 else 0)) &&
      (!InRetryLoop(t) ==> s.txb == 7 && s.xfer.retries == s.session.waitRetry && t.txb == 8 &&
                           t.reply.txBlock[2] & 7 == 2)
  {
  }

  /** Under a persistent WAIT answer a request is issued at most `IssuesLeft` times,
      that is `waitRetry + 1` times from its first issue; when the loop is left, it has
      been issued exactly that often and the response, with ack WAIT, follows. */
  lemma {:induction false} WaitRetryBound(s: Regs, ins: seq<Inputs>)
    requires InRetryLoop(s) && s.xfer.retries <= s.session.waitRetry
    requires forall k :: 0 <= k < |ins| ==> ins[k].ack == 2
    ensures Issues(s, ins) <= IssuesLeft(s)
    ensures var t := Settle(s, ins);
      !InRetryLoop(t) ==>
        Issues(s, ins) == IssuesLeft(s) && t.phase == TransferProcess && t.txb == 8 && t.reply.txBlock[2] & 7 == 2
    decreases |ins|
  {
    if |ins| > 0 {
      var t := Next(s, ins[0]);
      RetryEdge(s, ins[0]);
      if InRetryLoop(t) {
        WaitRetryBound(t, ins[1..]);
      }
    }
  }

  /** From a freshly taken request (retry counter 0, about to issue), a persistent
      WAIT answer allows `waitRetry + 1` issues in all. */
  lemma FirstIssueBound(s: Regs, ins: seq<Inputs>)
    requires s.phase == TransferProcess && s.txb == 5 && s.xfer.retries == 0
    requires forall k :: 0 <= k < |ins| ==> ins[k].ack == 2
    ensures Issues(s, ins) <= s.session.waitRetry + 1
    ensures !InRetryLoop(Settle(s, ins)) ==> Issues(s, ins) == s.session.waitRetry + 1
  {
    WaitRetryBound(s, ins);
  }

  // ---------------------------------------------------------------- the response

  /** RAM word `a`; one past the RAM's depth reads 0, as the read port does. */
  function WordAt(mem: Ram, a: int): bv32
  {
    if 0 <= a < RAM_DEPTH then mem[a] else 0
  }

  /** The little-endian bytes of the `c` RAM words from address `a` on. */
  function Words(mem: Ram, a: int, c: nat): (r: seq<bv8>)
    ensures |r| == 4 * c
    decreases c
  {
    if c == 0 then [] else LE32(WordAt(mem, a)) + Words(mem, a + 1, c - 1)
  }

  /** Streaming the response (steps 8..15) with the RAM's read port consistent: the
      word being sent is the one at the address register, and the address stays clear
      of the 12-bit register's wrap. */
  predicate Sending(s: Regs)
  {
    s.phase == TransferProcess && 8 <= s.txb <= 15 &&
    (s.txb <= 10 ==> s.xfer.transferCount < 4095) &&
    (s.txb == 11 ==> s.ram.adr + s.xfer.transferCount < 4095) &&
    (s.txb >= 12 ==> s.ram.adr + s.xfer.transferCount < 4094) &&
    (s.txb == 11 ==> s.xfer.transferCount >= 1) &&
    (s.txb >= 12 ==> s.ram.datR == WordAt(s.ram.mem, s.ram.adr))
  }

  /** The synchronised done held at a steady level, so the RAM's write strobe (its
      rising edge) stays low. */
  predicate Held(s: Regs, level: bool)
  {
    if level then s.doneCdc == 3 else s.doneCdc < 2
  }

  /** Every edge of `ins` sees the engine's done at `level`, and, when `ready`, the
      host ready. */
  predicate Steady(ins: seq<Inputs>, level: bool, ready: bool)
    decreases |ins|
  {
    |ins| == 0 || (ins[0].done == level && (ready ==> ins[0].outReady) && Steady(ins[1..], level, ready))
  }

  /** The response bytes still to be sent: the rest of the three header bytes, then
      the rest of the word on the read port, then `transferCount` more RAM words. */
  function Remaining(s: Regs): seq<bv8>
    requires Sending(s)
  {
    var tc := s.xfer.transferCount;
    if s.txb <= 10 then s.reply.txBlock[..3][s.txb - 8..] + Words(s.ram.mem, 0, tc)
    else if s.txb == 11 then Words(s.ram.mem, s.ram.adr, tc)
    else LE32(s.ram.datR)[s.txb - 12..] + Words(s.ram.mem, s.ram.adr + 1, tc)
  }

  /** The edges the response still takes when the host is always ready: one per byte
      and one fetch per word. */
  function EdgesLeft(s: Regs): nat
    requires Sending(s)
  {
    |Remaining(s)| + s.xfer.transferCount
  }

  /** What one edge of the response does, from `s` to `t`: with no beat it keeps the
      bytes still to send (and, on a ready edge, takes one edge off the count); with a
      beat it sends the first of them, after which the response either goes on or,
      after its final byte, the machine is in Idle with the inbound stream released. */
  predicate Advances(s: Regs, t: Regs, ready: bool)
    requires Sending(s)
  {
    if !t.port.valid then Sending(t) && Remaining(t) == Remaining(s) && (ready ==> EdgesLeft(t) == EdgesLeft(s) - 1)
    else
      ready && Emits(t, Remaining(s)) &&
      (|Remaining(s)| == 1 ==> t.phase == Idle && !t.busy) &&
      (|Remaining(s)| > 1 ==> Sending(t) && Remaining(t) == Remaining(s)[1..] && EdgesLeft(t) == EdgesLeft(s) - 1)
  }

  /** The sampler keeps a steady done steady. */
  lemma HeldStays(s: Regs, t: Regs, level: bool)
    requires Held(s, level) && t.doneCdc == ShiftDone(s.doneCdc, level)
    ensures Held(t, level)
  {
  }

  /** The registers after a header edge (steps 8..10). */
  lemma HeaderRegs(s: Regs, i: Inputs)
    requires s.phase == TransferProcess && 8 <= s.txb <= 10 && s.doneCdc != 2
    ensures var t := Next(s, i); var fin := s.txb == 10 && s.xfer.transferCount == 0;
      t.ram.mem == s.ram.mem && t.ram.adr == 0 && t.xfer == s.xfer && t.reply.txBlock == s.reply.txBlock &&
      t.doneCdc == ShiftDone(s.doneCdc, i.done) &&
      t.port.valid == i.outReady &&
      (i.outReady ==> t.port.payload == s.reply.txBlock[s.txb - 8] && t.port.last == fin && t.txb == s.txb + 1 &&
                      t.phase == (if fin then Idle else TransferProcess) && (fin ==> !t.busy)) &&
      (!i.outReady ==> t.txb == s.txb && t.phase == TransferProcess)
  {
  }

  lemma AfterHeader(s: Regs, t: Regs, ready: bool)
    requires Sending(s) && s.txb <= 10
    requires var fin := s.txb == 10 && s.xfer.transferCount == 0;
      t.ram.mem == s.ram.mem && t.ram.adr == 0 && t.xfer == s.xfer && t.reply.txBlock == s.reply.txBlock &&
      t.port.valid == ready &&
      (ready ==> t.port.payload == s.reply.txBlock[s.txb - 8] && t.port.last == fin && t.txb == s.txb + 1 &&
                 t.phase == (if fin then Idle else TransferProcess) && (fin ==> !t.busy)) &&
      (!ready ==> t.txb == s.txb && t.phase == TransferProcess)
    ensures Advances(s, t, ready)
  {
    var h := s.reply.txBlock[..3];
    DropFirst(h, s.txb - 8, Words(s.ram.mem, 0, s.xfer.transferCount));
  }

  /** The registers after the fetch edge (step 11). */
  lemma FetchRegs(s: Regs, i: Inputs)
    requires s.phase == TransferProcess && s.txb == 11 && s.doneCdc != 2
    ensures var t := Next(s, i);
      t.ram == RamPort(s.ram.adr, WordAt(s.ram.mem, s.ram.adr), s.ram.mem) &&
      t.xfer.transferCount == (s.xfer.transferCount - 1) % 65536 &&
      t.doneCdc == ShiftDone(s.doneCdc, i.done) &&
      !t.port.valid && t.txb == 12 && t.phase == TransferProcess
  {
  }

  lemma AfterFetch(s: Regs, t: Regs, ready: bool)
    requires Sending(s) && s.txb == 11
    requires t.ram == RamPort(s.ram.adr, WordAt(s.ram.mem, s.ram.adr), s.ram.mem) &&
      t.xfer.transferCount == (s.xfer.transferCount - 1) % 65536 &&
      !t.port.valid && t.txb == 12 && t.phase == TransferProcess
    ensures Advances(s, t, true)
  {
    var w := LE32(WordAt(s.ram.mem, s.ram.adr));
    assert w[0..] == w;
  }

  /** The registers after a word edge the host does not take (steps 12..15). */
  lemma WordHeldRegs(s: Regs, i: Inputs)
    requires s.phase == TransferProcess && 12 <= s.txb && s.doneCdc != 2 && !i.outReady
    ensures var t := Next(s, i);
      t.ram == RamPort(s.ram.adr, WordAt(s.ram.mem, s.ram.adr), s.ram.mem) && t.xfer == s.xfer &&
      t.doneCdc == ShiftDone(s.doneCdc, i.done) &&
      !t.port.valid && t.txb == s.txb && t.phase == TransferProcess
  {
  }

  lemma AfterWordHeld(s: Regs, t: Regs)
    requires Sending(s) && 12 <= s.txb
    requires t.ram == RamPort(s.ram.adr, WordAt(s.ram.mem, s.ram.adr), s.ram.mem) && t.xfer == s.xfer &&
      !t.port.valid && t.txb == s.txb && t.phase == TransferProcess
    ensures Advances(s, t, false)
  {
  }

  /** The registers after sending one of a word's first three bytes. */
  lemma WordByteRegs(s: Regs, i: Inputs)
    requires s.phase == TransferProcess && 12 <= s.txb < 15 && i.outReady && s.doneCdc != 2
    ensures var t := Next(s, i);
      t.phase == TransferProcess && t.txb == s.txb + 1 && t.xfer == s.xfer &&
      t.port == Port(WordByte(s.ram.datR, s.txb - 12), true, false) &&
      t.ram == RamPort(s.ram.adr, WordAt(s.ram.mem, s.ram.adr), s.ram.mem) &&
      t.doneCdc == ShiftDone(s.doneCdc, i.done)
  {
  }

  lemma AfterWordByte(s: Regs, t: Regs)
    requires Sending(s) && 12 <= s.txb < 15
    requires t.phase == TransferProcess && t.txb == s.txb + 1 && t.xfer == s.xfer &&
      t.port == Port(WordByte(s.ram.datR, s.txb - 12), true, false) &&
      t.ram == RamPort(s.ram.adr, WordAt(s.ram.mem, s.ram.adr), s.ram.mem)
    ensures Advances(s, t, true)
  {
    var w := LE32(s.ram.datR);
    LE32At(s.ram.datR, s.txb - 12);
    DropFirst(w, s.txb - 12, Words(s.ram.mem, s.ram.adr + 1, s.xfer.transferCount));
  }

  /** The registers after sending a word's final byte. */
  lemma LastByteRegs(s: Regs, i: Inputs)
    requires s.phase == TransferProcess && s.txb == 15 && i.outReady && s.doneCdc != 2
    ensures var t := Next(s, i); var fin := s.xfer.transferCount == 0;
      t.phase == (if fin then Idle else TransferProcess) && t.txb == (if fin then 0 else 11) &&
      t.xfer == s.xfer && t.busy == !fin &&
      t.port == Port(WordByte(s.ram.datR, 3), true, fin) &&
      t.ram.mem == s.ram.mem && t.ram.adr == (if fin then s.ram.adr else (s.ram.adr + 1) % 4096) &&
      t.doneCdc == ShiftDone(s.doneCdc, i.done)
  {
  }

  lemma AfterLastByte(s: Regs, t: Regs)
    requires Sending(s) && s.txb == 15
    requires var fin := s.xfer.transferCount == 0;
      t.phase == (if fin then Idle else TransferProcess) && t.txb == (if fin then 0 else 11) &&
      t.xfer == s.xfer && t.busy == !fin &&
      t.port == Port(WordByte(s.ram.datR, 3), true, fin) &&
      t.ram.mem == s.ram.mem && t.ram.adr == (if fin then s.ram.adr else (s.ram.adr + 1) % 4096)
    ensures Advances(s, t, true)
  {
    LE32At(s.ram.datR, 3);
    var rest := Words(s.ram.mem, s.ram.adr + 1, s.xfer.transferCount);
    DropFirst(LE32(s.ram.datR), 3, rest);
    if s.xfer.transferCount == 0 {
      FinalByte(s, t, rest);
    } else {
      NextWord(s, t, rest);
    }
  }

  /** The word's final byte was the response's final byte. */
  lemma FinalByte(s: Regs, t: Regs, rest: seq<bv8>)
    requires Sending(s) && s.txb == 15 && s.xfer.transferCount == 0
    requires t.phase == Idle && !t.busy && t.port == Port(WordByte(s.ram.datR, 3), true, true)
    requires rest == Words(s.ram.mem, s.ram.adr + 1, 0)
    requires Remaining(s) == LE32(s.ram.datR)[3..] + rest && (LE32(s.ram.datR)[3..] + rest)[0] == LE32(s.ram.datR)[3]
    requires LE32(s.ram.datR)[3] == WordByte(s.ram.datR, 3)
    ensures Advances(s, t, true)
  {
  }

  /** After a word's final byte the next word is fetched. */
  lemma NextWord(s: Regs, t: Regs, rest: seq<bv8>)
    requires Sending(s) && s.txb == 15 && s.xfer.transferCount > 0
    requires t.phase == TransferProcess && t.txb == 11 && t.xfer == s.xfer &&
      t.port == Port(WordByte(s.ram.datR, 3), true, false) &&
      t.ram.mem == s.ram.mem && t.ram.adr == (s.ram.adr + 1) % 4096
    requires rest == Words(s.ram.mem, s.ram.adr + 1, s.xfer.transferCount)
    requires (LE32(s.ram.datR)[3..] + rest)[0] == LE32(s.ram.datR)[3] &&
      (LE32(s.ram.datR)[3..] + rest)[1..] == LE32(s.ram.datR)[4..] + rest
    requires LE32(s.ram.datR)[3] == WordByte(s.ram.datR, 3)
    ensures Advances(s, t, true)
  {
    assert t.ram.adr == s.ram.adr + 1;
    assert LE32(s.ram.datR)[4..] + rest == rest;
  }

  /** One edge of the response, with done held steady: the RAM is not written and the
      edge advances the response. */
  lemma ResponseEdge(s: Regs, i: Inputs, level: bool)
    requires Sending(s) && Held(s, level) && i.done == level
    ensures var t := Next(s, i);
      t.ram.mem == s.ram.mem && Held(t, level) && Advances(s, t, i.outReady)
  {
    var t := Next(s, i);
    if s.txb <= 10 {
      HeaderRegs(s, i);
      AfterHeader(s, t, i.outReady);
    } else if s.txb == 11 {
      FetchRegs(s, i);
      AfterFetch(s, t, i.outReady);
    } else if !i.outReady {
      WordHeldRegs(s, i);
      AfterWordHeld(s, t);
    } else if s.txb < 15 {
      WordByteRegs(s, i);
      AfterWordByte(s, t);
    } else {
      LastByteRegs(s, i);
      AfterLastByte(s, t);
    }
    HeldStays(s, t, level);
  }

  /** Whatever the host's ready pattern, the stream carries a prefix of the response:
      the header, then the RAM words in address order, only the final byte marked last. */
  lemma {:induction false} ResponseIsPrefix(s: Regs, ins: seq<Inputs>, level: bool)
    requires Sending(s) && Held(s, level) && Steady(ins, level, false)
    ensures Output(s, ins, TransferProcess) <= Beats(Remaining(s))
    decreases |ins|
  {
    if |ins| > 0 {
      var t := Next(s, ins[0]);
      ResponseEdge(s, ins[0], level);
      if !t.port.valid || |Remaining(s)| > 1 {
        ResponseIsPrefix(t, ins[1..], level);
      }
      PrefixStep(t, Output(t, ins[1..], TransferProcess), Remaining(s));
    }
  }

  /** With the host always ready, the whole response goes out in `EdgesLeft` edges and
      the machine is back in Idle with the inbound stream released. */
  lemma {:induction false} ResponseComplete(s: Regs, ins: seq<Inputs>, level: bool)
    requires Sending(s) && Held(s, level) && Steady(ins, level, true)
    requires |ins| == EdgesLeft(s)
    ensures Output(s, ins, TransferProcess) == Beats(Remaining(s))
    ensures Run(s, ins).phase == Idle && !Run(s, ins).busy
    decreases |ins|
  {
    var t := Next(s, ins[0]);
    ResponseEdge(s, ins[0], level);
    if !t.port.valid || |Remaining(s)| > 1 {
      ResponseComplete(t, ins[1..], level);
    } else {
      assert ins[1..] == [];
    }
    ExactStep(t, Output(t, ins[1..], TransferProcess), Remaining(s));
  }

  /** Dropping the first element of a suffix followed by more. */
  lemma DropFirst<T>(a: seq<T>, k: nat, b: seq<T>)
    requires k < |a|
    ensures (a[k..] + b)[0] == a[k] && (a[k..] + b)[1..] == a[k + 1..] + b
  {
    assert (a[k..] + b)[1..] == a[k..][1..] + b;
  }
}
