/** Receiving a request frame: sizing by opcode, collecting the fixed parameters,
    and the answers to frames the engine does not handle. */
module DapFrames {
  import opened Bits
  import opened DapState
  import opened DapDecoder
  import opened DapEngine

  /** The payload bytes of a run of inbound beats. */
  function Payloads(ins: seq<Inputs>): (p: seq<bv8>)
    ensures |p| == |ins|
    ensures forall k :: 0 <= k < |ins| ==> p[k] == ins[k].inPayload
  {
    seq(|ins|, k requires 0 <= k < |ins| => ins[k].inPayload)
  }

  /** A well-formed run of inbound beats: every beat valid, only the final one last. */
  predicate WellFormed(ins: seq<Inputs>)
  {
    (forall k :: 0 <= k < |ins| ==> ins[k].inValid) &&
    (forall k :: 0 <= k < |ins| - 1 ==> !ins[k].inLast)
  }

  /** RxParams with parameter bytes still due. */
  predicate Collecting(s: Regs)
  {
    s.phase == RxParams && s.frame.rxedLen < s.frame.rxLen
  }

  /** The first byte of a frame, taken in Idle, fixes the frame's length from its
      opcode and stages the default answer `<opcode> <0>` (or 0xFF for an unknown
      opcode). */
  lemma FrameStart(s: Regs, i: Inputs)
    requires s.phase == Idle && i.inValid && i.inFirst
    ensures var t := Next(s, i); var op := i.inPayload;
      t.phase == AfterOpcode(op, i.inLast) && t.frame.rxedLen == 1 && t.frame.rxBlock[0] == op &&
      (Sizing(op).Fixed? ==> t.frame.rxLen == Sizing(op).len) &&
      t.reply.txedLen == 0 && t.reply.txBlock[1] == 0 &&
      (Sizing(op).Unknown? ==> t.reply.txLen == 1 && t.reply.txBlock[0] == DAP_Invalid) &&
      (!Sizing(op).Unknown? ==> t.reply.txLen == 2 && t.reply.txBlock[0] == op && !t.busy)
  {
  }

  /** Idle ignores every beat that does not open a frame. */
  lemma IdleIgnoresNonFirst(s: Regs, i: Inputs)
    requires s.phase == Idle && !(i.inValid && i.inFirst)
    ensures var t := Next(s, i); t.phase == Idle && !t.busy && t.frame == s.frame
  {
  }

  /** One RxParams edge with a valid beat stores it at the cursor; the final
      parameter byte raises `busy`. */
  lemma CollectEdge(s: Regs, i: Inputs)
    requires Collecting(s) && i.inValid && !(i.inLast && s.frame.rxedLen + 1 < s.frame.rxLen)
    ensures var t := Next(s, i); var k := s.frame.rxedLen;
      t.phase == RxParams && t.frame.rxLen == s.frame.rxLen && t.frame.rxedLen == k + 1 &&
      t.frame.rxBlock[..k] == s.frame.rxBlock[..k] && t.frame.rxBlock[k] == i.inPayload &&
      t.busy == (s.busy || k + 1 == s.frame.rxLen) && t.reply == s.reply &&
      t.eng == s.eng && t.session == s.session && t.xfer == s.xfer
  {
    var t := Next(s, i);
    var k := s.frame.rxedLen;
    assert t.frame.rxBlock == PutByte(s.frame.rxBlock, k, i.inPayload);
  }

  /** Valid beats that are not the frame's last, fewer than the bytes still due, are
      stored one by one: the frame is still being collected, with the staged response,
      engine, session and transfer context untouched. */
  lemma {:induction false} CollectSome(s: Regs, ins: seq<Inputs>)
    requires Collecting(s) && s.frame.rxedLen + |ins| < s.frame.rxLen
    requires forall k :: 0 <= k < |ins| ==> ins[k].inValid && !ins[k].inLast
    ensures var u := Run(s, ins);
      Collecting(u) && u.frame.rxLen == s.frame.rxLen && u.frame.rxedLen == s.frame.rxedLen + |ins| &&
      u.reply == s.reply && u.eng == s.eng && u.session == s.session && u.xfer == s.xfer
    decreases |ins|
  {
    if |ins| > 0 {
      CollectEdge(s, ins[0]);
      CollectSome(Next(s, ins[0]), ins[1..]);
    }
  }

  /** `u` holds the frame `s` was collecting, completed with the payloads of `ins`,
      and the staged response, engine, session and transfer context of `s`. */
  predicate Completes(s: Regs, u: Regs, ins: seq<Inputs>)
    requires s.frame.rxedLen + |ins| == s.frame.rxLen
  {
    var k := s.frame.rxedLen;
    u.phase == RxParams && u.frame.rxLen == s.frame.rxLen && u.frame.rxedLen == s.frame.rxLen && u.busy &&
    u.frame.rxBlock[..k] == s.frame.rxBlock[..k] && u.frame.rxBlock[k..s.frame.rxLen] == Payloads(ins) &&
    u.reply == s.reply && u.eng == s.eng && u.session == s.session && u.xfer == s.xfer
  }

  /** A well-formed run of exactly the bytes still due fills the frame: the bytes land
      in order after those already received, `busy` holds the stream off, and the
      engine, session and transfer context are untouched. */
  lemma {:induction false} CollectFrame(s: Regs, ins: seq<Inputs>)
    requires Collecting(s)
    requires |ins| == s.frame.rxLen - s.frame.rxedLen
    requires WellFormed(ins)
    ensures Completes(s, Run(s, ins), ins)
    decreases |ins|
  {
    var t := Next(s, ins[0]);
    CollectEdge(s, ins[0]);
    if |ins| > 1 {
      assert WellFormed(ins[1..]);
      CollectFrame(t, ins[1..]);
      CompletesCons(s, t, Run(t, ins[1..]), ins);
    } else {
      assert ins[1..] == [];
      CompletesLast(s, t, ins);
    }
  }

  /** The frame is completed by its first byte, stored by `t`, and the rest. */
  lemma CompletesCons(s: Regs, t: Regs, u: Regs, ins: seq<Inputs>)
    requires |ins| > 1 && s.frame.rxedLen + |ins| == s.frame.rxLen
    requires var k := s.frame.rxedLen;
      t.frame.rxLen == s.frame.rxLen && t.frame.rxedLen == k + 1 &&
      t.frame.rxBlock[..k] == s.frame.rxBlock[..k] && t.frame.rxBlock[k] == ins[0].inPayload &&
      t.reply == s.reply && t.eng == s.eng && t.session == s.session && t.xfer == s.xfer
    requires Completes(t, u, ins[1..])
    ensures Completes(s, u, ins)
  {
    PrefixExtended(s.frame.rxBlock, t.frame.rxBlock, u.frame.rxBlock, s.frame.rxedLen, s.frame.rxLen,
                   ins[0].inPayload, Payloads(ins[1..]));
    assert Payloads(ins) == [ins[0].inPayload] + Payloads(ins[1..]);
  }

  /** `u` agrees with `t` up to `k` inclusive and `t` with `s` before `k`. */
  lemma PrefixExtended<T>(s: seq<T>, t: seq<T>, u: seq<T>, k: nat, len: nat, x: T, q: seq<T>)
    requires k < len <= |u| && len <= |t| && k <= |s|
    requires t[..k] == s[..k] && t[k] == x && u[..k + 1] == t[..k + 1] && u[k + 1..len] == q
    ensures u[..k] == s[..k] && u[k..len] == [x] + q
  {
    assert u[..k] == u[..k + 1][..k];
    assert u[k..len] == [u[k]] + u[k + 1..len];
  }

  /** The frame is completed by its final byte. */
  lemma CompletesLast(s: Regs, t: Regs, ins: seq<Inputs>)
    requires |ins| == 1 && s.frame.rxedLen + 1 == s.frame.rxLen
    requires var k := s.frame.rxedLen;
      t.phase == RxParams && t.frame.rxLen == s.frame.rxLen && t.frame.rxedLen == k + 1 && t.busy &&
      t.frame.rxBlock[..k] == s.frame.rxBlock[..k] && t.frame.rxBlock[k] == ins[0].inPayload &&
      t.reply == s.reply && t.eng == s.eng && t.session == s.session && t.xfer == s.xfer
    ensures Completes(s, t, ins)
  {
    var k := s.frame.rxedLen;
    assert t.frame.rxBlock[k..k + 1] == [ins[0].inPayload];
  }

  /** A frame that ends before all its parameter bytes have arrived is answered with
      the single byte 0xFF, none of it sent yet; the engine, session and transfer
      context are untouched. */
  lemma TruncatedFrame(s: Regs, i: Inputs)
    requires Collecting(s) && i.inValid && i.inLast && s.frame.rxedLen + 1 < s.frame.rxLen
    ensures var t := Next(s, i);
      t.phase == Respond && t.reply.txLen == 1 && t.reply.txBlock[0] == DAP_Invalid && t.busy &&
      t.reply.txedLen == s.reply.txedLen &&
      t.eng == s.eng && t.session == s.session && t.xfer == s.xfer
  {
  }

  /** End to end: a well-formed frame of a fixed-length command, received from Idle,
      leaves its bytes in the receive block and the machine about to dispatch it. */
  lemma FrameReceived(s: Regs, ins: seq<Inputs>)
    requires s.phase == Idle && |ins| > 0 && WellFormed(ins) && ins[0].inFirst
    requires Sizing(ins[0].inPayload).Fixed? && |ins| == Sizing(ins[0].inPayload).len
    ensures var t := Run(s, ins);
      t.phase == RxParams && t.frame.rxedLen == t.frame.rxLen == |ins| &&
      t.frame.rxBlock[..|ins|] == Payloads(ins) && t.eng == s.eng && t.session == s.session &&
      t.reply.txedLen == 0 && t.reply.txLen == 2 && t.reply.txBlock[..2] == [ins[0].inPayload, 0]
  {
    var t := Next(s, ins[0]);
    FrameStart(s, ins[0]);
    if |ins| > 1 {
      assert WellFormed(ins[1..]);
      CollectFrame(t, ins[1..]);
      FrameFromOpcode(t, Run(t, ins[1..]), ins);
    } else {
      assert ins[1..] == [];
    }
  }

  lemma FrameFromOpcode(t: Regs, u: Regs, ins: seq<Inputs>)
    requires |ins| > 1 && t.frame.rxedLen == 1 && t.frame.rxLen == |ins| && t.frame.rxBlock[0] == ins[0].inPayload
    requires Completes(t, u, ins[1..])
    ensures u.phase == RxParams && u.frame.rxedLen == u.frame.rxLen == |ins| &&
      u.frame.rxBlock[..|ins|] == Payloads(ins) && u.eng == t.eng && u.session == t.session && u.reply == t.reply
  {
    assert u.frame.rxBlock[..|ins|] == u.frame.rxBlock[..1] + u.frame.rxBlock[1..|ins|];
    assert Payloads(ins) == [ins[0].inPayload] + Payloads(ins[1..]);
  }

  /** A frame that ends on its opcode although parameters were due goes to
      ProtocolError, which answers 0xFF on the next edge. */
  lemma OpcodeOnlyFrame(s: Regs, i: Inputs, j: Inputs)
    requires s.phase == Idle && i.inValid && i.inFirst && i.inLast
    requires !Sizing(i.inPayload).Unknown? && Sizing(i.inPayload) != Fixed(1)
    ensures Next(s, i).phase == ProtocolError
    ensures var t := Next(Next(s, i), j);
      t.phase == Respond && t.reply.txLen == 1 && t.reply.txBlock[0] == DAP_Invalid && t.reply.txedLen == 0
  {
  }

  /** The states of the commands this engine does not implement (DAP_SWD_Sequence,
      DAP_ExecuteCommands, DAP_QueueCommands), and ProtocolError, answer 0xFF at once. */
  lemma UnimplementedAnswerInvalid(s: Regs, i: Inputs)
    requires s.phase in {ProtocolError, SwdSequenceGetCount, ExecuteCommandsGetNum, QueueCommandsGetNum}
    ensures var t := Next(s, i);
      t.phase == Respond && t.reply.txLen == 1 && t.reply.txBlock[0] == DAP_Invalid &&
      t.eng == s.eng && t.session == s.session
  {
  }

  /** Opcodes with a fixed length but no handler, DAP_TransferAbort among them, are
      answered 0xFF once their frame is complete. */
  lemma UnhandledOpcodeInvalid(s: Regs, i: Inputs)
    requires s.phase == RxParams && s.frame.rxedLen == s.frame.rxLen
    requires s.frame.rxBlock[0] == DAP_TransferAbort
    ensures var t := Next(s, i);
      t.phase == Respond && t.reply.txLen == 1 && t.reply.txBlock[0] == DAP_Invalid &&
      t.eng == s.eng && t.session == s.session && t.xfer == s.xfer
  {
  }
}
