/** Whole exchanges from Idle: a request frame in, its answer out. */
module DapAnswers {
  import opened Bits
  import opened DapState
  import opened DapDecoder
  import opened DapEngine
  import opened DapFrames
  import opened DapRespond

  /** The rest of a frame being collected, ending before the bytes due, leaves the
      one byte 0xFF staged in Respond. */
  lemma TruncatedRest(t: Regs, ins: seq<Inputs>)
    requires Collecting(t) && 0 < |ins| && t.frame.rxedLen + |ins| < t.frame.rxLen
    requires forall k :: 0 <= k < |ins| ==> ins[k].inValid && ins[k].inLast == (k == |ins| - 1)
    ensures var u := Run(t, ins);
      u.phase == Respond && u.reply.txLen == 1 && u.reply.txBlock[0] == DAP_Invalid &&
      u.reply.txedLen == t.reply.txedLen && u.eng == t.eng && u.session == t.session
  {
    var mid := ins[..|ins| - 1];
    var last := ins[|ins| - 1];
    assert forall k :: 0 <= k < |mid| ==> mid[k] == ins[k];
    CollectSome(t, mid);
    var v := Run(t, mid);
    TruncatedFrame(v, last);
    RunSnoc(t, mid, last);
    assert ins == mid + [last];
  }

  /** A frame that ends, after its opcode, before all its parameter bytes have
      arrived leaves the one byte 0xFF staged in Respond; the engine and session are
      untouched. */
  lemma TruncatedFrameStaged(s: Regs, ins: seq<Inputs>)
    requires s.phase == Idle && WellFormed(ins) && 2 <= |ins| && ins[0].inFirst && ins[|ins| - 1].inLast
    requires Sizing(ins[0].inPayload).Fixed? && |ins| < Sizing(ins[0].inPayload).len
    ensures var u := Run(s, ins);
      u.phase == Respond && u.reply.txLen == 1 && u.reply.txBlock[0] == DAP_Invalid && u.reply.txedLen == 0 &&
      u.eng == s.eng && u.session == s.session
  {
    var rest := ins[1..];
    FrameOpened(s, ins[0]);
    assert forall k :: 0 <= k < |rest| ==> rest[k] == ins[k + 1];
    TruncatedRest(Next(s, ins[0]), rest);
  }

  /** The opcode of a frame with parameter bytes to come, taken in Idle, opens the
      frame in RxParams; the engine and session are untouched. */
  lemma FrameOpened(s: Regs, i: Inputs)
    requires s.phase == Idle && i.inValid && i.inFirst && !i.inLast
    requires Sizing(i.inPayload).Fixed? && Sizing(i.inPayload).len > 1
    ensures var t := Next(s, i);
      Collecting(t) && t.frame.rxedLen == 1 && t.frame.rxLen == Sizing(i.inPayload).len &&
      t.reply.txedLen == 0 && t.eng == s.eng && t.session == s.session
  {
    FrameStart(s, i);
  }

  /** A frame that ends, after its opcode, before all its parameter bytes have
      arrived is answered with exactly the one byte 0xFF, marked last, after which the
      machine is back in Idle; the engine and session are untouched. */
  lemma TruncatedFrameAnswered(s: Regs, ins: seq<Inputs>, outs: seq<Inputs>)
    requires s.phase == Idle && WellFormed(ins) && 2 <= |ins| && ins[0].inFirst && ins[|ins| - 1].inLast
    requires Sizing(ins[0].inPayload).Fixed? && |ins| < Sizing(ins[0].inPayload).len
    requires AllReady(outs) && |outs| == 2
    ensures var u := Run(s, ins);
      u.phase == Respond && u.eng == s.eng && u.session == s.session &&
      Output(u, outs, Respond) == Beats([DAP_Invalid]) == [Beat(DAP_Invalid, true)] &&
      Run(u, outs).phase == Idle
  {
    TruncatedFrameStaged(s, ins);
    var u := Run(s, ins);
    assert u.reply.txBlock[..1] == [DAP_Invalid];
    StagedAnswered(u, [DAP_Invalid], outs);
  }

  /** The dispatch edge of a DAP_Transfer frame with a count of 0: the staged
      `<opcode> <0>` is completed with the transfer count 1 and answered at once. */
  lemma EmptyTransferEdge(t: Regs, j: Inputs)
    requires t.phase == RxParams && t.frame.rxedLen == t.frame.rxLen
    requires t.frame.rxBlock[0] == DAP_Transfer && t.frame.rxBlock[2] == 0
    ensures var u := Next(t, j);
      u.phase == Respond && u.reply.txLen == 3 && u.reply.txBlock[..3] == t.reply.txBlock[..2] + [1] &&
      u.reply.txedLen == t.reply.txedLen && u.eng == t.eng && u.session == t.session
  {
  }

  /** DAP_Transfer with no transfers, `<0x05> <index> <0>`, received from Idle, stages
      `<0x05> <0> <1>` in Respond at the dispatch edge. */
  lemma EmptyTransferStaged(s: Regs, ins: seq<Inputs>, j: Inputs)
    requires s.phase == Idle && WellFormed(ins) && |ins| == 3 && ins[0].inFirst
    requires ins[0].inPayload == DAP_Transfer && ins[2].inPayload == 0
    ensures var u := Next(Run(s, ins), j);
      u.phase == Respond && u.reply.txLen == 3 && u.reply.txedLen == 0 &&
      u.reply.txBlock[..3] == [DAP_Transfer, 0, 1] && u.eng == s.eng && u.session == s.session
  {
    FrameReceived(s, ins);
    var t := Run(s, ins);
    assert t.frame.rxBlock[0] == Payloads(ins)[0] && t.frame.rxBlock[2] == Payloads(ins)[2] by {
      assert t.frame.rxBlock[..3] == Payloads(ins);
    }
    EmptyTransferEdge(t, j);
  }

  /** DAP_Transfer with no transfers, `<0x05> <index> <0>`, received from Idle, is
      answered with exactly `<0x05> <0> <1>`, the final byte marked last, and issues
      nothing to the engine. */
  lemma EmptyTransferAnswered(s: Regs, ins: seq<Inputs>, j: Inputs, outs: seq<Inputs>)
    requires s.phase == Idle && WellFormed(ins) && |ins| == 3 && ins[0].inFirst
    requires ins[0].inPayload == DAP_Transfer && ins[2].inPayload == 0
    requires AllReady(outs) && |outs| == 4
    ensures var u := Next(Run(s, ins), j);
      u.phase == Respond && u.eng == s.eng && u.session == s.session &&
      Output(u, outs, Respond) == Beats([DAP_Transfer, 0, 1]) && Run(u, outs).phase == Idle
  {
    EmptyTransferStaged(s, ins, j);
    StagedAnswered(Next(Run(s, ins), j), [DAP_Transfer, 0, 1], outs);
  }
}
