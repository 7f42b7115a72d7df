/** The go/done handshake with the debug-interface engine, and the transfer RAM's
    write strobe derived from it. */
module DapHandshake {
  import opened Bits
  import opened DapState
  import opened DapEngine
  import DapTransfer
  import DapTransferBlock
  import DapSequences

  /** The synchronised done is high exactly when done was sampled high on the two
      latest edges. */
  lemma DoneSynchronised(s: Regs, a: Inputs, b: Inputs)
    ensures DbgDone(Next(Next(s, a), b)) <==> a.done && b.done
  {
  }

  /** The RAM's write strobe is the synchronised rising edge of done: it is raised by
      an edge that samples done high after a low sample. */
  lemma WriteStrobeIsRisingEdge(s: Regs, i: Inputs)
    ensures RamWe(Next(s, i)) <==> i.done && s.doneCdc < 2
  {
  }

  /** The RAM changes only on an edge whose strobe is high, and then only at the
      address register's word, which takes the engine's read data. */
  lemma RamWrittenOnlyOnStrobe(s: Regs, i: Inputs)
    ensures var m := Next(s, i).ram.mem;
      (forall a :: 0 <= a < RAM_DEPTH && a != s.ram.adr ==> m[a] == s.ram.mem[a]) &&
      (!RamWe(s) ==> m == s.ram.mem) &&
      (RamWe(s) && s.ram.adr < RAM_DEPTH ==> m[s.ram.adr] == RamData(s, i))
  {
  }

  /** In every state, `go` is dropped only while the synchronised done is low: the
      machine never withdraws a command the engine has not acknowledged. */
  lemma GoDroppedOnlyWhenAcknowledged(s: Regs, i: Inputs)
    ensures s.eng.go && !Next(s, i).eng.go ==> !DbgDone(s)
  {
    match s.phase
    case RxParams => GoKeptFrame(s, i);
    case TransferProcess => GoKeptTransfer(s, i);
    case TransferBlockProcess => GoKeptTransferBlock(s, i);
    case SwjSequenceProcess => GoKeptSwjSequence(s, i);
    case WaitDone => WaitDoneEdge(s, i);
    case _ => GoKeptElsewhere(s, i);
  }

  /** The remaining states keep `go`, or, in WaitConnectDone, drop it only while the
      synchronised done is low. */
  lemma GoKeptElsewhere(s: Regs, i: Inputs)
    requires !(s.phase in {RxParams, TransferProcess, TransferBlockProcess, SwjSequenceProcess, WaitDone})
    ensures s.eng.go && !Next(s, i).eng.go ==> !DbgDone(s)
  {
  }

  /** No handler of a complete frame lowers `go`. */
  lemma DispatchKeepsGo(s: Regs, n: Regs, i: Inputs)
    ensures n.eng.go ==> Dispatch(s, n, i).eng.go
  {
  }

  lemma RxParamsKeepsGo(s: Regs, n: Regs, i: Inputs)
    ensures n.eng.go ==> RxParamsStep(s, n, i).eng.go
  {
    DispatchKeepsGo(s, n, i);
  }

  lemma GoKeptFrame(s: Regs, i: Inputs)
    requires s.phase == RxParams
    ensures s.eng.go ==> Next(s, i).eng.go
  {
    RxParamsKeepsGo(s, s.(port := s.port.(valid := false)), i);
  }

  /** DAP_Transfer lowers `go` only at step 6, while the synchronised done is low. */
  lemma TransferStepGo(s: Regs, n: Regs, i: Inputs)
    requires n.eng == s.eng
    ensures s.eng.go && !DapTransfer.TransferStep(s, n, i).eng.go ==> !DbgDone(s)
  {
  }

  lemma GoKeptTransfer(s: Regs, i: Inputs)
    requires s.phase == TransferProcess
    ensures s.eng.go && !Next(s, i).eng.go ==> !DbgDone(s)
  {
    TransferStepGo(s, s.(port := s.port.(valid := false)), i);
  }

  /** DAP_TransferBlock lowers `go` only at step 5, while the synchronised done is low. */
  lemma TransferBlockStepGo(s: Regs, n: Regs, i: Inputs)
    requires n.eng == s.eng
    ensures s.eng.go && !DapTransferBlock.TransferBlockStep(s, n, i).eng.go ==> !DbgDone(s)
  {
    if s.txb <= 4 {
    } else if s.txb <= 6 {
    } else {
    }
  }

  lemma GoKeptTransferBlock(s: Regs, i: Inputs)
    requires s.phase == TransferBlockProcess
    ensures s.eng.go && !Next(s, i).eng.go ==> !DbgDone(s)
  {
    TransferBlockStepGo(s, s.(port := s.port.(valid := false)), i);
  }

  /** DAP_SWJ_Sequence lowers `go` only at steps 2 and 3, while the synchronised done
      is low. */
  lemma SwjSequenceStepGo(s: Regs, n: Regs, i: Inputs)
    requires n.eng == s.eng
    ensures s.eng.go && !DapSequences.SwjSequenceStep(s, n, i).eng.go ==> !DbgDone(s)
  {
  }

  lemma GoKeptSwjSequence(s: Regs, i: Inputs)
    requires s.phase == SwjSequenceProcess
    ensures s.eng.go && !Next(s, i).eng.go ==> !DbgDone(s)
  {
    SwjSequenceStepGo(s, s.(port := s.port.(valid := false)), i);
  }

  /** WaitDone: `go` is held until done drops, then dropped; the machine leaves exactly
      when `go` is down and the synchronised done is back, answering with the engine's
      protocol-error flag in bit 0 of response byte 1. */
  lemma WaitDoneEdge(s: Regs, i: Inputs)
    requires s.phase == WaitDone
    ensures var t := Next(s, i);
      t.eng.go == (s.eng.go && DbgDone(s)) &&
      t.phase == (if !s.eng.go && DbgDone(s) then Respond else WaitDone) &&
      (t.phase == Respond ==> BitAt(t.reply.txBlock, 8) == i.perr && t.reply.txLen == s.reply.txLen)
  {
  }

  /** With `go` down and done high, an edge either answers or stays in WaitDone with
      done sampled; a second such sample makes the synchronised done high. */
  lemma WaitDoneSampled(s: Regs, i: Inputs)
    requires s.phase == WaitDone && !s.eng.go && i.done
    ensures var t := Next(s, i);
      t.phase == Respond || (t.phase == WaitDone && !t.eng.go && t.doneCdc >= 2 && (s.doneCdc >= 2 ==> DbgDone(t)))
  {
    WaitDoneEdge(s, i);
  }

  /** The runs of the first one, two and three inputs of a run of three. */
  lemma RunPrefixes(s: Regs, ins: seq<Inputs>)
    requires |ins| == 3
    ensures Run(s, ins[..1]) == Next(s, ins[0])
    ensures Run(s, ins[..2]) == Next(Next(s, ins[0]), ins[1])
    ensures Run(s, ins[..3]) == Next(Next(Next(s, ins[0]), ins[1]), ins[2])
  {
    assert ins[..1][1..] == [];
    assert ins[..1] + [ins[1]] == ins[..2];
    RunSnoc(s, ins[..1], ins[1]);
    assert ins[..2] + [ins[2]] == ins[..3];
    RunSnoc(s, ins[..2], ins[2]);
  }

  /** Once `go` is down, three edges with done high are enough to leave WaitDone. */
  lemma WaitDoneLeaves(s: Regs, ins: seq<Inputs>)
    requires s.phase == WaitDone && !s.eng.go
    requires |ins| == 3 && forall k :: 0 <= k < 3 ==> ins[k].done
    ensures exists k :: 1 <= k <= 3 && Run(s, ins[..k]).phase == Respond
  {
    RunPrefixes(s, ins);
    var t1 := Next(s, ins[0]);
    WaitDoneSampled(s, ins[0]);
    if t1.phase == Respond {
      assert Run(s, ins[..1]).phase == Respond;
    } else {
      var t2 := Next(t1, ins[1]);
      WaitDoneSampled(t1, ins[1]);
      if t2.phase == Respond {
        assert Run(s, ins[..2]).phase == Respond;
      } else {
        WaitDoneEdge(t2, ins[2]);
        assert Run(s, ins[..3]).phase == Respond;
      }
    }
  }
}
