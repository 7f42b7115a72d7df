/** Streaming a staged response in the Respond state. */
module DapRespond {
  import opened Bits
  import opened DapState
  import opened DapDecoder
  import opened DapEngine

  /** In Respond with the cursor within the response. */
  predicate Responding(s: Regs)
  {
    s.phase == Respond && s.reply.txedLen <= s.reply.txLen
  }

  /** The staged bytes not yet sent (a byte past the 14-byte block reads 0). */
  function Pending(s: Regs): (p: seq<bv8>)
    requires s.reply.txedLen <= s.reply.txLen
    ensures |p| == s.reply.txLen - s.reply.txedLen
  {
    seq(s.reply.txLen - s.reply.txedLen, k requires 0 <= k < s.reply.txLen - s.reply.txedLen =>
      ByteAt(s.reply.txBlock, s.reply.txedLen + k))
  }

  /** A response staged from its first byte is pending whole. */
  lemma StagedPending(s: Regs, bytes: seq<bv8>)
    requires s.reply.txedLen == 0 && s.reply.txLen == |bytes| && |bytes| <= 14
    requires s.reply.txBlock[..|bytes|] == bytes
    ensures Pending(s) == bytes
  {
    forall k | 0 <= k < |bytes|
      ensures Pending(s)[k] == bytes[k]
    {
      assert Pending(s)[k] == ByteAt(s.reply.txBlock, s.reply.txedLen + k);
      assert bytes[k] == s.reply.txBlock[..|bytes|][k] == s.reply.txBlock[k];
    }
  }

  /** A response staged whole in Respond is streamed out exactly, one edge per byte
      and one more to return to Idle. */
  lemma StagedAnswered(s: Regs, bytes: seq<bv8>, outs: seq<Inputs>)
    requires s.phase == Respond && s.reply.txedLen == 0 && s.reply.txLen == |bytes| && |bytes| <= 14
    requires s.reply.txBlock[..|bytes|] == bytes
    requires AllReady(outs) && |outs| == |bytes| + 1
    ensures Output(s, outs, Respond) == Beats(bytes) && Run(s, outs).phase == Idle
  {
    StagedPending(s, bytes);
    RespondSendsAll(s, outs);
  }

  /** The host is ready on every edge of `ins`. */
  predicate AllReady(ins: seq<Inputs>)
    decreases |ins|
  {
    |ins| == 0 || (ins[0].outReady && AllReady(ins[1..]))
  }

  /** The registers after one edge in Respond. */
  lemma RespondRegs(s: Regs, i: Inputs)
    requires s.phase == Respond
    ensures var t := Next(s, i); var e := s.reply.txedLen;
      if e < s.reply.txLen then
        t.phase == Respond && t.reply.txBlock == s.reply.txBlock && t.reply.txLen == s.reply.txLen &&
        t.port.valid == i.outReady && t.reply.txedLen == (if i.outReady then e + 1 else e) &&
        (i.outReady ==> t.port.payload == ByteAt(s.reply.txBlock, e) && t.port.last == (e + 1 == s.reply.txLen))
      else !t.port.valid && t.phase == Idle && !t.busy && t.frame.rxedLen == 0
  {
  }

  /** Sending one byte leaves the rest pending. */
  lemma PendingDrop(s: Regs, t: Regs)
    requires s.reply.txedLen < s.reply.txLen
    requires t.reply.txBlock == s.reply.txBlock && t.reply.txLen == s.reply.txLen && t.reply.txedLen == s.reply.txedLen + 1
    ensures Pending(t) == Pending(s)[1..]
  {
    assert forall k :: 0 <= k < |Pending(t)| ==> Pending(t)[k] == Pending(s)[1..][k];
  }

  /** One edge in Respond: a ready edge sends the next pending byte, marked last when
      it is the final one; an edge with nothing pending returns to Idle, with `busy`
      and the frame cursor cleared. The cursor never passes `txLen`. */
  lemma RespondEdge(s: Regs, i: Inputs)
    requires Responding(s)
    ensures var t := Next(s, i);
      if s.reply.txedLen < s.reply.txLen then
        Responding(t) && t.port.valid == i.outReady &&
        (i.outReady ==> Emits(t, Pending(s)) && Pending(t) == Pending(s)[1..]) &&
        (!i.outReady ==> Pending(t) == Pending(s))
      else !t.port.valid && t.phase == Idle && !t.busy && t.frame.rxedLen == 0
  {
    var t := Next(s, i);
    RespondRegs(s, i);
    if s.reply.txedLen < s.reply.txLen && i.outReady {
      PendingDrop(s, t);
    }
  }

  /** Whatever the ready pattern, Respond sends a prefix of the staged response, in
      order, with only the response's final byte marked last. */
  lemma {:induction false} RespondSendsPrefix(s: Regs, ins: seq<Inputs>)
    requires Responding(s)
    ensures Output(s, ins, Respond) <= Beats(Pending(s))
    decreases |ins|
  {
    if |ins| > 0 {
      var t := Next(s, ins[0]);
      RespondEdge(s, ins[0]);
      if s.reply.txedLen < s.reply.txLen {
        RespondSendsPrefix(t, ins[1..]);
        PrefixStep(t, Output(t, ins[1..], Respond), Pending(s));
      }
    }
  }

  /** With the consumer always ready, the whole response goes out in `txLen - txedLen`
      edges and the next edge returns to Idle, ready for a new frame. */
  lemma {:induction false} RespondSendsAll(s: Regs, ins: seq<Inputs>)
    requires Responding(s) && AllReady(ins)
    requires |ins| == |Pending(s)| + 1
    ensures Output(s, ins, Respond) == Beats(Pending(s))
    ensures var t := Run(s, ins); t.phase == Idle && !t.busy && t.frame.rxedLen == 0
    decreases |ins|
  {
    var t := Next(s, ins[0]);
    RespondEdge(s, ins[0]);
    if s.reply.txedLen < s.reply.txLen {
      RespondSendsAll(t, ins[1..]);
      ExactStep(t, Output(t, ins[1..], Respond), Pending(s));
    } else {
      assert ins[1..] == [];
    }
  }
}
