/** DAP_SWO_Data over a run of edges: the whole response it streams. */
module DapSwoProps {
  import opened Bits
  import opened DapState
  import opened DapSwoData
  import opened DapEngine
  import opened DapRespond

  /** `c` placeholder trace bytes. */
  function Fill(c: nat): (r: seq<bv8>)
    ensures |r| == c && forall k :: 0 <= k < c ==> r[k] == SWO_FILL
  {
    seq(c, _ => SWO_FILL)
  }

  /** The response header for `c` trace bytes: opcode, status 0, the count low byte
      first. */
  function SwoHeader(c: nat): seq<bv8>
  {
    [DAP_SWO_Data, 0, Low8(c), Low8(c / 256)]
  }

  /** Inside the sub-machine, with at least one byte to go while placeholders are
      being sent. */
  predicate SwoSending(s: Regs)
  {
    s.phase == SwoDataProcess && s.txb <= 5 && (s.txb == 4 ==> s.reply.txLen >= 1)
  }

  /** The bytes still to be sent: the rest of the header, then the placeholders still
      counted in `txLen`. */
  function SwoRemaining(s: Regs): seq<bv8>
    requires SwoSending(s)
  {
    if s.txb <= 3 then SwoHeader(s.reply.txLen)[s.txb..] + Fill(s.reply.txLen)
    else if s.txb == 4 then Fill(s.reply.txLen)
    else []
  }

  /** What one ready edge does to the sub-machine's registers, from `s` to `t`. */
  predicate SwoMoves(s: Regs, t: Regs)
    requires SwoSending(s)
  {
    var len := s.reply.txLen;
    if s.txb >= 5 then t.phase == Idle && !t.port.valid
    else
      t.phase == SwoDataProcess && t.port.valid &&
      t.port.payload == [DAP_SWO_Data, 0, Low8(len), Low8(len / 256), SWO_FILL][s.txb] &&
      (s.txb <= 2 ==> t.txb == s.txb + 1 && !t.port.last && t.reply.txLen == len) &&
      (s.txb == 3 ==> t.txb == (if len == 0 then 5 else 4) && t.port.last == (len == 0) && t.reply.txLen == len) &&
      (s.txb == 4 ==> t.txb == (if len == 1 then 5 else 4) && t.port.last == (len == 1) && t.reply.txLen == len - 1)
  }

  lemma SwoRegs(s: Regs, i: Inputs)
    requires SwoSending(s) && i.outReady
    ensures SwoMoves(s, Next(s, i))
  {
  }

  lemma SwoAfter(s: Regs, t: Regs)
    requires SwoSending(s) && s.txb != 5 && SwoMoves(s, t)
    ensures SwoSending(t) && Emits(t, SwoRemaining(s)) && SwoRemaining(t) == SwoRemaining(s)[1..]
  {
    var len := s.reply.txLen;
    if s.txb <= 2 {
      assert SwoHeader(len)[s.txb..][1..] == SwoHeader(len)[s.txb + 1..];
      assert (SwoHeader(len)[s.txb..] + Fill(len))[1..] == SwoHeader(len)[s.txb + 1..] + Fill(len);
    } else if s.txb == 3 {
      assert SwoRemaining(s) == [Low8(len / 256)] + Fill(len);
    } else {
      assert Fill(len)[1..] == Fill(len - 1);
    }
  }

  /** One ready edge: it sends the next byte still to be sent, marked last when it is
      the final one; once nothing is left, the edge returns to Idle without a beat. */
  lemma SwoEdge(s: Regs, i: Inputs)
    requires SwoSending(s) && i.outReady
    ensures var t := Next(s, i);
      if s.txb == 5 then t.phase == Idle && !t.port.valid
      else SwoSending(t) && Emits(t, SwoRemaining(s)) && SwoRemaining(t) == SwoRemaining(s)[1..]
  {
    SwoRegs(s, i);
    if s.txb != 5 {
      SwoAfter(s, Next(s, i));
    }
  }

  /** With the host ready on every edge, the sub-machine sends exactly the bytes still
      to be sent, the final one marked last, and then returns to Idle. */
  lemma {:induction false} SwoSendsAll(s: Regs, ins: seq<Inputs>)
    requires SwoSending(s) && AllReady(ins) && |ins| == |SwoRemaining(s)| + 1
    ensures Output(s, ins, SwoDataProcess) == Beats(SwoRemaining(s)) && Run(s, ins).phase == Idle
    decreases |ins|
  {
    var t := Next(s, ins[0]);
    SwoEdge(s, ins[0]);
    if s.txb == 5 {
      assert ins[1..] == [];
    } else {
      SwoSendsAll(t, ins[1..]);
      ExactStep(t, Output(t, ins[1..], SwoDataProcess), SwoRemaining(s));
    }
  }

  /** The dispatch edge of a complete DAP_SWO_Data frame asking for `asked` bytes
      enters the sub-machine with the header and `min(asked, 100)` placeholders to
      send. */
  lemma SwoDataEntered(s: Regs, j: Inputs)
    requires s.phase == RxParams && s.frame.rxedLen == s.frame.rxLen && s.frame.rxBlock[0] == DAP_SWO_Data
    ensures var asked := s.frame.rxBlock[1] as int + 256 * s.frame.rxBlock[2] as int;
      var c := if asked < 100 then asked else 100;
      var t := Next(s, j);
      SwoSending(t) && SwoRemaining(t) == SwoHeader(c) + Fill(c)
  {
  }

  /** DAP_SWO_Data end to end from its dispatch: with the host ready on every edge
      the answer is exactly `<0x1C> <0> <c:2>` followed by `c` placeholder bytes, where
      `c` is the requested count capped at 100, and the machine returns to Idle. */
  lemma SwoDataAnswered(s: Regs, j: Inputs, ins: seq<Inputs>)
    requires s.phase == RxParams && s.frame.rxedLen == s.frame.rxLen && s.frame.rxBlock[0] == DAP_SWO_Data
    requires var asked := s.frame.rxBlock[1] as int + 256 * s.frame.rxBlock[2] as int;
      AllReady(ins) && |ins| == 5 + (if asked < 100 then asked else 100)
    ensures var asked := s.frame.rxBlock[1] as int + 256 * s.frame.rxBlock[2] as int;
      var c := if asked < 100 then asked else 100;
      var t := Next(s, j);
      Output(t, ins, SwoDataProcess) == Beats([DAP_SWO_Data, 0, Low8(c), Low8(c / 256)] + Fill(c)) &&
      Run(t, ins).phase == Idle
  {
    SwoDataEntered(s, j);
    SwoSendsAll(Next(s, j), ins);
  }
}
