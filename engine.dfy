/** The whole command engine: the dispatcher, the next-state function of one usb
    clock edge, and the engine as an object whose registers and transfer RAM are
    updated in place by `Step`. */
module DapEngine {
  import opened Bits
  import opened DapState
  import opened DapDecoder
  import opened DapCommands
  import opened DapTransfer
  import opened DapTransferBlock
  import opened DapSequences
  import opened DapSwoData

  /** The handler for a complete fixed-length frame, selected by its opcode. An
      opcode with no handler (DAP_TransferAbort among them) answers Invalid. */
  function Dispatch(s: Regs, n: Regs, i: Inputs): (r: Regs)
    ensures r.phase in {Respond, WaitDone, WaitConnectDone, SwjPinsProcess, SwoDataProcess, SwjSequenceProcess,
                        JtagSequenceProcess, TransferProcess, TransferBlockProcess}
    ensures s.frame.rxBlock[0] == DAP_TransferAbort ==> r == Invalid(n)
  {
    var op := s.frame.rxBlock[0];
    if op == DAP_Info then Info(s, n, i)
    else if op == DAP_HostStatus then HostStatus(s, n)
    else if op == DAP_Connect then ConnectSetup(s, n)
    else if op == DAP_Disconnect then Disconnect(n)
    else if op == DAP_WriteABORT then WriteAbort(s, n)
    else if op == DAP_Delay then Delay(s, n)
    else if op == DAP_ResetTarget then ResetTarget(n)
    else if op == DAP_SWJ_Pins then SwjPinsSetup(s, n)
    else if op == DAP_SWJ_Clock then SwjClock(s, n)
    else if op == DAP_SWJ_Sequence then SwjSequenceSetup(s, n)
    else if op == DAP_SWD_Configure then SwdConfigure(s, n)
    else if op == DAP_SWO_Transport then SwoSetting(s, n, 2)
    else if op == DAP_SWO_Mode then SwoSetting(s, n, 2)
    else if op == DAP_SWO_Baudrate then SwoBaudrate(s, n)
    else if op == DAP_SWO_Control then SwoSetting(s, n, 1)
    else if op == DAP_SWO_Status then SwoStatus(n)
    else if op == DAP_SWO_ExtendedStatus then SwoExtendedStatus(s, n)
    else if op == DAP_SWO_Data then SwoDataSetup(s, n)
    else if op == DAP_JTAG_Sequence then JtagSequenceSetup(s, n)
    else if op == DAP_JTAG_Configure then JtagConfigure(s, n)
    else if op == DAP_JTAG_IDCODE then JtagIdcode(n)
    else if op == DAP_TransferConfigure then TransferConfigure(s, n)
    else if op == DAP_Transfer then TransferSetup(s, n)
    else if op == DAP_TransferBlock then TransferBlockSetup(s, n, i)
    else Invalid(n)
  }

  /** RxParams: dispatch once `rxLen` bytes are in; otherwise take the next valid
      byte, hold the stream off after the final one, and answer Invalid when the
      frame ends early. */
  function RxParamsStep(s: Regs, n: Regs, i: Inputs): (r: Regs)
    ensures var k := s.frame.rxedLen;
      k < s.frame.rxLen && i.inValid && !(i.inLast && k + 1 < s.frame.rxLen) ==>
        r.phase == n.phase && r.frame.rxedLen == k + 1 && r.frame.rxBlock[k] == i.inPayload &&
        r.frame.rxBlock[..k] == n.frame.rxBlock[..k] && r.busy == (k + 1 == s.frame.rxLen || n.busy)
    ensures var k := s.frame.rxedLen;
      k < s.frame.rxLen && i.inValid && i.inLast && k + 1 < s.frame.rxLen ==>
        r.phase == Respond && r.reply.txLen == 1 && r.reply.txBlock[0] == DAP_Invalid
    ensures s.frame.rxedLen < s.frame.rxLen && !i.inValid ==> r == n
    ensures s.frame.rxedLen == s.frame.rxLen ==> r == Dispatch(s, n, i)
  {
    var k := s.frame.rxedLen;
    if k == s.frame.rxLen then Dispatch(s, n, i)
    else if i.inValid then
      var n := n.(frame := n.frame.(rxBlock := PutByte(n.frame.rxBlock, k, i.inPayload), rxedLen := (k + 1) % 8));
      var n := if k + 1 == s.frame.rxLen then n.(busy := true) else n;
      if i.inLast && k + 1 != s.frame.rxLen then Invalid(n) else n
    else n
  }

  /** The decoder FSM's part of one usb clock edge. The outbound stream's valid
      defaults to 0; every state's handler assigns into that. */
  function Decode(s: Regs, i: Inputs): (r: Regs)
    ensures s.phase in {ProtocolError, Error, TransferBlockWait, SwdSequenceGetCount, ExecuteCommandsGetNum,
                        QueueCommandsGetNum} ==>
      r.phase == Respond && r.reply.txLen == 1 && r.reply.txBlock[0] == DAP_Invalid
  {
    var n := s.(port := s.port.(valid := false));
    match s.phase
    case Idle => IdleStep(s, n, i)
    case RxParams => RxParamsStep(s, n, i)
    case Respond => RespondStep(s, n, i)
    case SwjPinsProcess => SwjPinsAnswer(s, n, i)
    case SwoDataProcess => SwoDataStep(s, n, i)
    case SwjSequenceProcess => SwjSequenceStep(s, n, i)
    case JtagSequenceProcess => JtagSequenceStep(s, n, i)
    case TransferProcess => TransferStep(s, n, i)
    case TransferBlockProcess => TransferBlockStep(s, n, i)
    case WaitDone => AwaitDone(s, n, i)
    case WaitConnectDone => AwaitConnect(s, n)
    case ProtocolError | Error | TransferBlockWait | SwdSequenceGetCount
       | ExecuteCommandsGetNum | QueueCommandsGetNum => Invalid(n)
  }

  /** One usb clock edge: the FSM's edge, the `done` sampler's and the RAM's (its
      write, and its read port taking the word at the old address). The FSM moves
      the RAM's address only. */
  function Next(s: Regs, i: Inputs): (r: Regs)
    ensures r.doneCdc == ShiftDone(s.doneCdc, i.done)
    ensures r.ram.mem == RamNext(s, i) && r.ram.datR == ReadPort(s, i)
  {
    var d := Decode(s, i);
    d.(doneCdc := ShiftDone(s.doneCdc, i.done), ram := RamPort(d.ram.adr, ReadPort(s, i), RamNext(s, i)))
  }

  /** The state after the edges `ins`, taken in order from `s`. */
  function Run(s: Regs, ins: seq<Inputs>): (r: Regs)
    decreases |ins|
  {
    if |ins| == 0 then s else Run(Next(s, ins[0]), ins[1..])
  }

  /** A run extended by one edge takes that edge from the run's final state. */
  lemma {:induction false} RunSnoc(s: Regs, ins: seq<Inputs>, i: Inputs)
    ensures Run(s, ins + [i]) == Next(Run(s, ins), i)
    decreases |ins|
  {
    if |ins| == 0 {
      assert (ins + [i])[1..] == [];
    } else {
      assert (ins + [i])[1..] == ins[1..] + [i];
      RunSnoc(Next(s, ins[0]), ins[1..], i);
    }
  }

  /** A run of two parts takes the second from where the first ends. */
  lemma {:induction false} RunAppend(s: Regs, a: seq<Inputs>, b: seq<Inputs>)
    ensures Run(s, a + b) == Run(Run(s, a), b)
    decreases |a|
  {
    if |a| == 0 {
      assert a + b == b;
    } else {
      assert (a + b)[1..] == a[1..] + b;
      RunAppend(Next(s, a[0]), a[1..], b);
    }
  }

  /** One byte on the outbound stream and its last flag. */
  datatype Beat = Beat(payload: bv8, last: bool)

  /** The beat an edge puts on the outbound stream, if any. */
  function BeatOf(t: Regs): seq<Beat>
  {
    if t.port.valid then [Beat(t.port.payload, t.port.last)] else []
  }

  /** The beats put on the outbound stream by the edges `ins` taken while the machine
      is in phase `ph`: the run stops at the first state outside `ph`. */
  function Output(s: Regs, ins: seq<Inputs>, ph: Phase): seq<Beat>
    decreases |ins|
  {
    if |ins| == 0 || s.phase != ph then []
    else
      var t := Next(s, ins[0]);
      BeatOf(t) + Output(t, ins[1..], ph)
  }

  /** The beats of a response made of `bytes`: each byte once, in order, the final one
      marked last. */
  function Beats(bytes: seq<bv8>): (r: seq<Beat>)
    ensures |r| == |bytes|
  {
    seq(|bytes|, k requires 0 <= k < |bytes| => Beat(bytes[k], k == |bytes| - 1))
  }

  lemma BeatsCons(bytes: seq<bv8>)
    requires |bytes| > 0
    ensures Beats(bytes) == [Beat(bytes[0], |bytes| == 1)] + Beats(bytes[1..])
  {
    var b := [Beat(bytes[0], |bytes| == 1)] + Beats(bytes[1..]);
    assert forall k :: 0 <= k < |bytes| ==> Beats(bytes)[k] == b[k];
  }

  /** The beat of the edge that reached `t` is the first byte of `rem`, marked last
      exactly when it is the only one. */
  predicate Emits(t: Regs, rem: seq<bv8>)
  {
    t.port.valid && |rem| > 0 && t.port.payload == rem[0] && t.port.last == (|rem| == 1)
  }

  /** An edge's beat, if any, followed by a prefix of the beats of what it leaves. */
  lemma PrefixStep(t: Regs, o: seq<Beat>, rem: seq<bv8>)
    requires !t.port.valid ==> o <= Beats(rem)
    requires t.port.valid ==> Emits(t, rem) && o <= Beats(rem[1..])
    ensures BeatOf(t) + o <= Beats(rem)
  {
    if t.port.valid {
      BeatsCons(rem);
    }
  }

  /** An edge's beat, if any, followed by all the beats of what it leaves. */
  lemma ExactStep(t: Regs, o: seq<Beat>, rem: seq<bv8>)
    requires !t.port.valid ==> o == Beats(rem)
    requires t.port.valid ==> Emits(t, rem) && o == Beats(rem[1..])
    ensures BeatOf(t) + o == Beats(rem)
  {
    if t.port.valid {
      BeatsCons(rem);
    }
  }

  /** The engine as hardware: every register a field, the transfer RAM an array
      written in place. */
  class CmsisDap {
    var phase: Phase
    var busy: bool
    var txb: U4
    var doneCdc: U2
    var frame: Frame
    var reply: Reply
    var port: Port
    var session: Session
    var xfer: Xfer
    var sq: SeqCtx
    var eng: Engine
    var adr: U12
    var datR: bv32
    const ram: array<bv32>

    ghost predicate Valid()
      reads this
    {
      ram.Length == RAM_DEPTH
    }

    /** All registers and the RAM's contents as one value. */
    function Snapshot(): (s: Regs)
      requires Valid()
      reads this, ram
      ensures s.ram.mem == ram[..] && s.phase == phase && s.txb == txb && s.reply == reply
    {
      Regs(phase, busy, txb, doneCdc, frame, reply, port, session, xfer, sq, eng, RamPort(adr, datR, ram[..]))
    }

    /** The engine out of reset. */
    constructor ()
      ensures Valid() && Snapshot() == Reset() && fresh(ram)
    {
      var s := Reset();
      phase, busy, txb, doneCdc := s.phase, s.busy, s.txb, s.doneCdc;
      frame, reply, port, session := s.frame, s.reply, s.port, s.session;
      xfer, sq, eng := s.xfer, s.sq, s.eng;
      adr, datR := s.ram.adr, s.ram.datR;
      ram := new bv32[RAM_DEPTH](a => if a == 0 then 0xdeadbeef else 0);
      new;
      assert ram[..] == s.ram.mem;
    }

    /** One usb clock edge: every register takes its next value and the RAM its write. */
    method Step(i: Inputs)
      requires Valid()
      modifies this, ram
      ensures Valid() && Snapshot() == Next(old(Snapshot()), i)
    {
      var s := Snapshot();
      var r := Next(s, i);
      if RamWe(s) && adr < RAM_DEPTH {
        ram[adr] := RamData(s, i);
      }
      Load(r);
    }

    /** A helper of `Step`: take the register values of `r`, whose RAM contents the
        array already holds. */
    method Load(r: Regs)
      requires Valid() && ram[..] == r.ram.mem
      modifies this
      ensures Valid() && phase == r.phase && busy == r.busy && txb == r.txb && doneCdc == r.doneCdc
      ensures frame == r.frame && reply == r.reply && port == r.port && session == r.session
      ensures xfer == r.xfer && sq == r.sq && eng == r.eng && adr == r.ram.adr && datR == r.ram.datR
      ensures Snapshot() == r
    {
      phase, busy, txb, doneCdc := r.phase, r.busy, r.txb, r.doneCdc;
      frame, reply, port, session := r.frame, r.reply, r.port, r.session;
      xfer, sq, eng := r.xfer, r.sq, r.eng;
      adr, datR := r.ram.adr, r.ram.datR;
    }
  }

}
