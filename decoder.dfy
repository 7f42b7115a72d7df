/** The decoder's own states: Idle sizes a new frame from its opcode and stages the
    default response `<opcode> <0>`; Respond streams the staged response. */
module DapDecoder {
  import opened Bits
  import opened DapState

  /** How a frame continues after its opcode byte. `Fixed(len)`: `len` bytes in all,
      opcode included, are collected in RxParams. `Open(next)`: a variable-length
      command whose state is entered next. `Unknown`: no such command. */
  datatype FrameKind = Fixed(len: U3) | Open(next: Phase) | Unknown

  /** The frame-length table. */
  function Sizing(op: bv8): (k: FrameKind)
    ensures k.Fixed? ==> k.len in {1, 2, 3, 5, 6, 7}
    ensures k.Open? ==> k.next in {SwdSequenceGetCount, ExecuteCommandsGetNum, QueueCommandsGetNum}
  {
    if op in {DAP_Disconnect, DAP_ResetTarget, DAP_SWO_Status, DAP_TransferAbort} then Fixed(1)
    else if op in {DAP_Info, DAP_Connect, DAP_SWD_Configure, DAP_SWO_Transport, DAP_SWJ_Sequence,
                   DAP_SWO_Mode, DAP_SWO_Control, DAP_SWO_ExtendedStatus, DAP_JTAG_IDCODE, DAP_JTAG_Sequence} then Fixed(2)
    else if op in {DAP_HostStatus, DAP_SWO_Data, DAP_Delay, DAP_JTAG_Configure, DAP_Transfer} then Fixed(3)
    else if op in {DAP_SWO_Baudrate, DAP_SWJ_Clock, DAP_TransferBlock} then Fixed(5)
    else if op in {DAP_WriteABORT, DAP_TransferConfigure} then Fixed(6)
    else if op == DAP_SWJ_Pins then Fixed(7)
    else if op == DAP_SWD_Sequence then Open(SwdSequenceGetCount)
    else if op == DAP_ExecuteCommands then Open(ExecuteCommandsGetNum)
    else if op == DAP_QueueCommands then Open(QueueCommandsGetNum)
    else Unknown
  }

  /** The state entered after the opcode byte. A frame that ends on its opcode
      although more bytes were due goes to ProtocolError. */
  function AfterOpcode(op: bv8, last: bool): (r: Phase)
    ensures r == Respond <==> Sizing(op).Unknown?
    ensures r == RxParams <==> Sizing(op).Fixed? && (Sizing(op).len == 1 || !last)
    ensures r == ProtocolError <==> last && (Sizing(op).Open? || (Sizing(op).Fixed? && Sizing(op).len > 1))
    ensures Sizing(op).Open? && !last ==> r == Sizing(op).next
  {
    match Sizing(op)
    case Fixed(len) => if len == 1 || !last then RxParams else ProtocolError
    case Open(next) => if !last then next else ProtocolError
    case Unknown => Respond
  }

  /** Idle: the response cursor and `busy` are cleared; the first byte of a frame
      (valid and first) starts a new one. */
  function IdleStep(s: Regs, n: Regs, i: Inputs): (r: Regs)
    ensures r.reply.txedLen == 0 && r.eng == n.eng && r.session == n.session && r.xfer == n.xfer
    ensures !(i.inValid && i.inFirst) ==> r.phase == n.phase && !r.busy && r.frame == n.frame
    ensures var op := i.inPayload;
      i.inValid && i.inFirst ==>
        r.phase == AfterOpcode(op, i.inLast) &&
        r.frame.rxedLen == 1 && r.frame.rxBlock[0] == op &&
        r.frame.rxLen == (if Sizing(op).Fixed? then Sizing(op).len else n.frame.rxLen) &&
        r.reply.txBlock[1] == 0 &&
        (Sizing(op).Unknown? ==> r.reply.txBlock[0] == DAP_Invalid && r.reply.txLen == 1 && r.busy) &&
        (!Sizing(op).Unknown? ==> r.reply.txBlock[0] == op && r.reply.txLen == 2 && !r.busy)
  {
    var n := n.(reply := n.reply.(txedLen := 0), busy := false);
    if i.inValid && i.inFirst then
      var op := i.inPayload;
      var tx := PutBytes(n.reply.txBlock, 0, [op, 0]);
      assert tx[0] == op && tx[1] == 0;
      var n := n.(phase := ProtocolError, frame := n.frame.(rxedLen := 1, rxBlock := n.frame.rxBlock[0 := op]),
                  reply := n.reply.(txBlock := tx, txLen := 2));
      match Sizing(op)
      case Fixed(len) =>
        var n := n.(frame := n.frame.(rxLen := len));
        if len == 1 || !i.inLast then n.(phase := RxParams) else n
      case Open(next) => if !i.inLast then n.(phase := next) else n
      case Unknown => Invalid(n)
    else n
  }

  /** Respond: on each ready edge the next staged byte, marked last when it is the
      final one; once all `txLen` bytes are out, back to Idle ready for a new frame. */
  function RespondStep(s: Regs, n: Regs, i: Inputs): (r: Regs)
    requires n.reply == s.reply
    ensures var e := s.reply.txedLen;
      e < s.reply.txLen && i.outReady ==>
        r.port == Port(ByteAt(s.reply.txBlock, e), true, e + 1 == s.reply.txLen) &&
        r.reply == s.reply.(txedLen := e + 1) && r.phase == n.phase && r.busy == n.busy
    ensures s.reply.txedLen < s.reply.txLen && !i.outReady ==> r == n
    ensures s.reply.txedLen >= s.reply.txLen ==>
      r.phase == Idle && !r.busy && !r.port.valid && !r.port.last && r.frame.rxedLen == 0
    ensures r.eng == n.eng && r.session == n.session && r.xfer == n.xfer && r.ram == n.ram
  {
    var e := s.reply.txedLen;
    if e < s.reply.txLen then
      if i.outReady then
        n.(port := Port(ByteAt(s.reply.txBlock, e), true, e + 1 == s.reply.txLen), reply := n.reply.(txedLen := e + 1))
      else n
    else n.(port := n.port.(valid := false, last := false), frame := n.frame.(rxedLen := 0), busy := false, phase := Idle)
  }
}
