/** The registers of the CMSIS-DAP command engine, the inputs it samples on each
    clock edge, and the signals that are combinational functions of the registers. */
module DapState {
  import opened Bits

  // CMSIS-DAP command identifiers (the first byte of every request and response)
  const DAP_Info: bv8 := 0x00
  const DAP_HostStatus: bv8 := 0x01
  const DAP_Connect: bv8 := 0x02
  const DAP_Disconnect: bv8 := 0x03
  const DAP_TransferConfigure: bv8 := 0x04
  const DAP_Transfer: bv8 := 0x05
  const DAP_TransferBlock: bv8 := 0x06
  const DAP_TransferAbort: bv8 := 0x07
  const DAP_WriteABORT: bv8 := 0x08
  const DAP_Delay: bv8 := 0x09
  const DAP_ResetTarget: bv8 := 0x0a
  const DAP_SWJ_Pins: bv8 := 0x10
  const DAP_SWJ_Clock: bv8 := 0x11
  const DAP_SWJ_Sequence: bv8 := 0x12
  const DAP_SWD_Configure: bv8 := 0x13
  const DAP_JTAG_Sequence: bv8 := 0x14
  const DAP_JTAG_Configure: bv8 := 0x15
  const DAP_JTAG_IDCODE: bv8 := 0x16
  const DAP_SWO_Transport: bv8 := 0x17
  const DAP_SWO_Mode: bv8 := 0x18
  const DAP_SWO_Baudrate: bv8 := 0x19
  const DAP_SWO_Control: bv8 := 0x1a
  const DAP_SWO_Status: bv8 := 0x1b
  const DAP_SWO_Data: bv8 := 0x1c
  const DAP_SWD_Sequence: bv8 := 0x1d
  const DAP_SWO_ExtendedStatus: bv8 := 0x1e
  const DAP_QueueCommands: bv8 := 0x7e
  const DAP_ExecuteCommands: bv8 := 0x7f
  const DAP_Invalid: bv8 := 0xff

  // Commands to the debug-interface engine
  const CMD_RESET: U4 := 0
  const CMD_PINS_WRITE: U4 := 1
  const CMD_TRANSACT: U4 := 2
  const CMD_SET_SWD: U4 := 3
  const CMD_SET_JTAG: U4 := 4
  const CMD_SET_SWJ: U4 := 5
  const CMD_SET_PWRDOWN: U4 := 6
  const CMD_SET_CLK: U4 := 7
  const CMD_SET_CFG: U4 := 8
  const CMD_WAIT: U4 := 9
  const CMD_CLR_ERR: U4 := 10
  const CMD_SET_RST_TMR: U4 := 11
  const CMD_SET_TFR_CFG: U4 := 12

  // Configuration reported by DAP_Info
  const DAP_CAPABILITIES: bv8 := 0x01
  const DAP_TD_TIMER_FREQ: bv32 := 0x3B9ACA00
  const DAP_TB_SIZE: bv32 := 500
  const DAP_MAX_PACKET_COUNT: bv8 := 1
  const DAP_V1_MAX_PACKET_SIZE: bv16 := 64
  const DAP_V2_MAX_PACKET_SIZE: bv16 := 500

  /** Depth of the transfer-result RAM (`WideRam`): one word per possible response word. */
  const RAM_DEPTH: nat := 500
  type Ram = m: seq<bv32> | |m| == RAM_DEPTH witness seq(RAM_DEPTH, _ => 0)

  /** The states of the decoder FSM. `Error` and `TransferBlockWait` (the source's
      'DAP_TransferBlock' state) exist but no transition enters them. */
  datatype Phase =
    | Idle | RxParams | Respond | ProtocolError | Error
    | SwjPinsProcess | SwoDataProcess | SwjSequenceProcess | JtagSequenceProcess
    | TransferProcess | TransferBlockProcess | TransferBlockWait
    | SwdSequenceGetCount | ExecuteCommandsGetNum | QueueCommandsGetNum
    | WaitDone | WaitConnectDone

  /** The inbound frame buffer: opcode and fixed parameters received so far. */
  datatype Frame = Frame(rxBlock: Bytes7, rxLen: U3, rxedLen: U3)

  /** The outbound frame buffer: the staged response, its length and the bytes sent. */
  datatype Reply = Reply(txBlock: Bytes14, txLen: U16, txedLen: U16)

  /** The outbound stream's registers (the source's `streamIn`: probe to host). */
  datatype Port = Port(payload: bv8, valid: bool, last: bool)

  /** Session flags and configuration that persist across commands. */
  datatype Session = Session(running: bool, connected: bool, ndev: bv8, irlength: bv8,
                             waitRetry: U16, matchRetry: U16)

  /** The transfer context of DAP_Transfer and DAP_TransferBlock. */
  datatype Xfer = Xfer(dapIndex: bv8, transferCount: U16, mask: bv32, retries: U16,
                       matchretries: U16, tfrReq: bv8, tfrData: bv32)

  /** The bit-sequence contexts of DAP_SWJ_Sequence and DAP_JTAG_Sequence. */
  datatype SeqCtx = SeqCtx(bitcount: U3, tmsValue: bool, tdoCapture: bool, tdiData: bv8,
                           tdoCount: U7, seqCount: U8, tckCycles: U6, bytebits: U4)

  /** The debug-interface engine's command registers, driven by this machine. */
  datatype Engine = Engine(command: U4, apndp: bool, rnw: bool, addr32: U2, dwrite: bv32,
                           go: bool, countdown: bv32, pinsin: bv16)

  /** The transfer RAM: its address register, its registered read port and its words. */
  datatype RamPort = RamPort(adr: U12, datR: bv32, mem: Ram)

  /** All registers of the usb clock domain. `txb` is the step counter shared by
      every handler's sub-machine; `doneCdc` the two-stage sampler of the engine's done. */
  datatype Regs = Regs(
    phase: Phase, busy: bool, txb: U4, doneCdc: U2,
    frame: Frame, reply: Reply, port: Port, session: Session,
    xfer: Xfer, sq: SeqCtx, eng: Engine, ram: RamPort
  )

  /** What the machine samples on one clock edge. The inbound stream (host to
      probe) is the source's `streamOut`; `outReady` is the outbound consumer's
      ready. `done` .. `postedMode` are outputs of the debug-interface engine, an
      arbitrary environment here. `undefBit` is the value of the bit select past
      the end of the 8-bit `tfrReq` in TransferBlock's setup, about which the
      source fixes nothing. */
  datatype Inputs = Inputs(
    inValid: bool, inFirst: bool, inLast: bool, inPayload: bv8,
    outReady: bool,
    isV2: bool,
    done: bool, ack: bv3, perr: bool, dread: bv32,
    again: bool, ignoreData: bool, postedMode: bool,
    undefBit: bool
  )

  /** The inbound stream's ready: the machine accepts host bytes when not busy. */
  predicate InReady(s: Regs): (r: bool)
    ensures r <==> !s.busy
  {
    !s.busy
  }

  /** `done_cdc` samples the engine's `done` into its high bit. */
  function ShiftDone(cdc: U2, done: bool): (r: U2)
    ensures (r >= 2) == done
    ensures r % 2 == cdc / 2
  {
    (if done then 2 else 0) + cdc / 2
  }

  /** The synchronised done: two consecutive high samples. */
  predicate DbgDone(s: Regs): (r: bool)
    ensures r <==> s.doneCdc >= 2 && s.doneCdc % 2 == 1
  {
    s.doneCdc == 3
  }

  /** The RAM write enable: the synchronised rising edge of done. */
  predicate RamWe(s: Regs): (r: bool)
    ensures r <==> s.doneCdc >= 2 && s.doneCdc % 2 == 0
  {
    s.doneCdc == 2
  }

  /** Whatever the sampler held before, after two edges that saw done `d1` and then
      `d2` the synchronised done is high exactly when both were high, and the RAM's
      write strobe fires exactly when done has just risen; the two never coincide. */
  lemma DoneSynchroniser(s: Regs, d1: bool, d2: bool)
    ensures var t := s.(doneCdc := ShiftDone(ShiftDone(s.doneCdc, d1), d2));
      (DbgDone(t) <==> d1 && d2) && (RamWe(t) <==> !d1 && d2) && !(DbgDone(t) && RamWe(t))
  {
  }

  /** The RAM write data: the engine's read data in the two transfer states, 0 elsewhere
      (a combinational signal keeps its reset value where it is not driven). */
  function RamData(s: Regs, i: Inputs): (r: bv32)
    ensures s.phase in {TransferProcess, TransferBlockProcess} ==> r == i.dread
    ensures s.phase !in {TransferProcess, TransferBlockProcess} ==> r == 0
  {
    if s.phase == TransferProcess || s.phase == TransferBlockProcess then i.dread else 0
  }

  /** The RAM after this edge's write. */
  function RamNext(s: Regs, i: Inputs): (m: Ram)
    ensures forall a :: 0 <= a < RAM_DEPTH && !(RamWe(s) && a == s.ram.adr) ==> m[a] == s.ram.mem[a]
    ensures RamWe(s) && s.ram.adr < RAM_DEPTH ==> m[s.ram.adr] == RamData(s, i)
  {
    if RamWe(s) && s.ram.adr < RAM_DEPTH then s.ram.mem[s.ram.adr := RamData(s, i)] else s.ram.mem
  }

  /** The registered, write-transparent read port: the word at `adr` after this edge's write. */
  function ReadPort(s: Regs, i: Inputs): (r: bv32)
    ensures s.ram.adr < RAM_DEPTH && RamWe(s) ==> r == RamData(s, i)
    ensures s.ram.adr < RAM_DEPTH && !RamWe(s) ==> r == s.ram.mem[s.ram.adr]
    ensures s.ram.adr >= RAM_DEPTH ==> r == 0
  {
    if s.ram.adr < RAM_DEPTH then RamNext(s, i)[s.ram.adr] else 0
  }

  /** The state at reset: every register 0, the RAM holding 0xdeadbeef at word 0. */
  function Reset(): (s: Regs)
    ensures s.phase == Idle && !s.busy && !s.eng.go && s.reply.txedLen == 0
  {
    Regs(Idle, false, 0, 0,
         Frame(seq(7, _ => 0), 0, 0), Reply(seq(14, _ => 0), 0, 0), Port(0, false, false),
         Session(false, false, 0, 0, 0, 0), Xfer(0, 0, 0, 0, 0, 0, 0),
         SeqCtx(0, false, false, 0, 0, 0, 0, 0), Engine(0, false, false, 0, 0, false, 0, 0),
         RamPort(0, 0, seq(RAM_DEPTH, a => if a == 0 then 0xdeadbeef else 0)))
  }

  /** `RESP_Invalid`: answer the single byte 0xFF. Applied to the next state `n`
      being built, so earlier assignments of the same edge to other bytes stay. */
  function Invalid(n: Regs): (r: Regs)
    ensures r.phase == Respond && r.reply.txLen == 1 && r.reply.txBlock[0] == DAP_Invalid && r.busy
    ensures r.reply.txBlock[1..] == n.reply.txBlock[1..] && r.reply.txedLen == n.reply.txedLen
    ensures r.txb == n.txb && r.doneCdc == n.doneCdc && r.frame == n.frame && r.port == n.port
    ensures r.session == n.session && r.xfer == n.xfer && r.sq == n.sq && r.eng == n.eng && r.ram == n.ram
  {
    n.(reply := n.reply.(txBlock := n.reply.txBlock[0 := DAP_Invalid], txLen := 1), busy := true, phase := Respond)
  }

  /** Assign `txBlock`, keeping the response length and cursor. */
  function WithTx(n: Regs, block: Bytes14): (r: Regs)
    ensures r.reply == n.reply.(txBlock := block)
    ensures r.phase == n.phase && r.busy == n.busy && r.txb == n.txb && r.frame == n.frame && r.port == n.port
    ensures r.session == n.session && r.xfer == n.xfer && r.sq == n.sq && r.eng == n.eng && r.ram == n.ram
  {
    n.(reply := n.reply.(txBlock := block))
  }

  /** Assign `txBlock` and `txLen`. */
  function WithTxLen(n: Regs, block: Bytes14, len: U16): (r: Regs)
    ensures r.reply == n.reply.(txBlock := block, txLen := len)
  {
    n.(reply := n.reply.(txBlock := block, txLen := len))
  }

  /** Hand one command and its operand to the debug-interface engine (raise `go`)
      and wait for it in WaitDone. */
  function Issue(n: Regs, cmd: U4, operand: bv32): (r: Regs)
    ensures r.eng == n.eng.(command := cmd, dwrite := operand, go := true) && r.phase == WaitDone
    ensures r.busy == n.busy && r.txb == n.txb && r.frame == n.frame && r.reply == n.reply && r.port == n.port
    ensures r.session == n.session && r.xfer == n.xfer && r.sq == n.sq && r.ram == n.ram
  {
    n.(eng := n.eng.(command := cmd, dwrite := operand, go := true), phase := WaitDone)
  }

  /** The ack/perr status byte `Cat(ack, perr)`. */
  function AckByte(ack: bv3, perr: bool): (r: bv8)
    ensures r & 7 == ack as bv8 && BitOf(r, 3) == perr && r < 16
  {
    (ack as bv8) | (if perr then 8 else 0)
  }
}
