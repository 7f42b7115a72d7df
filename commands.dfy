/** The handlers that answer with a fixed layout or pass one command to the
    debug-interface engine and wait for it. Every handler reads the pre-edge
    registers `s` and assigns into `n`, the next state built so far on this edge. */
module DapCommands {
  import opened Bits
  import opened DapState

  /** DAP_Info: `<0x00> <id>`. */
  function Info(s: Regs, n: Regs, i: Inputs): (r: Regs)
    ensures r.phase == Respond
    ensures var id := s.frame.rxBlock[1];
      (id == 0xFF ==>
        r.reply.txLen == 6 && r.reply.txBlock[1] == 2 &&
        r.reply.txBlock[2..4] == LE16(if i.isV2 then DAP_V2_MAX_PACKET_SIZE else DAP_V1_MAX_PACKET_SIZE)) &&
      (id == 0x04 ==> r.reply.txLen == 7 && r.reply.txBlock[1..7] == [5, 0x31, 0x2e, 0x30, 0x30, 0]) &&
      (id == 0xF0 ==> r.reply.txLen == 3 && r.reply.txBlock[1..3] == [1, DAP_CAPABILITIES]) &&
      (id == 0xF1 ==> r.reply.txLen == 6 && r.reply.txBlock[1..6] == [8] + LE32(DAP_TD_TIMER_FREQ)) &&
      (id == 0xFD ==> r.reply.txLen == 6 && r.reply.txBlock[1..6] == [4] + LE32(DAP_TB_SIZE)) &&
      (id == 0xFE ==> r.reply.txLen == 6 && r.reply.txBlock[1..3] == [1, DAP_MAX_PACKET_COUNT]) &&
      (id in {1, 2, 3, 5, 6} ==> r.reply.txLen == 2 && r.reply.txBlock[1] == 0) &&
      (id !in {1, 2, 3, 4, 5, 6, 0xF0, 0xF1, 0xFD, 0xFE, 0xFF} ==>
        r.reply.txLen == 1 && r.reply.txBlock[0] == DAP_Invalid && r.busy) &&
      (id in {1, 2, 3, 4, 5, 6, 0xF0, 0xF1, 0xFD, 0xFE, 0xFF} ==>
        r.reply.txBlock[0] == n.reply.txBlock[0] && r.busy == n.busy)
    ensures r.reply.txedLen == n.reply.txedLen && r.eng == n.eng && r.session == n.session
  {
    var n := n.(phase := Respond);
    var tx := n.reply.txBlock;
    var id := s.frame.rxBlock[1];
    if id in {1, 2, 3, 5, 6} then WithTxLen(n, PutBytes(tx, 1, [0]), 2)
    else if id == 0x04 then WithTxLen(n, PutBytes(tx, 1, [5, 0x31, 0x2e, 0x30, 0x30, 0]), 7)
    else if id == 0xF0 then WithTxLen(n, PutBytes(tx, 1, [1, DAP_CAPABILITIES]), 3)
    else if id == 0xF1 then WithTxLen(n, PutBytes(tx, 1, [8] + LE32(DAP_TD_TIMER_FREQ) + [0]), 6)
    else if id == 0xFD then WithTxLen(n, PutBytes(tx, 1, [4] + LE32(DAP_TB_SIZE)), 6)
    else if id == 0xFE then WithTxLen(n, PutBytes(tx, 1, [1, DAP_MAX_PACKET_COUNT]), 6)
    else if id == 0xFF then
      var size := if i.isV2 then DAP_V2_MAX_PACKET_SIZE else DAP_V1_MAX_PACKET_SIZE;
      var b := PutBytes(tx, 1, [2] + LE16(size));
      assert b[1..4] == [2] + LE16(size);
      assert b[2..4] == b[1..4][1..];
      WithTxLen(n, b, 6)
    else Invalid(n)
  }

  /** DAP_HostStatus: `<0x01> <type> <status>` drives the connected or running indicator. */
  function HostStatus(s: Regs, n: Regs): (r: Regs)
    ensures r.phase == Respond
    ensures r.session.connected == if s.frame.rxBlock[1] == 0 then s.frame.rxBlock[2] == 1 else n.session.connected
    ensures r.session.running == if s.frame.rxBlock[1] == 1 then s.frame.rxBlock[2] == 1 else n.session.running
    ensures r.reply.txLen == (if s.frame.rxBlock[1] > 1 then 1 else n.reply.txLen)
    ensures s.frame.rxBlock[1] > 1 ==> r.reply.txBlock[0] == DAP_Invalid
    ensures s.frame.rxBlock[1] <= 1 ==> r.reply == n.reply
  {
    var n := n.(phase := Respond);
    var on := s.frame.rxBlock[2] == 1;
    if s.frame.rxBlock[1] == 0 then n.(session := n.session.(connected := on))
    else if s.frame.rxBlock[1] == 1 then n.(session := n.session.(running := on))
    else Invalid(n)
  }

  /** DAP_Connect: `<0x02> <port>`. Only SWD is in the capabilities, so port 0
      (default, which is SWD) and port 1 select SWD; any other port is Invalid. */
  function ConnectSetup(s: Regs, n: Regs): (r: Regs)
    ensures s.frame.rxBlock[1] <= 1 ==>
      r.phase == WaitConnectDone && r.eng.go && r.eng.command == CMD_SET_SWD &&
      r.reply.txLen == 2 && r.reply.txBlock[..2] == [s.frame.rxBlock[0], 1]
    ensures s.frame.rxBlock[1] > 1 ==>
      r.phase == Respond && r.reply.txLen == 1 && r.reply.txBlock[0] == DAP_Invalid && r.eng == n.eng
    ensures r.busy
  {
    var n := Invalid(n);
    if s.frame.rxBlock[1] == 0 || s.frame.rxBlock[1] == 1 then
      WithTxLen(n, PutBytes(n.reply.txBlock, 0, [s.frame.rxBlock[0], 1]), 2)
        .(eng := n.eng.(command := CMD_SET_SWD, go := true), phase := WaitConnectDone)
    else n
  }

  /** The engine handshake's wait, shared by every command that issued `go`:
      drop `go` once the engine has dropped done, leave once done is back. */
  function AwaitConnect(s: Regs, n: Regs): (r: Regs)
    ensures n.eng.go == s.eng.go ==> r.eng.go == (s.eng.go && DbgDone(s))
    ensures r.phase == (if !s.eng.go && DbgDone(s) then Respond else n.phase)
    ensures r.reply == n.reply
  {
    var n := if s.eng.go && !DbgDone(s) then n.(eng := n.eng.(go := false)) else n;
    if !s.eng.go && DbgDone(s) then n.(phase := Respond) else n
  }

  /** As AwaitConnect, and on leaving it copies the engine's protocol-error flag
      into bit 0 of response byte 1. */
  function AwaitDone(s: Regs, n: Regs, i: Inputs): (r: Regs)
    ensures n.eng.go == s.eng.go ==> r.eng.go == (s.eng.go && DbgDone(s))
    ensures r.phase == (if !s.eng.go && DbgDone(s) then Respond else n.phase)
    ensures !s.eng.go && DbgDone(s) ==>
      BitAt(r.reply.txBlock, 8) == i.perr && r.reply.txBlock[0] == n.reply.txBlock[0] &&
      r.reply.txBlock[2..] == n.reply.txBlock[2..] && r.reply.txLen == n.reply.txLen
    ensures !(!s.eng.go && DbgDone(s)) ==> r.reply == n.reply
  {
    var n := if s.eng.go && !DbgDone(s) then n.(eng := n.eng.(go := false)) else n;
    if !s.eng.go && DbgDone(s) then
      var b := SetBitAt(n.reply.txBlock, 8, i.perr);
      assert b[2..] == n.reply.txBlock[2..];
      WithTx(n, b).(phase := Respond)
    else n
  }

  /** DAP_Disconnect: clears both indicators. */
  function Disconnect(n: Regs): (r: Regs)
    ensures !r.session.running && !r.session.connected && r.phase == Respond
    ensures r.reply == n.reply && r.eng == n.eng
  {
    n.(session := n.session.(running := false, connected := false), phase := Respond)
  }

  /** DAP_WriteABORT: `<0x08> <index> <abort:4>` writes the abort word to DP register 0. */
  function WriteAbort(s: Regs, n: Regs): (r: Regs)
    ensures r.phase == WaitDone && r.eng.go && r.eng.command == CMD_TRANSACT
    ensures !r.eng.apndp && !r.eng.rnw && r.eng.addr32 == 0
    ensures LE32(r.eng.dwrite) == s.frame.rxBlock[2..6]
  {
    var rx := s.frame.rxBlock;
    LE32OfWord(rx[2], rx[3], rx[4], rx[5]);
    Issue(n.(eng := n.eng.(apndp := false, rnw := false, addr32 := 0)), CMD_TRANSACT, Word(rx[2], rx[3], rx[4], rx[5]))
  }

  /** DAP_Delay: `<0x09> <delay:2>`. The low byte of the engine's operand is request
      byte 2 and the high byte is request byte 1. */
  function Delay(s: Regs, n: Regs): (r: Regs)
    ensures r.phase == WaitDone && r.eng.go && r.eng.command == CMD_WAIT
    ensures LE32(r.eng.dwrite) == [s.frame.rxBlock[2], s.frame.rxBlock[1], 0, 0]
  {
    var rx := s.frame.rxBlock;
    LE32OfWord(rx[2], rx[1], 0, 0);
    Issue(n, CMD_WAIT, Word(rx[2], rx[1], 0, 0))
  }

  /** DAP_ResetTarget: answers `<0x0A> <0> <0x80>` once the engine reset completes. */
  function ResetTarget(n: Regs): (r: Regs)
    ensures r.phase == WaitDone && r.eng.go && r.eng.command == CMD_RESET
    ensures r.reply.txLen == 3 && r.reply.txBlock[1..3] == [0, 0x80] && r.reply.txBlock[0] == n.reply.txBlock[0]
  {
    Issue(WithTxLen(n, PutBytes(n.reply.txBlock, 1, [0, 0x80]), 3), CMD_RESET, n.eng.dwrite)
  }

  /** DAP_SWJ_Pins setup: `<0x10> <output> <select> <wait:4>`. It stages the pin
      output and select bytes in the upper half of the operand, loads the countdown
      from transmit bytes 3..6, and issues no command. */
  function SwjPinsSetup(s: Regs, n: Regs): (r: Regs)
    ensures r.phase == SwjPinsProcess && r.eng.go == n.eng.go && r.eng.command == n.eng.command
    ensures LE32(r.eng.dwrite) == [0, 0, s.frame.rxBlock[1], s.frame.rxBlock[2]]
    ensures LE32(r.eng.countdown) == s.reply.txBlock[3..7]
  {
    var rx := s.frame.rxBlock;
    var tx := s.reply.txBlock;
    LE32OfWord(0, 0, rx[1], rx[2]);
    LE32OfWord(tx[3], tx[4], tx[5], tx[6]);
    n.(eng := n.eng.(dwrite := Word(0, 0, rx[1], rx[2]), countdown := Word(tx[3], tx[4], tx[5], tx[6])),
       phase := SwjPinsProcess)
  }

  /** DAP_SWJ_Pins: one edge later it answers, with the engine's pin byte if done was seen. */
  function SwjPinsAnswer(s: Regs, n: Regs, i: Inputs): (r: Regs)
    ensures r.phase == Respond
    ensures DbgDone(s) ==> r.reply.txLen == 2 && r.reply.txBlock[1] == WordByte(i.dread, 0)
    ensures !DbgDone(s) ==> r.reply == n.reply
  {
    var n := n.(phase := Respond);
    if DbgDone(s) then WithTxLen(n, PutByte(n.reply.txBlock, 1, WordByte(i.dread, 0)), 2) else n
  }

  /** DAP_SWJ_Clock: `<0x11> <clock:4>`. */
  function SwjClock(s: Regs, n: Regs): (r: Regs)
    ensures r.phase == WaitDone && r.eng.go && r.eng.command == CMD_SET_CLK
    ensures LE32(r.eng.dwrite) == s.frame.rxBlock[1..5]
  {
    var rx := s.frame.rxBlock;
    LE32OfWord(rx[1], rx[2], rx[3], rx[4]);
    Issue(n, CMD_SET_CLK, Word(rx[1], rx[2], rx[3], rx[4]))
  }

  /** DAP_SWD_Configure: `<0x13> <config>`. */
  function SwdConfigure(s: Regs, n: Regs): (r: Regs)
    ensures r.phase == WaitDone && r.eng.go && r.eng.command == CMD_SET_CFG
    ensures LE32(r.eng.dwrite) == [s.frame.rxBlock[1], 0, 0, 0]
  {
    LE32OfWord(s.frame.rxBlock[1], 0, 0, 0);
    Issue(n, CMD_SET_CFG, Word(s.frame.rxBlock[1], 0, 0, 0))
  }

  /** DAP_SWO_Transport, DAP_SWO_Mode and DAP_SWO_Control: the status byte is 0xFF
      (error) when the argument exceeds `limit`, and left as staged (0, ok) otherwise. */
  function SwoSetting(s: Regs, n: Regs, limit: bv8): (r: Regs)
    ensures r.phase == Respond && r.reply.txLen == n.reply.txLen
    ensures r.reply.txBlock[1] == if s.frame.rxBlock[1] > limit then 0xFF else n.reply.txBlock[1]
    ensures r.reply.txBlock[0] == n.reply.txBlock[0] && r.reply.txBlock[2..] == n.reply.txBlock[2..]
  {
    var n := if s.frame.rxBlock[1] > limit then WithTx(n, PutByte(n.reply.txBlock, 1, 0xFF)) else n;
    n.(phase := Respond)
  }

  /** DAP_SWO_Baudrate: echoes the five request bytes. */
  function SwoBaudrate(s: Regs, n: Regs): (r: Regs)
    ensures r.phase == Respond && r.reply.txLen == 5 && r.reply.txBlock[..5] == s.frame.rxBlock[..5]
  {
    WithTxLen(n, s.frame.rxBlock + seq(7, _ => 0), 5).(phase := Respond)
  }

  /** DAP_SWO_Status: a fixed placeholder status and trace count. */
  function SwoStatus(n: Regs): (r: Regs)
    ensures r.phase == Respond && r.reply.txLen == 6 && r.reply.txBlock[1..6] == [0] + LE32(0x11223344)
  {
    WithTxLen(n, PutBytes(n.reply.txBlock, 1, [0] + LE32(0x11223344)), 6).(phase := Respond)
  }

  /** DAP_SWO_ExtendedStatus: `<0x1E> <control>`; placeholder values, Invalid when
      any of control bits 3..7 is set. */
  function SwoExtendedStatus(s: Regs, n: Regs): (r: Regs)
    ensures r.phase == Respond
    ensures s.frame.rxBlock[1] & 0xF8 != 0 ==> r.reply.txLen == 1 && r.reply.txBlock[0] == DAP_Invalid
    ensures s.frame.rxBlock[1] & 0xF8 == 0 ==>
      r.reply.txLen == 14 &&
      r.reply.txBlock[1..] == [0] + LE32(0x11223344) + LE32(0x55667788) + LE32(0x99aabbcc)
  {
    if s.frame.rxBlock[1] & 0xF8 != 0 then Invalid(n)
    else
      var b := PutBytes(n.reply.txBlock, 1, [0] + LE32(0x11223344) + LE32(0x55667788) + LE32(0x99aabbcc));
      WithTxLen(n, b, 14).(phase := Respond)
  }

  /** DAP_JTAG_Configure: `<0x15> <count> <irlength>` records one device's IR length. */
  function JtagConfigure(s: Regs, n: Regs): (r: Regs)
    ensures r.session.irlength == s.frame.rxBlock[2] && r.session.ndev == s.frame.rxBlock[1]
    ensures r.phase == Respond && r.reply == n.reply && r.eng == n.eng
  {
    n.(session := n.session.(irlength := s.frame.rxBlock[2], ndev := s.frame.rxBlock[1]), phase := Respond)
  }

  /** DAP_JTAG_IDCODE: a fixed placeholder IDCODE. */
  function JtagIdcode(n: Regs): (r: Regs)
    ensures r.phase == Respond && r.reply.txLen == 6 && r.reply.txBlock[2..6] == LE32(0x44332211)
    ensures r.reply.txBlock[..2] == n.reply.txBlock[..2]
  {
    WithTxLen(n, PutBytes(n.reply.txBlock, 2, LE32(0x44332211)), 6).(phase := Respond)
  }

  /** DAP_TransferConfigure: `<0x04> <idle> <waitRetry:2> <matchRetry:2>`. */
  function TransferConfigure(s: Regs, n: Regs): (r: Regs)
    ensures r.session.waitRetry == s.frame.rxBlock[2] as int + 256 * s.frame.rxBlock[3] as int
    ensures r.session.matchRetry == s.frame.rxBlock[4] as int + 256 * s.frame.rxBlock[5] as int
    ensures LE32(r.eng.dwrite) == [s.frame.rxBlock[1], 0, 0, 0]
    ensures r.phase == WaitDone && r.eng.go && r.eng.command == CMD_SET_TFR_CFG
  {
    var rx := s.frame.rxBlock;
    LE32OfWord(rx[1], 0, 0, 0);
    Issue(n.(session := n.session.(waitRetry := rx[2] as int + 256 * rx[3] as int,
                                   matchRetry := rx[4] as int + 256 * rx[5] as int)),
          CMD_SET_TFR_CFG, Word(rx[1], 0, 0, 0))
  }
}
