/** DAP_SWO_Data: `<0x1C> <count:2>`. This probe has no trace buffer behind it: the
    response streams straight from the sub-machine, a header and then a run of
    placeholder bytes. */
module DapSwoData {
  import opened Bits
  import opened DapState

  /** At most this many trace bytes are returned. */
  const SWO_MAX_BYTES: U16 := 100

  /** The placeholder trace byte. */
  const SWO_FILL: bv8 := 42

  /** Setup: the count of bytes to return, capped at 100, is kept in `txLen`. */
  function SwoDataSetup(s: Regs, n: Regs): (r: Regs)
    ensures var asked := s.frame.rxBlock[1] as int + 256 * s.frame.rxBlock[2] as int;
      r.reply.txLen == (if asked < SWO_MAX_BYTES then asked else SWO_MAX_BYTES)
    ensures r.reply.txLen <= SWO_MAX_BYTES
    ensures r.txb == 0 && r.phase == SwoDataProcess && r.port == n.port
  {
    var asked := s.frame.rxBlock[1] as int + 256 * s.frame.rxBlock[2] as int;
    n.(reply := n.reply.(txLen := if asked < SWO_MAX_BYTES then asked else SWO_MAX_BYTES), txb := 0,
       phase := SwoDataProcess)
  }

  /** One edge of DAP_SWO_Data: on each ready edge the next byte of
      `<0x1C> <status 0> <count:2>` and then `count` placeholder bytes, the last one
      marked; one edge more returns to Idle. */
  function SwoDataStep(s: Regs, n: Regs, i: Inputs): (r: Regs)
    ensures !i.outReady ==> r == n
    ensures i.outReady ==> r.port.valid == (s.txb != 5 || n.port.valid)
    ensures i.outReady && s.txb <= 4 ==>
      r.port.payload == [DAP_SWO_Data, 0, Low8(s.reply.txLen), Low8(s.reply.txLen / 256), SWO_FILL][s.txb]
    ensures i.outReady && s.txb == 3 ==>
      r.port.last == (s.reply.txLen == 0) && r.txb == (if s.reply.txLen == 0 then 5 else 4)
    ensures i.outReady && s.txb == 4 ==>
      r.reply.txLen == (s.reply.txLen - 1) % 65536 && r.port.last == (s.reply.txLen == 1) &&
      r.txb == (if s.reply.txLen == 1 then 5 else n.txb)
    ensures i.outReady && s.txb < 3 ==> !r.port.last && r.txb == s.txb + 1
    ensures i.outReady && s.txb == 5 ==> r.phase == Idle
    ensures s.txb != 5 ==> r.phase == n.phase
  {
    if i.outReady then
      var n := n.(port := n.port.(last := false));
      var len := s.reply.txLen;
      var n :=
        if s.txb == 0 then n.(port := n.port.(payload := DAP_SWO_Data), txb := 1)
        else if s.txb == 1 then n.(port := n.port.(payload := 0), txb := 2)
        else if s.txb == 2 then n.(port := n.port.(payload := Low8(len)), txb := 3)
        else if s.txb == 3 then
          n.(port := n.port.(payload := Low8(len / 256), last := len == 0), txb := if len != 0 then 4 else 5)
        else if s.txb == 4 then
          var n := n.(port := n.port.(payload := SWO_FILL), reply := n.reply.(txLen := (len - 1) % 65536));
          if len == 1 then n.(port := n.port.(last := true), txb := 5) else n
        else if s.txb == 5 then n.(phase := Idle)
        else n;
      if s.txb != 5 then n.(port := n.port.(valid := true)) else n
    else n
  }
}
