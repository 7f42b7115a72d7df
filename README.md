# CMSIS-DAP command engine and trace-pipeline logic of orbtrace, in Dafny

This project models two parts of orbtrace's gateware.

**The CMSIS-DAP command engine** (`CMSIS_DAP` in `orbtrace/nmigen/cmsis_dap.py`) is one
clocked state machine in the usb clock domain. It reads host frames a byte at a time, sizes
each frame from its opcode and dispatches one handler per command. It drives the
debug-interface engine through command registers and a go/done handshake, stages the response
in the 14-byte `txBlock` and transfer results in the 500-word `WideRam`, and streams the
response back.

- Registers and state.
  - Every usb-domain register is a field of the datatype `DapState.Regs`, with its width
    explicit (4-bit `txb`, 3-bit frame lengths, 16-bit counts, 12-bit RAM address).
  - `DapEngine.Next(s, i)` is one clock edge. As in nmigen, every assignment reads the
    pre-edge value and the last assignment wins.
  - Each handler `H(s, n, i)` reads the old state `s` and writes into the next state `n`
    being built.
- The engine as an object.
  - `DapEngine.CmsisDap` is a class with the same registers as fields and the RAM as an
    `array<bv32>`.
  - `Step` writes the RAM in place on the synchronised rising edge of done and loads the next
    register values. It is proved to do exactly what `Next` describes.
- Inputs. The inbound stream (`streamOut` in the source), the outbound stream's ready
  (`streamIn.ready`) and the debug-interface engine's outputs (`done`, `ack`, `perr`, `dread`,
  `again`, `ignoreData`, `postedMode`) are arbitrary inputs of each edge.
- The properties proved cover:
  - frame sizing and truncation;
  - the response stream;
  - the go/done handshake;
  - the DAP_Transfer WAIT-retry bound and its response layout;
  - the JTAG sequence bit counts;
  - every handler's register updates.

**The trace-pipeline logic** (`orbtrace/trace/__init__.py`):

- the pure `byteswap` and the `Injector` selector;
- the `Monitor` counters, as a class;
- the `Indicator` hold timer, as a class;
- the `Keepalive` countdown, as a class, and its 128-bit frame layout.

Each module follows the source's structure:

| module | what it covers |
|---|---|
| Bits | byte, bit and word fields |
| DapState | registers, inputs, reset, RAM port |
| DapDecoder | IDLE and RESPOND |
| DapCommands | fixed-response handlers |
| DapTransfer | DAP_Transfer |
| DapTransferBlock | DAP_TransferBlock |
| DapSequences | SWJ_Sequence and JTAG_Sequence |
| DapSwoData | SWO_Data |
| DapEngine | dispatcher, edge and the class |
| DapRespond, DapFrames, DapHandshake, DapTransferProps, DapTransferBlockProps, DapJtagProps, DapSwoProps, DapSwjProps | properties over runs of edges |
| DapAnswers | whole exchanges from IDLE: a request frame in, its answer out |
| TracePipeline | the trace logic |

## Model

All source paths are in `orbtrace/nmigen/cmsis_dap.py` unless they start with
`orbtrace/trace/`.

| member | source | states |
|---|---|---|
| DapState.ShiftDone | orbtrace/nmigen/cmsis_dap.py:1021-1022 | the new sample of done lands in the high bit and the old high bit moves to the low bit |
| DapState.InReady | orbtrace/nmigen/cmsis_dap.py:1015 | the inbound stream's ready is exactly `!busy` |
| DapState.DbgDone | orbtrace/nmigen/cmsis_dap.py:1022 | `dbg_done` is high exactly when both bits of `done_cdc` are set |
| DapState.RamWe | orbtrace/nmigen/cmsis_dap.py:1025 | the RAM write enable is high exactly when the newest sample of done is high and the older one low |
| DapState.DoneSynchroniser | orbtrace/nmigen/cmsis_dap.py:1021-1025 | after two edges that saw done `d1` then `d2`, whatever came before: `dbg_done` iff both were high, the write enable iff done just rose, and never both at once |
| DapState.RamData | orbtrace/nmigen/cmsis_dap.py:584 | the RAM write data is the engine's `dread` in the two transfer states (it is driven there only) and 0 elsewhere |
| DapState.RamNext | orbtrace/nmigen/cmsis_dap.py:115-134 | only the word at `adr` can change. It takes the write data when the write enable (`done_cdc == 0b10`) is high. |
| DapState.ReadPort | orbtrace/nmigen/cmsis_dap.py:115-134 | the read port gives the word at `adr` after this edge's write: the written data under the write enable, the stored word otherwise, 0 past the RAM |
| DapState.Reset | orbtrace/nmigen/cmsis_dap.py:140-192 | out of reset the machine is Idle, not busy, go low and nothing sent |
| DapState.Invalid | orbtrace/nmigen/cmsis_dap.py:194-197 | the one-byte answer 0xFF with busy set. It goes to RESPOND and changes nothing else. |
| DapState.AckByte | orbtrace/nmigen/cmsis_dap.py:659 | the status byte carries ack in bits 0..2 and perr in bit 3 |
| DapDecoder.Sizing | orbtrace/nmigen/cmsis_dap.py:1041-1085 | the frame length is decided by the opcode alone. It is one of 1, 2, 3, 5, 6 or 7. The three open-ended commands go to their own states. |
| DapDecoder.AfterOpcode | orbtrace/nmigen/cmsis_dap.py:1033-1085 | an unknown opcode goes to RESPOND; a fixed-length command goes to RxParams unless the frame ends on a multi-byte opcode, which (like an open-ended command ending there) goes to ProtocolError; otherwise an open-ended command enters its own state |
| DapDecoder.IdleStep | orbtrace/nmigen/cmsis_dap.py:1028-1085 | a first valid byte starts a frame: `rxedLen` 1, opcode stored, default answer `<opcode> 0` (or Invalid for an unknown opcode). Anything else leaves the frame untouched. |
| DapDecoder.RespondStep | orbtrace/nmigen/cmsis_dap.py:1089-1106 | on ready, byte `txedLen` goes out, marked last exactly when it is the final one. Once all are out the machine returns to IDLE with busy 0 and `rxedLen` 0. |
| DapCommands.Info | orbtrace/nmigen/cmsis_dap.py:199-226 | the layout of every DAP_Info answer: 0xFF gives `2, 500 or 64` LE with length 6, 0x04 gives the version string, and so on. An unlisted id answers Invalid. |
| DapCommands.HostStatus | orbtrace/nmigen/cmsis_dap.py:228-239 | type 0 or 1 sets the connected or running flag. Any other type answers Invalid. |
| DapCommands.ConnectSetup | orbtrace/nmigen/cmsis_dap.py:242-268 | port 0 or 1 issues SET_SWD and answers `<op> 1`. Any other port answers Invalid without issuing. |
| DapCommands.AwaitConnect | orbtrace/nmigen/cmsis_dap.py:270-275 | go is kept only until done, and the machine moves on only when go is low and done is high |
| DapCommands.AwaitDone | orbtrace/nmigen/cmsis_dap.py:278-284 | as AwaitConnect, and on leaving it copies perr into bit 0 of response byte 1 |
| DapCommands.Disconnect | orbtrace/nmigen/cmsis_dap.py:286-293 | clears the running and connected flags and answers the default response |
| DapCommands.WriteAbort | orbtrace/nmigen/cmsis_dap.py:295-308 | an engine write of frame bytes 2..5 to DP address 0 |
| DapCommands.Delay | orbtrace/nmigen/cmsis_dap.py:310-318 | a WAIT command whose operand is the 16-bit delay with its bytes swapped |
| DapCommands.ResetTarget | orbtrace/nmigen/cmsis_dap.py:320-329 | the RESET command and the answer `<op> 0 0x80` |
| DapCommands.SwjPinsSetup | orbtrace/nmigen/cmsis_dap.py:331-338 | the pin values go into operand bytes 2..3. `countdown` is loaded from `txBlock` bytes 3..6. go and command are left as they were. |
| DapCommands.SwjPinsAnswer | orbtrace/nmigen/cmsis_dap.py:340-347 | answers at once. When done is high it answers the engine's low byte with length 2. |
| DapCommands.SwjClock | orbtrace/nmigen/cmsis_dap.py:349-357 | a SET_CLK command with the 32-bit frequency |
| DapCommands.SwdConfigure | orbtrace/nmigen/cmsis_dap.py:419-427 | a SET_CFG command with the configuration byte |
| DapCommands.SwoSetting | orbtrace/nmigen/cmsis_dap.py:429-441 | answers 0xFF in byte 1 when the parameter exceeds the limit, and otherwise the default |
| DapCommands.SwoBaudrate | orbtrace/nmigen/cmsis_dap.py:443-448 | echoes the five frame bytes as the response |
| DapCommands.SwoStatus | orbtrace/nmigen/cmsis_dap.py:457-462 | a fixed 6-byte status answer |
| DapCommands.SwoExtendedStatus | orbtrace/nmigen/cmsis_dap.py:464-472 | reserved control bits answer Invalid. Otherwise it gives the fixed 14-byte status. |
| DapCommands.JtagConfigure | orbtrace/nmigen/cmsis_dap.py:528-533 | stores the device count and IR length |
| DapCommands.JtagIdcode | orbtrace/nmigen/cmsis_dap.py:535-540 | the fixed IDCODE answer, length 6 |
| DapCommands.TransferConfigure | orbtrace/nmigen/cmsis_dap.py:542-554 | stores waitRetry and matchRetry from the frame and issues SET_TFR_CFG with the idle-cycle byte |
| DapTransfer.TransferSetup | orbtrace/nmigen/cmsis_dap.py:557-580 | count 0 answers `<op> 0 1` at once without issuing. Otherwise the sub-machine starts at step 0 with the RAM address 0. |
| DapTransfer.TakeRequest | orbtrace/nmigen/cmsis_dap.py:596-621 | a request byte resets `retries`, counts the element in byte 1, and selects data collection or the issue step |
| DapTransfer.MatchMaskWrite | orbtrace/nmigen/cmsis_dap.py:629-634 | the branch that loads the match mask (it needs `txb == 5`) |
| DapTransfer.TakeData | orbtrace/nmigen/cmsis_dap.py:622-636 | data byte `txb-1` lands in that byte of `tfrData` and the other bytes are kept |
| DapTransfer.IssueRequest | orbtrace/nmigen/cmsis_dap.py:638-647 | a TRANSACT with the request's APnDP, RnW and address bits and the data word |
| DapTransfer.Acknowledge | orbtrace/nmigen/cmsis_dap.py:659 | records ack and perr in response byte 2 and keeps bytes 0..1 and every other register |
| DapTransfer.MatchCheck | orbtrace/nmigen/cmsis_dap.py:668-676 | the value-match test as written: a value that differs while match retries remain sets bit 21 and answers; otherwise it re-reads |
| DapTransfer.Advance | orbtrace/nmigen/cmsis_dap.py:679-683 | the RAM address moves on exactly for a repeated request or a stored read, and nothing else changes |
| DapTransfer.NextRequest | orbtrace/nmigen/cmsis_dap.py:688-712 | a good acknowledgement with requests left takes the next request; otherwise a posted-mode RDBUFF read (0x0E, retries 0) or the response, whose word count is the reads stored |
| DapTransfer.Complete | orbtrace/nmigen/cmsis_dap.py:656-712 | one clause per branch: WAIT counts a retry and re-issues while `retries < waitRetry`, else answers; a match request goes to MatchCheck; otherwise the address advance, a repeat on `again`, and NextRequest. Ack is always recorded in byte 2, steps 0, 5 or 8 follow, and the engine is untouched. |
| DapTransfer.SendHeader | orbtrace/nmigen/cmsis_dap.py:714-728 | header byte `txb-8` on ready. The third byte is last, and ends the command, when no words follow. |
| DapTransfer.FetchWord | orbtrace/nmigen/cmsis_dap.py:729-734 | counts down one word and waits a cycle for the RAM read |
| DapTransfer.SendWord | orbtrace/nmigen/cmsis_dap.py:735-754 | byte `txb-12` of the read word on ready. After the fourth byte it moves to the next word, or marks last and ends. |
| DapTransfer.TransferStep | orbtrace/nmigen/cmsis_dap.py:583-754 | the sub-machine leaves its state only for IDLE, and only on the byte marked last, which is sent with busy released; the request and data steps neither send nor leave |
| DapTransferBlock.SetIssuedCount | orbtrace/nmigen/cmsis_dap.py:779-780 | writes the 16-bit issued count into response bytes 1..2 and keeps the rest |
| DapTransferBlock.SetupRegs | orbtrace/nmigen/cmsis_dap.py:758-787 | index, count and request bits from the frame. Retries and the count answered are 0. The first step depends on the undefined bit 33. |
| DapTransferBlock.TransferBlockSetup | orbtrace/nmigen/cmsis_dap.py:758-798 | count 0 answers `<op> 1 0 0`. Otherwise the sub-machine starts. |
| DapTransferBlock.TakeData | orbtrace/nmigen/cmsis_dap.py:813-821 | data byte `txb` of a write element lands in `tfrData` |
| DapTransferBlock.IssueElement | orbtrace/nmigen/cmsis_dap.py:822-830 | raises go with the data word and counts the issue in bytes 1..2 and in `retries` |
| DapTransferBlock.AckRecorded | orbtrace/nmigen/cmsis_dap.py:839 | ack lands in bits 0..2 of response byte 3 and the issued count in bytes 1..2 is kept |
| DapTransferBlock.Acknowledge | orbtrace/nmigen/cmsis_dap.py:839-852 | records the acknowledgement; a read that was not a WAIT and whose data is not ignored moves the RAM address on |
| DapTransferBlock.NextElement | orbtrace/nmigen/cmsis_dap.py:862-886 | a good acknowledgement with elements left goes to the next element (its data first for a write); otherwise the RDBUFF read in posted mode or the wrap-up |
| DapTransferBlock.RdBuffRead | orbtrace/nmigen/cmsis_dap.py:869-878 | one more read of DP register 3 (RDBUFF): the issued count drops by one, `retries` 0, step 4 |
| DapTransferBlock.WrapUp | orbtrace/nmigen/cmsis_dap.py:879-886 | the count answered becomes the reads stored, the RAM address returns to 0, and the response starts at step 7 |
| DapTransferBlock.Complete | orbtrace/nmigen/cmsis_dap.py:836-887 | one clause per branch: WAIT re-issues (step 4) while `retries < waitRetry`, else answers (step 7); `again` resets `retries`, raises go, moves the RAM address on for a stored read and goes to step 5; otherwise NextElement. Ack is always recorded in byte 3 and the session and response length are kept. |
| DapTransferBlock.SendHeader | orbtrace/nmigen/cmsis_dap.py:888-900 | header byte `txb-7` on ready. A write block ends at step 10 with its last set, whether or not it was accepted. |
| DapTransferBlock.TransferBlockStep | orbtrace/nmigen/cmsis_dap.py:802-922 | the sub-machine leaves its state only for IDLE, with last set and busy still high; a last byte not sent is the write-block case at step 10 without ready; the data steps neither send nor leave |
| DapSequences.Half | orbtrace/nmigen/cmsis_dap.py:390 | the data byte shifted one bit down, zero-filled |
| DapSequences.HalfNBits | orbtrace/nmigen/cmsis_dap.py:390 | after j shifts, bit k is the original bit j+k |
| DapSequences.SwjSequenceSetup | orbtrace/nmigen/cmsis_dap.py:360-374 | a bit count of 0 means 256, so the count is in 1..256. The pins are set up for writing. |
| DapSequences.SetPins | orbtrace/nmigen/cmsis_dap.py:389-403 | sets the SWCLK and SWDIO pin bits and keeps the other 14 |
| DapSequences.SwjSequenceStep | orbtrace/nmigen/cmsis_dap.py:376-415 | each bit goes out with the clock low, then high. The byte is refilled every 8 bits and the machine waits for the engine after the last bit. |
| DapSequences.RoundUp | orbtrace/nmigen/cmsis_dap.py:965 | `(t+7) & 0x78` is the next multiple of 8 at or above t. It wraps to 0 past 120. |
| DapSequences.RoundUpIdempotent | orbtrace/nmigen/cmsis_dap.py:965 | rounding twice is rounding once |
| DapSequences.JtagSequenceSetup | orbtrace/nmigen/cmsis_dap.py:926-937 | the sequence count from the frame, TDO bits from bit 16, TDO storage blanked |
| DapSequences.ByteBits | orbtrace/nmigen/cmsis_dap.py:975 | the bits clocked from one TDI byte: 8, or the cycle count when it is 1..7 |
| DapSequences.TakeInfo | orbtrace/nmigen/cmsis_dap.py:955-966 | the cycle count, TMS and capture flag from the info byte, and `tdoCount` rounded up every time |
| DapSequences.TakeTdi | orbtrace/nmigen/cmsis_dap.py:968-976 | the TDI byte and the bits it carries |
| DapSequences.CaptureTdo | orbtrace/nmigen/cmsis_dap.py:988-992 | with capture on, the (placeholder) bit is stored at `tdoCount`. With capture off, `txBlock` is unchanged. |
| DapSequences.ClockedCtx | orbtrace/nmigen/cmsis_dap.py:978-999 | one clock: both counters down (6 and 4 bits, wrapping), TDI shifted, the capture counted, the sequence counted off at its last cycle |
| DapSequences.ClockBit | orbtrace/nmigen/cmsis_dap.py:978-999 | one clock step, and the next step: refill at the byte's last bit, next sequence at the last cycle |
| DapSequences.JtagSequenceStep | orbtrace/nmigen/cmsis_dap.py:940-950 | with no sequence left it answers `(tdoCount+7)>>3` bytes and releases busy |
| DapSwoData.SwoDataSetup | orbtrace/nmigen/cmsis_dap.py:476-486 | the byte count answered is the requested count capped at 100 |
| DapSwoData.SwoDataStep | orbtrace/nmigen/cmsis_dap.py:488-525 | one edge: nothing changes without ready; on ready byte `txb` of `<op> 0 countL countH` or a fill byte goes out, last on the final one (on the header with count 0), and step 5 returns to IDLE. The whole answer is DapSwoProps.SwoDataAnswered. |
| DapEngine.Next | orbtrace/nmigen/cmsis_dap.py:1004-1263 | one edge: the FSM's update, the `done_cdc` shift and the RAM's write and read port |
| DapEngine.Dispatch | orbtrace/nmigen/cmsis_dap.py:1110-1201 | a complete frame's handler leaves RxParams for RESPOND, a wait state or a command sub-machine, and DAP_TransferAbort, which has no handler, answers Invalid |
| DapEngine.RxParamsStep | orbtrace/nmigen/cmsis_dap.py:1203-1216 | a valid byte that does not end the frame early is stored at `rxedLen`, busy rising on the final one; an early last byte answers Invalid; no valid byte changes nothing; a complete frame is dispatched |
| DapEngine.Decode | orbtrace/nmigen/cmsis_dap.py:1239-1249 | the unimplemented states (ProtocolError, Error, TransferBlockWait and the three open-ended commands) answer the one byte 0xFF |
| DapEngine.RunAppend | orbtrace/nmigen/cmsis_dap.py:1004-1263 | a run of `a + b` is the run of `b` from where the run of `a` ends |
| DapEngine.CmsisDap.constructor | orbtrace/nmigen/cmsis_dap.py:121 | the registers at reset and the RAM holding 0xdeadbeef in word 0 |
| DapEngine.CmsisDap.Step | orbtrace/nmigen/cmsis_dap.py:1004-1263 | one edge updates every register field and writes the RAM array in place exactly as `Next` says |
| DapFrames.FrameStart | orbtrace/nmigen/cmsis_dap.py:1028-1085 | the first byte's frame length, next state and default answer over a real edge |
| DapFrames.IdleIgnoresNonFirst | orbtrace/nmigen/cmsis_dap.py:1030-1033 | a byte that is not a frame start is dropped in IDLE |
| DapFrames.CollectEdge | orbtrace/nmigen/cmsis_dap.py:1203-1211 | a valid byte is appended at `rxedLen`. Busy goes up on the final byte. |
| DapFrames.CollectSome | orbtrace/nmigen/cmsis_dap.py:1203-1211 | valid bytes that are not last, fewer than are still due, are appended in order, leaving the frame collecting and the response, engine and session untouched |
| DapFrames.CollectFrame | orbtrace/nmigen/cmsis_dap.py:1110-1216 | the remaining bytes of a well-formed frame land in order in `rxBlock` and leave the engine untouched |
| DapFrames.TruncatedFrame | orbtrace/nmigen/cmsis_dap.py:1213-1216 | a last byte before `rxLen` answers exactly the one byte 0xFF without dispatching. The response cursor, engine, session and transfer registers are kept. |
| DapFrames.FrameReceived | orbtrace/nmigen/cmsis_dap.py:1028-1216 | from IDLE a well-formed frame of its opcode's length ends in RxParams with all its bytes in `rxBlock` |
| DapFrames.FrameFromOpcode | orbtrace/nmigen/cmsis_dap.py:1110-1216 | the opcode byte and the rest of a frame make the whole frame |
| DapFrames.OpcodeOnlyFrame | orbtrace/nmigen/cmsis_dap.py:1033-1085 | a multi-byte opcode marked last goes to ProtocolError, and from there answers 0xFF |
| DapFrames.UnimplementedAnswerInvalid | orbtrace/nmigen/cmsis_dap.py:1239-1249 | SWD_Sequence, ExecuteCommands and QueueCommands, and ProtocolError, answer 0xFF and issue nothing |
| DapFrames.UnhandledOpcodeInvalid | orbtrace/nmigen/cmsis_dap.py:1200-1201 | DAP_TransferAbort has no handler and answers 0xFF |
| DapRespond.RespondRegs | orbtrace/nmigen/cmsis_dap.py:1089-1106 | the registers after one edge in RESPOND |
| DapRespond.RespondEdge | orbtrace/nmigen/cmsis_dap.py:1089-1106 | one edge sends the next pending byte on ready or holds. Once everything is sent it returns to IDLE. |
| DapRespond.RespondSendsPrefix | orbtrace/nmigen/cmsis_dap.py:1089-1106 | over any run, RESPOND emits a prefix of the pending bytes, in order, the last one marked |
| DapRespond.RespondSendsAll | orbtrace/nmigen/cmsis_dap.py:1089-1106 | with ready on every edge it emits exactly the pending bytes and then is idle, busy 0, `rxedLen` 0 |
| DapRespond.StagedPending | orbtrace/nmigen/cmsis_dap.py:1089-1106 | a response staged from its first byte is pending whole |
| DapRespond.StagedAnswered | orbtrace/nmigen/cmsis_dap.py:1089-1106 | with ready on every edge, a response staged from its first byte goes out exactly, one beat per byte, and the machine is back in IDLE |
| DapHandshake.DoneSynchronised | orbtrace/nmigen/cmsis_dap.py:1021-1022 | `dbg_done` is high exactly when done was high on the two latest edges |
| DapHandshake.WriteStrobeIsRisingEdge | orbtrace/nmigen/cmsis_dap.py:1021-1025 | the RAM write enable is the synchronised rising edge of done |
| DapHandshake.RamWrittenOnlyOnStrobe | orbtrace/nmigen/cmsis_dap.py:1024-1025 | the RAM changes only at `adr` and only on the write enable |
| DapHandshake.GoDroppedOnlyWhenAcknowledged | orbtrace/nmigen/cmsis_dap.py:270-284 | in every state (Wait_Done here, and the SWJ_Sequence, Transfer and TransferBlock steps that drop go) go is dropped only while `dbg_done` is low |
| DapHandshake.DispatchKeepsGo | orbtrace/nmigen/cmsis_dap.py:1110-1201 | no frame handler lowers go |
| DapHandshake.RxParamsKeepsGo | orbtrace/nmigen/cmsis_dap.py:1110-1216 | collecting a frame never lowers go |
| DapHandshake.GoKeptFrame | orbtrace/nmigen/cmsis_dap.py:1110-1216 | an RxParams edge never lowers go |
| DapHandshake.TransferStepGo | orbtrace/nmigen/cmsis_dap.py:649-654 | DAP_Transfer's sub-machine drops go only without done |
| DapHandshake.GoKeptTransfer | orbtrace/nmigen/cmsis_dap.py:583-754 | the same over a real edge |
| DapHandshake.TransferBlockStepGo | orbtrace/nmigen/cmsis_dap.py:831-835 | DAP_TransferBlock's sub-machine drops go only without done |
| DapHandshake.GoKeptTransferBlock | orbtrace/nmigen/cmsis_dap.py:802-922 | the same over a real edge |
| DapHandshake.SwjSequenceStepGo | orbtrace/nmigen/cmsis_dap.py:398-415 | SWJ_Sequence drops go only without done |
| DapHandshake.GoKeptSwjSequence | orbtrace/nmigen/cmsis_dap.py:376-415 | the same over a real edge |
| DapHandshake.WaitDoneEdge | orbtrace/nmigen/cmsis_dap.py:278-284 | Wait_Done keeps go until done and leaves only with go low and done high. Then it copies perr into bit 8 of `txBlock`. |
| DapHandshake.WaitDoneLeaves | orbtrace/nmigen/cmsis_dap.py:278-284 | with go low, three edges with done high reach RESPOND |
| DapTransferProps.RetryEdge | orbtrace/nmigen/cmsis_dap.py:638-666 | each edge of the issue/wait/complete loop under WAIT keeps `retries <= waitRetry` and counts one issue at step 5. It leaves only to the header with ack WAIT recorded. |
| DapTransferProps.WaitRetryBound | orbtrace/nmigen/cmsis_dap.py:600-666 | under WAIT the request is issued at most `waitRetry - retries` more times, and exactly that many when the loop is left |
| DapTransferProps.FirstIssueBound | orbtrace/nmigen/cmsis_dap.py:600-666 | a request that is always answered WAIT is issued exactly `waitRetry + 1` times before the response |
| DapTransferProps.Words | orbtrace/nmigen/cmsis_dap.py:735-754 | the response words are 4 little-endian bytes per RAM word from the address up |
| DapTransferProps.HeldStays | orbtrace/nmigen/cmsis_dap.py:1021-1025 | a done held at one level keeps the synchroniser off the write edge |
| DapTransferProps.ResponseEdge | orbtrace/nmigen/cmsis_dap.py:714-754 | one response-phase edge emits the next remaining byte (header, then RAM words) or holds. The RAM is untouched. |
| DapTransferProps.ResponseIsPrefix | orbtrace/nmigen/cmsis_dap.py:714-754 | the response phase emits a prefix of the 3 header bytes followed by the RAM words from address 0, in order |
| DapTransferProps.ResponseComplete | orbtrace/nmigen/cmsis_dap.py:714-754 | with ready throughout it emits exactly those bytes, the last one marked, and goes IDLE with busy 0 |
| DapTransferBlockProps.BlockRetryEdge | orbtrace/nmigen/cmsis_dap.py:822-846 | each edge of the issue/wait/complete loop under WAIT takes one issue off what is left at step 4. It leaves only from step 6 to the response, with no issue left and WAIT in byte 3. |
| DapTransferBlockProps.BlockWaitBound | orbtrace/nmigen/cmsis_dap.py:822-846 | under WAIT an element is issued at most `BlockIssuesLeft` times, and exactly that often when the loop is left for the response with ack WAIT |
| DapTransferBlockProps.FirstElementBound | orbtrace/nmigen/cmsis_dap.py:822-846 | from the first issue with `retries` 0, a persistent WAIT allows `waitRetry` issues in all (one if `waitRetry` is 0), exactly that many when the loop ends |
| DapTransferBlockProps.BlockResponseEdge | orbtrace/nmigen/cmsis_dap.py:888-922 | one response edge with done held: the RAM is untouched and the next remaining byte goes out on ready |
| DapTransferBlockProps.BlockResponseIsPrefix | orbtrace/nmigen/cmsis_dap.py:888-922 | whatever the ready pattern, the stream carries a prefix of the four header bytes and, for a read block, the RAM words in order |
| DapTransferBlockProps.BlockResponseComplete | orbtrace/nmigen/cmsis_dap.py:888-922 | with ready throughout, exactly those bytes go out, the last one marked, and the machine is back in IDLE |
| DapTransferBlockProps.BlockAnswer | orbtrace/nmigen/cmsis_dap.py:879-922 | from the wrap-up, the answer is `txBlock[0..3]` followed, for a read block, by the `transferCount` words stored from RAM address 0, little-endian |
| DapSwoProps.Fill | orbtrace/nmigen/cmsis_dap.py:512-513 | `c` bytes, each the placeholder 42 |
| DapSwoProps.SwoEdge | orbtrace/nmigen/cmsis_dap.py:488-525 | one ready edge sends the next byte still due, marked last when it is the final one. Once nothing is left the edge returns to IDLE without a beat. |
| DapSwoProps.SwoSendsAll | orbtrace/nmigen/cmsis_dap.py:488-525 | with ready on every edge, the sub-machine sends exactly the bytes still due and returns to IDLE |
| DapSwoProps.SwoDataEntered | orbtrace/nmigen/cmsis_dap.py:476-486 | the dispatch edge of DAP_SWO_Data enters the sub-machine with the header and `min(asked, 100)` fill bytes due |
| DapSwoProps.SwoDataAnswered | orbtrace/nmigen/cmsis_dap.py:476-525 | from the dispatch, with ready throughout, the answer is exactly `<0x1C> 0 <c:2>` and `c` fill bytes, `c` the requested count capped at 100, and the machine returns to IDLE |
| DapSwjProps.SwjEdge | orbtrace/nmigen/cmsis_dap.py:376-415 | one edge of the sub-machine keeps the bit-sequence invariant: the bits driven so far are the data bytes' bits, least significant first, with the counters in step. It leaves only for Wait_Done, after the last bit. |
| DapSwjProps.SwjDrives | orbtrace/nmigen/cmsis_dap.py:376-415 | over any run, the bits driven onto SWDIO are the taken bytes' bits, least significant first, never more than the count, and all of them, from `(count+7)/8` bytes, when the sub-machine is left |
| DapSwjProps.SwjEntered | orbtrace/nmigen/cmsis_dap.py:360-374 | the dispatch edge of DAP_SWJ_Sequence starts the invariant with a count of 1..256, 0 meaning 256 |
| DapSwjProps.SwjSequenceBits | orbtrace/nmigen/cmsis_dap.py:360-415 | from the dispatch, whatever the inputs: the bits driven onto SWDIO are the data bytes' bits, least significant first, never more than `count` (0 meaning 256); when the sub-machine is left it is for Wait_Done with exactly `count` bits driven from `(count+7)/8` bytes |
| DapAnswers.FrameOpened | orbtrace/nmigen/cmsis_dap.py:1028-1085 | an opcode with parameter bytes to come opens the frame in RxParams with one byte received and the response cursor at 0 |
| DapAnswers.TruncatedRest | orbtrace/nmigen/cmsis_dap.py:1203-1216 | the rest of a frame that ends before its bytes are due leaves only the byte 0xFF staged in RESPOND |
| DapAnswers.TruncatedFrameStaged | orbtrace/nmigen/cmsis_dap.py:1028-1216 | from IDLE, a frame that ends before all its parameter bytes arrive leaves 0xFF staged, with the cursor at 0 and engine and session untouched |
| DapAnswers.TruncatedFrameAnswered | orbtrace/nmigen/cmsis_dap.py:1028-1216 | from IDLE such a frame is answered with the one beat 0xFF marked last, and the machine is back in IDLE |
| DapAnswers.EmptyTransferEdge | orbtrace/nmigen/cmsis_dap.py:557-580 | the dispatch edge of DAP_Transfer with count 0 goes straight to RESPOND with three bytes staged: bytes 0..1 as they stood and the acknowledgement 1 (OK); cursor, engine and session kept |
| DapAnswers.EmptyTransferStaged | orbtrace/nmigen/cmsis_dap.py:557-580 | from IDLE, `<0x05> <index> <0>` stages exactly `<0x05> 0 1` in RESPOND |
| DapAnswers.EmptyTransferAnswered | orbtrace/nmigen/cmsis_dap.py:557-580 | from IDLE, `<0x05> <index> <0>` is answered with exactly `<0x05> 0 1`, the last byte marked, without touching the engine |
| DapJtagProps.Cycles | orbtrace/nmigen/cmsis_dap.py:980-996 | the 6-bit cycle field stands for 1..64 clocks, 0 meaning 64 |
| DapJtagProps.SequenceRegs | orbtrace/nmigen/cmsis_dap.py:968-999 | the registers after one TDI-fetch or clock edge of a sequence |
| DapJtagProps.SequenceEdge | orbtrace/nmigen/cmsis_dap.py:968-999 | each edge of a sequence takes one clock or one TDI fetch off what is left. The sequence ends only after its last clock. |
| DapJtagProps.SequenceSteps | orbtrace/nmigen/cmsis_dap.py:968-999 | a sequence makes no more than its clocks and fetches, and exactly those when it ends |
| DapJtagProps.SequenceFromInfo | orbtrace/nmigen/cmsis_dap.py:955-999 | an info byte with cycle field c gives `Cycles(c)` clocks and `(c+7)/8` TDI fetches. A field of 0 gives 64 clocks and 8 fetches. |
| DapJtagProps.SequenceSetupEdge | orbtrace/nmigen/cmsis_dap.py:926-937 | the setup edge over a real edge |
| DapJtagProps.NoSequenceLeftEdge | orbtrace/nmigen/cmsis_dap.py:944-950 | with no sequence left the next edge answers `(tdoCount+7)>>3` bytes |
| DapJtagProps.EmptySequenceList | orbtrace/nmigen/cmsis_dap.py:933-950 | a JTAG_Sequence with count 0 answers 2 bytes, `(16+7)>>3` |
| TracePipeline.ByteSwap | orbtrace/trace/__init__.py:65-68 | needs a width that is a multiple of 8 and keeps the width |
| TracePipeline.ByteSwapBytes | orbtrace/trace/__init__.py:65-68 | output byte i is input byte n-1-i |
| TracePipeline.ByteSwapAppend | orbtrace/trace/__init__.py:65-68 | swapping a concatenation swaps the parts and their order |
| TracePipeline.ByteSwapInvolution | orbtrace/trace/__init__.py:65-68 | applying it twice is the identity |
| TracePipeline.Inject | orbtrace/trace/__init__.py:85-89 | source carries `sink_inject` whenever its valid is high, otherwise `sink`. The ready goes to that input only. |
| TracePipeline.InjectTransfers | orbtrace/trace/__init__.py:85-89 | at most one input hands over a beat, and one does exactly when source accepts one |
| TracePipeline.Offered | orbtrace/trace/__init__.py:104-107 | the beats offered in a history are at most its length |
| TracePipeline.DroppedAtMostOffered | orbtrace/trace/__init__.py:104-110 | counted without wrap-around, lost never exceeds total |
| TracePipeline.Monitor.constructor | orbtrace/trace/__init__.py:99-101 | the counters start at 0 with an empty history |
| TracePipeline.CountsSnoc | orbtrace/trace/__init__.py:104-110 | one more edge adds its own offered and lost beat to the counts |
| TracePipeline.CountersStep | orbtrace/trace/__init__.py:104-112 | the wrapped counters advanced by one edge are the wrapped counts of the longer history |
| TracePipeline.Monitor.Step | orbtrace/trace/__init__.py:104-112 | total +1 on valid, lost +1 on valid without ready, clk +1 mod 4. The registers stay the history's counts at their widths. |
| TracePipeline.HoldNext | orbtrace/trace/__init__.py:127-135 | a change reloads `hold-1`, overriding the decrement. Otherwise it counts down to 0 and stays there. |
| TracePipeline.Quiet | orbtrace/trace/__init__.py:127-135 | the counter stays below `hold` over any run without change |
| TracePipeline.QuietCountsDown | orbtrace/trace/__init__.py:127-137 | after k quiet edges the counter is `cnt-k`, or 0 |
| TracePipeline.Indicator.constructor | orbtrace/trace/__init__.py:124-125 | the counter starts at 0 |
| TracePipeline.Indicator.Out | orbtrace/trace/__init__.py:137 | the output is lit exactly while the counter is non-zero |
| TracePipeline.Indicator.Step | orbtrace/trace/__init__.py:127-135 | one edge follows `HoldNext` with the change of data |
| TracePipeline.KeepaliveLayout | orbtrace/trace/__init__.py:147-154 | the frame's 16 bytes are 0xA6, 4 zero bytes, leds, lost (LE), total (LE), 0x7fffffff (LE) |
| TracePipeline.KeepaliveByte | orbtrace/trace/__init__.py:147-154 | each byte k of the frame as in that layout |
| TracePipeline.KeepaliveFrame | orbtrace/trace/__init__.py:147-154 | the 128-bit frame's low byte is 0xA6, the next 32 bits are 0 and the top 32 bits are 0x7fffffff |
| TracePipeline.KeepaliveNext | orbtrace/trace/__init__.py:158-165 | an accepted frame reloads 7499999. Otherwise it counts down and never goes below 0. |
| TracePipeline.KeepaliveRun | orbtrace/trace/__init__.py:158-165 | the counter stays in range over any run |
| TracePipeline.KeepaliveCountsDown | orbtrace/trace/__init__.py:158-168 | from cnt, the next cnt edges count down one by one whatever ready does |
| TracePipeline.Keepalive.constructor | orbtrace/trace/__init__.py:156 | the counter starts at 0 |
| TracePipeline.Keepalive.SourceValid | orbtrace/trace/__init__.py:168 | a frame is offered exactly when the counter is 0 |
| TracePipeline.Keepalive.Step | orbtrace/trace/__init__.py:158-165 | one edge follows `KeepaliveNext` |

## Left out

- The DBGIF debug-interface engine (imported, not part of this model). Its outputs `done`,
  `ack`, `perr`, `dread`, `again`, `ignoreData` and `postedMode` are arbitrary inputs of every
  edge, and only the command registers it reads are modelled.
- Clock-domain crossing. `done_cdc` is modelled as a 2-bit shift register. Monitor's MultiReg
  synchronisers and TraceCore's AsyncFIFO and Pipeline are library plumbing and not modelled.
- The PHYs (`TracePHY`, `SWOManchPHY`), the amaranth and nmigen glue files and the `canary`
  debug output, because they are pin wiring and Verilog instances.
- Out-of-range indices. The model does not exclude them with preconditions. It gives them
  total semantics: a RAM write at `adr >= 500` is dropped and reads 0, a `txBlock` byte or bit
  past the 14 bytes reads 0 and is not written. No property depends on them.
- The `Keepalive` stream's `last = 1` is a constant wire with no state. It has no member.
- `Indicator`'s data is any type with equality. Its bit width does not matter to the counter.
- Defects, modelled literally and not corrected:
  - DapTransfer.MatchMaskWrite models the mask-write branch, which needs `txb == 5` inside
    steps 1..4 and so is never taken. The match mask is never loaded.
  - DapTransfer.Complete models the value-match test as written. It is inverted relative to
    its comment, and `matchretries` is never updated. No property is stated about value match.
  - DapTransferBlock.SetupRegs: the bit select past the end of the 8-bit `tfrReq` (bit 33) is
    the unconstrained input `undefBit`.
  - DapCommands.SwjPinsSetup never sets go or command, and loads `countdown` from `txBlock`.
    DapCommands.SwjPinsAnswer answers after one edge.
  - DapTransferBlock.SendHeader: a write block goes to IDLE at step 10 whether or not the byte
    was accepted.
  - DapTransferBlock.IssueElement counts every issue, retries included. `retries` is not reset
    between elements.
  - DapSequences.CaptureTdo stores the placeholder bit `bytebits == 1`, not a TDO value.
  - Handlers that take a byte on `!busy` do so without checking the inbound valid, as the
    source does (`streamOut.ready` is `~busy`).
- DapTransferProps.ResponseIsPrefix and DapTransferProps.ResponseComplete assume that done is
  held at one level throughout the response phase, so that the RAM does not change while it is
  read out.
- DapHandshake.WaitDoneLeaves is stated for a run of three edges with done high, not for
  arbitrary runs.
- DapTransferBlockProps.BlockResponseIsPrefix, DapTransferBlockProps.BlockResponseComplete and
  DapTransferBlockProps.BlockAnswer assume, as for DAP_Transfer, that done is held at one level
  while the response is read out. BlockAnswer also needs `1 <= transferCount < 4095` for a read
  block, so that the 12-bit RAM address does not wrap.
- DapTransferBlockProps.FirstElementBound: DAP_TransferBlock gives one issue fewer under WAIT
  than DAP_Transfer's `waitRetry + 1`. This is modelled as written, not corrected.
- DapSwoProps.SwoSendsAll and DapSwoProps.SwoDataAnswered assume the host is ready on every
  edge. DapSwoData.SwoDataStep covers the edges without ready.
- DapSwjProps.SwjSequenceBits and DapSwjProps.SwjDrives are safety statements. A run may end
  before the sequence does. The sequence ends only as the engine's done handshake allows, and
  the engine is not part of this model.
- DapEngine.Decode states only the phase and the staged byte of the unimplemented states, not
  the response cursor.
- The `TransferBlockWait` and `Error` states are modelled, but no transition enters them.
