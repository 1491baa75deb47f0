# Bosch C_CAN / D_CAN real-time CAN driver core, modelled in Dafny

This project models the sequential core of the RTDM (Xenomai real-time) driver
for the Bosch C_CAN and D_CAN controllers, `rtcan_c_can.c`. The controller
conforms to CAN 2.0 parts A and B.

The model has three layers:

- a **logical register file**: the named core registers, two interface banks
  IF1/IF2 (command request, command mask and a nine-word message buffer) and
  the 32-bit mirror registers;
- a **message RAM** of 32 message objects;
- the **driver fields** the source updates in place: `tx_next`, `tx_echo`, the
  saved `current_status`, `last_status` and `irqstatus`, the device state, the
  transmit semaphore, the control mode, the bit timing, and the frames handed
  to the socket layer.

Every driver operation is a function from one such snapshot (`Device.Dev`) to
the next. The hardware's block transfer is modelled too: writing COMREQ moves
the words the command mask selects between a bank and one object.

The loops of c_can_do_tx, c_can_do_rx_poll, c_can_configure_msg_objects (two
loops) and c_can_activate_all_lower_rx_msg_obj are methods of the class
`Driver.CCan`. Its fields mirror the snapshot, and each method is proved equal
to the function of the same operation. The data-word loops of
c_can_write_msg_object and c_can_read_msg_object touch only the interface
bank, so they are recursion over values (`Objects.WriteDataFrom`,
`Objects.ReadDataFrom`). The BUSY wait of c_can_msg_obj_is_busy is the loop
method `Device.MsgObjIsBusy`. The modules are:

- `Registers`: the register maps of both variants and the two access widths.
- `MsgObject`: message objects, the command-mask and control bits, and the transfer.
- `Device`: the snapshot and the interface transactor.
- `CanFrame`: the frame type and the error frames.
- `Codec`: the arbitration and data encoding.
- `Objects`: write, read, set-up and invalidation of message objects.
- `Tx`: the transmit ring.
- `Rx`: the receive poll.
- `BitTiming` and `Config`: bit timing and chip configuration.
- `Irq`: the state machine and the interrupt handler.
- `Mode`: the mode controller.
- `Driver`: the loops in place.

Where the driver behaves differently from what its own comments suggest, the
model follows the code:

- The receive FIFO is objects 1..16 and the transmit ring is objects 17..32.
- The reactivation boundary is object 8 (`C_CAN_MSG_RX_LOW_LAST`), not the split constant 9.
- The read path reports a remote request exactly when the TRANSMIT bit is set. This inverts the polarity the write path uses, so a frame does not survive a write and a read unchanged (`Codec.RtrPolarityFlips`, `Codec.FrameBodyRoundTrip`).
- A lost message rewrites the control word to 0, because `IF_MCONT_CLR_MSGLST` is 0.
- The bus-error block after `if (lec_type)` is unbraced, so the status branch always returns HANDLED.
- Bus-off disables the interrupts, but the handler's exit enables them again (`Irq.InterruptReturn`).
- When TXOK and RXOK are both set, the second acknowledgement writes back the value read with only RXOK cleared (`Irq.AckTxRxResult`).
- The driver never sets CAN_ERR_FLAG or can_dlc in an error frame; it only ORs the error class into can_id (`CanFrame.ErrorFrame`). The frames are built on the stack without initialisation. With the zero-initialised frames this model assumes, a reader sees a data frame with identifier 0x4 (`Rx.LostFrame`, or `Irq.StateChangeFrame` for the warning and passive states), 0x40 (`Irq.StateChangeFrame` for bus-off) or 0x88 (`Irq.LecFrame`), and data length 0.
- The EOB test comes before the read, so a pending object with EOB, the last FIFO object 16, ends the pass without being read, delivered or cleared (`Rx.VisitEob`).
- One transmit-done pass releases the semaphore at most twice, however many objects it confirms (`Tx.DoTxResult`), so the count does not track the free transmit objects.

## Model

| member | source | states |
|---|---|---|
| Registers.IfaceReg | rtcan_c_can.c:228-229 | C_CAN_IFACE keeps an IF1 register for interface 0 and moves it exactly 11 enum slots on for interface 1 |
| Registers.IfaceRegReads | rtcan_c_can.c:70-91 | reading C_CAN_IFACE(reg, iface) reads register reg of bank iface |
| Registers.IfaceRegWrites | rtcan_c_can.c:70-91 | writing C_CAN_IFACE(reg, iface) changes register reg of bank iface and nothing else |
| Registers.IfGetSetSame | rtcan_c_can.c:70-91 | a bank register reads back the last value written to it |
| Registers.SelectAlignment | rtcan_c_can.c:1606-1626 | 32-bit aligned access is chosen exactly for C_CAN on a 32-bit memory resource; D_CAN is always 16-bit |
| Registers.OffsetInverse | rtcan_c_can.c:102-181 | each variant's register map can be inverted on every register it maps |
| Registers.AddressInjective | rtcan_c_can.c:102-181 | distinct mapped registers sit at distinct byte addresses under either access width (regs[i] or 2*regs[i]) |
| Registers.CCanCtrlExAliasesCtrl | rtcan_c_can.c:102-104 | C_CAN does not map CTRL_EX, so it aliases CTRL at offset 0 |
| Registers.IfaceBanksParallel | rtcan_c_can.c:110-180 | the IF2 bank repeats the IF1 layout 0x30 bytes further on C_CAN and 0x20 bytes further on D_CAN |
| Registers.Reg32HalvesAdjacent | rtcan_c_can.c:1471-1493 | the two halves of every 32-bit register pair sit in adjacent 16-bit words under both access widths |
| Registers.Combine32 | rtcan_c_can.c:440-445 | c_can_read_reg32 puts the low register in bits 0..15 and the next register in bits 16..31 |
| Registers.Combine32Bit | rtcan_c_can.c:440-445 | bit n of the combined value is bit n of the low half, or bit n-16 of the high half |
| MsgObject.PutAll | rtcan_c_can.c:498-516 | a put with IF_COMM_ALL stores the whole bank into the object and requests transmission |
| MsgObject.PutRx | rtcan_c_can.c:498-516 | a put with IF_COMM_ALL without TXRQST stores exactly the bank |
| MsgObject.PutControl | rtcan_c_can.c:498-516 | a put with IF_COMM_CONTROL stores only the control word |
| MsgObject.PutArbControl | rtcan_c_can.c:498-516 | a put with ARB and CONTROL stores only the arbitration and control words |
| MsgObject.GetRxBank | rtcan_c_can.c:478-496 | a get with IF_COMM_ALL without TXRQST copies the whole object into the bank |
| MsgObject.GetRxObj | rtcan_c_can.c:478-496 | such a get leaves the object unchanged |
| MsgObject.GetObj | rtcan_c_can.c:478-496 | a get that selects neither TXRQST nor CLR_INT_PND leaves the object as it was |
| MsgObject.PutRxThenGet | rtcan_c_can.c:650-675 | reading back a receive set-up returns exactly the bank that was stored |
| Device.Inc | rtcan_c_can.c:719 | the unsigned increment adds one, and wraps from 2^32-1 to 0 |
| Device.ObjectPutStores | rtcan_c_can.c:498-516 | a put stores the bank into object objno under IF_COMM_WR or the mask; the bank, the other objects and every driver field are kept |
| Device.ObjectGetLoads | rtcan_c_can.c:478-496 | a get loads the selected words of the object into the bank, applies the get's side effects to that object only, and keeps everything else |
| Device.ObjectPutCommand | rtcan_c_can.c:509-512 | a put leaves IF_COMM_WR or the mask in COMMSK and the object number in COMREQ |
| Device.OnlyObjectsTrans | rtcan_c_can.c:478-516 | changes confined to the banks and the RAM compose |
| Device.MsgObjIsBusy | rtcan_c_can.c:461-476 | BUSY is read at most 6 times and stops at the first idle read; a timeout is reported exactly when all six reads were busy |
| Device.EnableAllInterruptsBits | rtcan_c_can.c:447-459 | only SIE, EIE and IE change, all set or all cleared; only CTRL is written |
| CanFrame.ErrorFrame | rtcan_c_can.c:1084-1085 | an error frame is zero-initialised apart from its class and the bytes given |
| Codec.ArbId | rtcan_c_can.c:529-533 | the identifier written stays within 29 bits; a standard identifier lands in bits 18..28 |
| Codec.ArbFlags | rtcan_c_can.c:526-535 | MSGVAL is always set, TRANSMIT exactly when not remote, MSGXTD exactly when extended, and no other bit |
| Codec.Arb2 | rtcan_c_can.c:539-540 | the second arbitration word carries the same three flags |
| Codec.DecodeId | rtcan_c_can.c:627-637 | the read identifier carries EFF exactly when MSGXTD is set, and RTR exactly when TRANSMIT is set |
| Codec.ExtendedIdRoundTrip | rtcan_c_can.c:529-532 | a 29-bit extended identifier survives write and read |
| Codec.StandardIdRoundTrip | rtcan_c_can.c:533 | an 11-bit standard identifier survives write and read |
| Codec.ExtendedFlagRoundTrip | rtcan_c_can.c:529-531 | the extended flag survives write and read |
| Codec.RtrPolarityFlips | rtcan_c_can.c:526-527 | the read reports a remote request exactly when the write was given a data frame |
| Codec.PackWord | rtcan_c_can.c:542-545 | a data word's low byte is data[i] and its high byte is data[i + 1] |
| Codec.WordCount | rtcan_c_can.c:542 | the loops touch one word per started byte pair, at most four for dlc up to 8 |
| Codec.TxCtrl | rtcan_c_can.c:548-550 | the transmit control word sets TXIE, TXRQST and EOB, and never any of NEWDAT, MSGLST or INTPND, for every dlc |
| Codec.RxDlc | rtcan_c_can.c:624 | the read dlc is ctrl & 0xF capped at 8 |
| Codec.DlcRoundTrip | rtcan_c_can.c:548-550 | a dlc up to 8 survives the control word |
| Codec.DecodeDataBytes | rtcan_c_can.c:639-644 | each read byte is the low or high half of its data word; bytes past the last started pair keep the buffer's old value |
| Codec.EncodeData | rtcan_c_can.c:542-545 | the write fills DATA1..DATA4 with the packed byte pairs |
| Codec.PayloadRoundTrip | rtcan_c_can.c:542-545 | every payload byte below dlc survives write and read |
| Codec.DecodeFrame | rtcan_c_can.c:616-648 | the read frame's dlc and identifier come from the words; when TRANSMIT is set the payload is not read |
| Codec.FrameBodyRoundTrip | rtcan_c_can.c:518-552 | after write and read the dlc survives; the payload survives only for a remote frame; a data frame returns the buffer's old payload |
| Objects.WriteDataFromStores | rtcan_c_can.c:542-545 | the data loop writes word k exactly for the pairs below dlc, and nothing else |
| Objects.FillTxBankStores | rtcan_c_can.c:526-550 | the write fills bank 0 with the arbitration, data and control words of the frame |
| Objects.WriteMsgObjectStores | rtcan_c_can.c:518-552 | writing a frame stores the filled bank, with transmission requested, into the object; only that object and bank 0 change |
| Objects.ReadDataFromFills | rtcan_c_can.c:639-644 | the read loop fills exactly the bytes of the started pairs |
| Objects.FilledDecodes | rtcan_c_can.c:639-644 | the read loop from byte 0 computes the codec's payload decoding |
| Objects.ReadMsgObjectDecodes | rtcan_c_can.c:616-648 | c_can_read_msg_object computes exactly the codec's decoding of bank 0 |
| Objects.SetupReceiveObjectStores | rtcan_c_can.c:650-675 | a receive set-up stores the built object; only that object and bank 0 change |
| Objects.RxObjectValid | rtcan_c_can.c:662-668 | a receive object is valid and has MASK2 bit 13 set, whatever mask and identifier it gets |
| Objects.InvalMsgObjectClears | rtcan_c_can.c:677-689 | invalidation clears the arbitration and control words of exactly that object, keeps its mask and data, and leaves it invalid |
| Tx.TxObj | rtcan_c_can.c:428-438 | the transmit object of a counter is (counter & 15) + 17, in 17..32 |
| Tx.TxObjNext | rtcan_c_can.c:428-438 | counting up moves to the next transmit object, from 32 back to 17, also when the counter wraps |
| Tx.StartXmitStores | rtcan_c_can.c:705-722 | the frame goes into object TxObj(tx_next) with transmission requested; tx_next rises by exactly one; only bank 0 changes besides |
| Tx.DistIsModular | rtcan_c_can.c:977 | the loop guard's unsigned difference is tx_next - tx_echo modulo 2^32 |
| Tx.AdvIsModular | rtcan_c_can.c:977 | i increments of tx_echo add i modulo 2^32 |
| Tx.SkippedIsFirstStop | rtcan_c_can.c:977-987 | every object before the reference count has gone out; when the scan stops short of tx_next, the object there is still requesting |
| Tx.InvalidatedFromVisited | rtcan_c_can.c:980-982 | exactly the objects passed are invalidated, and every other object is kept |
| Tx.InvalidatedFromKeepsRx | rtcan_c_can.c:980-982 | the receive objects 1..16 are never touched by the scan |
| Tx.ScanEcho | rtcan_c_can.c:977-987 | the loop moves tx_echo on by the reference count |
| Tx.ScanSem | rtcan_c_can.c:983-985 | the loop releases the semaphore once, exactly when it stalls on a requesting object |
| Tx.ScanRam | rtcan_c_can.c:980-982 | the loop invalidates exactly the objects it moves tx_echo past |
| Tx.ScanFrame | rtcan_c_can.c:977-987 | besides tx_echo and the semaphore, the loop changes only the banks and the RAM |
| Tx.DoTxResult | rtcan_c_can.c:971-994 | tx_echo advances by the reference count and never past tx_next; the objects passed are invalidated; the semaphore is released once on a stall and once more iff (tx_next & 15) != 0 or (tx_echo & 15) == 0 |
| Driver.CCan.DoTx | rtcan_c_can.c:971-994 | the in-place loop leaves exactly the state Tx.DoTx describes |
| Rx.MarkCtrl | rtcan_c_can.c:554-564 | the control word put back below object 8 keeps NEWDAT and clears MSGLST and INTPND, nothing else |
| Rx.ActivateCtrl | rtcan_c_can.c:581-591 | the control word put back from object 8 on clears MSGLST, INTPND and NEWDAT, nothing else |
| Rx.PutCtrlStores | rtcan_c_can.c:560-562 | a CONTROL-only put replaces the object's control word alone |
| Rx.ActivateAllLowerFromStores | rtcan_c_can.c:566-579 | objects 1..8 all get the reactivated control word; nothing else changes |
| Driver.CCan.ActivateAllLower | rtcan_c_can.c:573-578 | the in-place loop leaves exactly the state Rx.ActivateAllLowerFrom describes |
| Rx.HandleLostStores | rtcan_c_can.c:593-614 | a lost message sets the object's control word to 0, keeps its arbitration, and delivers exactly one CAN_ERR_CRTL / RX_OVERFLOW frame |
| Rx.GetRxLoads | rtcan_c_can.c:1036-1039 | the get copies the pending object into bank 0 and leaves the RAM unchanged |
| Rx.VisitEob | rtcan_c_can.c:1041-1042 | a pending object with EOB ends the pass before any delivery or write to it |
| Rx.VisitLost | rtcan_c_can.c:1044-1048 | a pending object with MSGLST delivers the lost frame, zeroes its control word and counts one |
| Rx.VisitNoNewData | rtcan_c_can.c:1050-1051 | a pending object without NEWDAT is skipped, with no put and no delivery |
| Rx.VisitReceive | rtcan_c_can.c:1053-1069 | a pending object with NEWDAT delivers the frame read from it, counts one, and reactivates as Reactivated says |
| Rx.ReactivateStores | rtcan_c_can.c:1056-1066 | the reactivation writes exactly Reactivated's RAM |
| Rx.ReactivatedBelow | rtcan_c_can.c:1056-1058 | below object 8 only the object changes: NEWDAT kept, MSGLST and INTPND cleared |
| Rx.ReactivatedAbove | rtcan_c_can.c:1059-1062 | above object 8 only the object changes: MSGLST, INTPND and NEWDAT cleared |
| Rx.ReactivatedAtSplit | rtcan_c_can.c:1063-1066 | at object 8, objects 1..8 get the cleared control word and objects 9..32 are kept |
| Rx.ReactivatedKeepsTx | rtcan_c_can.c:1056-1066 | reactivation never touches the transmit objects 17..32 |
| Rx.RxPollFrame | rtcan_c_can.c:1018-1074 | the pass counts at most 16 frames, delivers exactly as many events as it counts after the earlier ones, and keeps objects 17..32 and every driver field |
| Driver.CCan.VisitPending | rtcan_c_can.c:1041-1069 | one pending object in place: the same outcome as Rx.HandlePending |
| Driver.CCan.DoRxPoll | rtcan_c_can.c:1018-1074 | the in-place loop over objects 1..16 returns num_rx_pkts and leaves exactly the state Rx.RxPollFrom describes |
| BitTiming.BrpReconstruct | rtcan_c_can.c:733-742 | for brp 1..1024, BRP and BRPE give back brp - 1 |
| BitTiming.SjwReconstruct | rtcan_c_can.c:737-740 | for sjw 1..4, BTR bits 7..6 hold sjw - 1 |
| BitTiming.Tseg1Reconstruct | rtcan_c_can.c:738-740 | BTR bits 11..8 hold prop_seg + phase_seg1 - 1 |
| BitTiming.Tseg2Reconstruct | rtcan_c_can.c:739-741 | BTR bits 14..12 hold phase_seg2 - 1 |
| BitTiming.FieldsFit | rtcan_c_can.c:382-392 | inside the advertised ranges the fields do not overlap and BRPE fits its 4 bits |
| Config.SetBittimingResult | rtcan_c_can.c:724-754 | CTRL ends as saved; only BTR and BRPEXT change, to the computed fields |
| Config.SetBittimingReadsBack | rtcan_c_can.c:724-754 | every timing parameter can be read back from the two registers, and CTRL is restored |
| Config.ConfigureMsgObjectsStores | rtcan_c_can.c:765-780 | the configuration leaves the RAM in the configured layout; only the banks and the RAM change |
| Config.ConfiguredReceive | rtcan_c_can.c:774-779 | objects 1..16 are valid receive objects with RXIE and UMASK set, accepting every identifier; EOB is set on object 16 alone |
| Config.ConfiguredTransmit | rtcan_c_can.c:770-771 | objects 17..32 are left invalid, with no transmission requested |
| Driver.CCan.InvalAll | rtcan_c_can.c:770-771 | the first loop in place invalidates objects 1..32 |
| Driver.CCan.SetupRxFifo | rtcan_c_can.c:774-776 | the second loop in place sets up objects 1..15 |
| Driver.CCan.ConfigureMsgObjects | rtcan_c_can.c:765-780 | both loops plus object 16 leave exactly Config.ConfigureMsgObjects's state |
| Config.ModeSetupRuns | rtcan_c_can.c:792-816 | only CTRL and TEST are written; all three interrupt sources are enabled; TEST is enabled iff listen-only or loopback; the loopback and silent bits follow the mode |
| Config.ChipConfigResult | rtcan_c_can.c:788-826 | the chip runs in the requested mode, STS holds LEC_UNUSED, the bit timing is programmed, the RAM is configured; only the banks change besides |
| Mode.StartChipStarts | rtcan_c_can.c:865-876 | the chip start and the semaphore set-up leave a started controller |
| Mode.StartFromStopped | rtcan_c_can.c:852-878 | from STOPPED with the line granted, the start returns 0 and leaves a started controller |
| Mode.StartFromBusOff | rtcan_c_can.c:880-892 | from BUS_OFF, the start returns 0 and leaves a started controller |
| Mode.ModeStartResult | rtcan_c_can.c:839-905 | STOPPED with the line granted, or BUS_OFF, starts and returns 0; a refused request changes nothing and returns the error; every other state changes nothing and returns 0 |
| Mode.ModeStartOperating | rtcan_c_can.c:839-905 | a successful start leaves the controller operating iff it was operating, stopped or bus-off; a failed start leaves it as it was |
| Mode.ModeStopResult | rtcan_c_can.c:907-931 | an operating controller gets its interrupt enables cleared, state STOPPED and its semaphore destroyed, and nothing else; otherwise nothing changes |
| Mode.ModeStopIdempotent | rtcan_c_can.c:914-917 | a second stop does nothing |
| Mode.StopThenStart | rtcan_c_can.c:839-931 | stopping an operating controller and starting it again restarts it in ERROR_ACTIVE |
| Mode.SetModeResult | rtcan_c_can.c:934-958 | STOP and START behave as their handlers; SLEEP and every other mode change nothing and return -EOPNOTSUPP |
| Irq.RxErrBound | rtcan_c_can.c:1088-1092 | the receive error count is seven bits; RP is bit 15 |
| Irq.StateChangeFrameSays | rtcan_c_can.c:1094-1124 | warning names the strictly larger counter, TX only when strictly larger; passive names the receiver iff RP and the transmitter iff txerr > 127; warning and passive carry both counts; bus-off carries its class alone |
| Irq.StateChangeWarning | rtcan_c_can.c:1095-1106 | entering warning sets ERROR_WARNING and delivers the frame, nothing else |
| Irq.StateChangePassive | rtcan_c_can.c:1107-1119 | entering passive sets ERROR_PASSIVE and delivers the frame, nothing else |
| Irq.StateChangeBusOff | rtcan_c_can.c:1120-1132 | bus-off sets BUS_OFF, clears the interrupt enables, destroys the semaphore and delivers the frame |
| Irq.HandleStateChangeResult | rtcan_c_can.c:1076-1140 | every state change matches its reference StateChanged |
| Irq.CtrlSemAfter | rtcan_c_can.c:1129-1131 | only bus-off touches CTRL, clearing exactly the three enables, and only it kills the semaphore; the count is kept |
| Irq.HandleBusErrResult | rtcan_c_can.c:1142-1209 | codes 0 and 7 change nothing and return 0; the other codes set STS to LEC_UNUSED, deliver one bus-error frame and return 1 |
| Irq.LecFrameDistinguishes | rtcan_c_can.c:1169-1201 | codes 1..6 give frames with identifier CAN_ERR_PROT \| CAN_ERR_BUSERROR (0x88), and different codes give different frames |
| Irq.LecFields | rtcan_c_can.c:1172-1201 | data[2] and data[3] for each error code |
| Irq.AckTxRxResult | rtcan_c_can.c:1234-1244 | the TXOK and RXOK acknowledgements write only STS, and the last write wins |
| Irq.ChangeIfResult | rtcan_c_can.c:1247-1279 | a conditional state change acts exactly when its edge is present |
| Irq.EnterStatesResult | rtcan_c_can.c:1247-1279 | the rising edges of EWARN, EPASS and BOFF, handled in order, give the reference effect |
| Irq.LeaveStatesResult | rtcan_c_can.c:1282-1293 | a falling BOFF or EPASS edge sets ERROR_ACTIVE and changes nothing else |
| Irq.StatusIrqHandles | rtcan_c_can.c:1229-1309 | the status branch: both saved statuses become the STS value read; state, STS and the frames follow the reference; a rising BOFF alone clears the enables and destroys the semaphore |
| Irq.InterruptNone | rtcan_c_can.c:1220-1222 | with INT at 0 the handler only records it and returns RTDM_IRQ_NONE |
| Irq.DispatchReturn | rtcan_c_can.c:1229-1338 | the branch returns HANDLED iff INT names the status interrupt or an object 1..32, and otherwise changes nothing |
| Irq.DispatchKeepsCtrl | rtcan_c_can.c:1224-1338 | no branch of the handler changes CTRL except by a bus-off clearing the three enables |
| Irq.InterruptReturn | rtcan_c_can.c:1211-1348 | with INT non-zero the value is recorded, HANDLED is returned iff a branch handles it, and CTRL ends as it was on entry with SIE, EIE and IE set, whatever the branch did |
| Irq.InterruptStatus | rtcan_c_can.c:1224-1309 | the whole handler on a status interrupt: the exact new snapshot, with CTRL as on entry plus the three enables |
| Irq.InterruptRx | rtcan_c_can.c:1310-1322 | a receive interrupt delivers at most 16 frames after the earlier ones and keeps objects 17..32; CTRL ends as on entry plus the three enables; only it, the banks and the receive objects change |
| Irq.InterruptTx | rtcan_c_can.c:1324-1338 | a transmit interrupt updates tx_echo, the RAM and the semaphore as c_can_do_tx does, reports one loopback iff one is pending, CTRL ends as on entry plus the three enables, and nothing else but the banks changes |

## Left out

- Platform probe and remove, device-table matching, clocks, pinctrl, ioremap and registration (`c_can_plat_probe`, `c_can_plat_remove`, `alloc_c_can_dev`, `register_c_candev`): bus and resource plumbing. Only the choice of register map and access width is modelled, as Registers.SelectAlignment.
- Power management, the pm_runtime wrappers and `c_can_reset_ram` / `c_can_hw_raminit`: jiffies-based timeouts and raw MMIO on a foreign register.
- The locks (`device_lock`, `rtcan_recv_list_lock`, `rtcan_socket_lock`), `udelay` and concurrency: the model is sequential, and each handler runs to completion.
- `rtdm_irq_request` is replaced by the value it returns, the input irqErr. `rtdm_irq_free` has no effect on the model.
- The semaphore is a counter with an alive flag. Init sets the count. Up always adds one and destroy clears the flag; waking blocked senders is not modelled.
- The socket layer: `rtcan_rcv` appends a frame event to the output sequence, and `rtcan_loopback` appends a loopback event. Whether `rtcan_loopback_pending` holds is an input.
- Hardware behaviour of the message RAM: how TXRQST clears, and how NEWDAT and INTPND get set on reception. The INTPND value tested for each receive object (`pend`) and the TXRQST value read on each ring turn (`rqst`) are inputs. Their length requirements (`Irq.OraclesCover`) say only that there is one value per read.
- The BUSY value each COMREQ poll sees is an input (`readings`). Device.MsgObjIsBusy models the countdown; the transfer functions treat every transfer as complete, so only the logged timeout message is lost.
- `skb.rb_frame_size` (EMPTY_RB_FRAME_SIZE): the header constant is not part of this model. Uninitialised on-stack frames are modelled as zero-initialised.
- Header constants are assumed to have SocketCAN values: the CAN_* flags and masks, the error classes, `can_mode_t` (STOP 0, START 1, SLEEP 2) and EOPNOTSUPP = 95. The operating states are ERROR_ACTIVE, WARNING and PASSIVE.
- `c_can_is_next_tx_obj_busy` is never called, and `c_can_save_bit_time` only copies the bit timing into priv; both are left out. The bit timing is a field of the snapshot.
- `trimove.py` is a python-can script over a library that is not part of this model.
- MsgObject.Pow2: the object bit 1 << (objno - 1) is built by doubling. No lemma equates it with a shift.
- The message-object operations above get and put always use interface 0, as every call in the driver does. Interface 1 is modelled only in Registers and Device.
- Driver.CCan.ObjectGet requires a read mask (no IF_COMM_WR), as every get in the driver passes.
- Driver.CCan: loop methods for the five loops named above, and the transfers they call. The data-word loops and the BUSY wait are not methods of the class; see above. The other operations (start_xmit, chip config, the handler, the mode controller) are the functions on snapshots, with their properties proved there.
- Irq.InterruptRx states bounds and frame properties of the receive pass, not its exact result; the exact result is Rx.RxPollFrom, which Driver.CCan.DoRxPoll matches.
- Tx.StartXmit: requires can_dlc <= 8, as do Tx.StartXmitStores, Objects.WriteMsgObject, Objects.FillTxBank, Objects.WriteDataFrom and their lemmas. The driver does not check the bound itself (rtcan_c_can.c:705-722, 518-552): for a larger can_dlc its data loop reads past the 8-byte payload and writes beyond DATA2B into the following interface registers, and a can_dlc of 0x80 or more sets EOB in the control word. The bound is left to the socket layer, which is not part of this model.
- Rx.RxPollFrame: states that the count and the deliveries agree, but not which frames were delivered; Rx.VisitReceive and Rx.VisitLost state that per object.
