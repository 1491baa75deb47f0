/**
 * Interrupt handling: c_can_handle_state_change, c_can_handle_bus_err, the
 * status branch of c_can_interrupt and the handler's dispatch on the INT
 * register. The values the controller shows in INT, STS and ERR_CNT are
 * whatever the register file holds; the INTPND and TXRQST values the
 * receive and transmit passes read are inputs, and so is whether the
 * socket layer has a loopback frame pending.
 */
module Irq {
  import opened CanFrame
  import opened Registers
  import opened MsgObject
  import opened Device
  import opened Config
  import opened Rx
  import opened Tx

  // STS register bits.
  const STATUS_BOFF: bv16 := 0x80
  const STATUS_EWARN: bv16 := 0x40
  const STATUS_EPASS: bv16 := 0x20
  const STATUS_RXOK: bv16 := 0x10
  const STATUS_TXOK: bv16 := 0x08

  /** The INT value of a status interrupt. */
  const STATUS_INTERRUPT: bv16 := 0x8000

  /** Transmit error count above which the transmitter is error passive. */
  const TX_PASSIVE_LIMIT: bv8 := 127

  /** The ERR_CNT fields: receive error count (bits 8..14), transmit error count (bits 0..7), receive passive (bit 15). */
  function RxErr(cnt: bv16): bv8 { ((cnt & 0x7F00) >> 8) as bv8 }
  function TxErr(cnt: bv16): bv8 { (cnt & 0xFF) as bv8 }
  predicate RxErrPassive(cnt: bv16) { (cnt & 0x8000) >> 15 != 0 }

  /** The receive error count is seven bits wide. */
  lemma RxErrBound(cnt: bv16)
    ensures RxErr(cnt) <= 0x7F
    ensures RxErrPassive(cnt) <==> cnt >= 0x8000
  {
  }

  /** enum c_can_bus_error_types, the three transitions c_can_handle_state_change reports. */
  datatype StateChange = EnterWarning | EnterPassive | EnterBusOff

  /** The error frame a state change reports, from the ERR_CNT value cnt. */
  function StateChangeFrame(t: StateChange, cnt: bv16): Frame
  {
    var tx := TxErr(cnt);
    var rx := RxErr(cnt);
    match t
    case EnterWarning =>
      ErrorFrame(CAN_ERR_CRTL, if tx > rx then CAN_ERR_CRTL_TX_WARNING else CAN_ERR_CRTL_RX_WARNING, 0, 0, tx, rx)
    case EnterPassive =>
      ErrorFrame(CAN_ERR_CRTL,
                 (if RxErrPassive(cnt) then CAN_ERR_CRTL_RX_PASSIVE else 0) |
                 (if tx > TX_PASSIVE_LIMIT then CAN_ERR_CRTL_TX_PASSIVE else 0), 0, 0, tx, rx)
    case EnterBusOff => ErrorFrame(CAN_ERR_BUSOFF, 0, 0, 0, 0, 0)
  }

  /**
   * What the frames say: a warning names the counter that is larger
   * (transmit only when strictly larger), a passive report names the
   * receiver iff the RP bit is set and the transmitter iff its count
   * exceeds 127, and bus-off carries nothing but its class; warning and
   * passive frames carry both counts in data[6] and data[7].
   */
  lemma StateChangeFrameSays(t: StateChange, cnt: bv16)
    ensures t == EnterWarning ==>
              StateChangeFrame(t, cnt).canId == CAN_ERR_CRTL &&
              (StateChangeFrame(t, cnt).data[1] == CAN_ERR_CRTL_TX_WARNING <==> TxErr(cnt) > RxErr(cnt)) &&
              (StateChangeFrame(t, cnt).data[1] == CAN_ERR_CRTL_RX_WARNING <==> TxErr(cnt) <= RxErr(cnt))
    ensures t == EnterPassive ==>
              StateChangeFrame(t, cnt).canId == CAN_ERR_CRTL &&
              (StateChangeFrame(t, cnt).data[1] & CAN_ERR_CRTL_RX_PASSIVE != 0 <==> RxErrPassive(cnt)) &&
              (StateChangeFrame(t, cnt).data[1] & CAN_ERR_CRTL_TX_PASSIVE != 0 <==> TxErr(cnt) > TX_PASSIVE_LIMIT) &&
              StateChangeFrame(t, cnt).data[1] & !(CAN_ERR_CRTL_RX_PASSIVE | CAN_ERR_CRTL_TX_PASSIVE) == 0
    ensures t != EnterBusOff ==>
              StateChangeFrame(t, cnt).data[6] == TxErr(cnt) && StateChangeFrame(t, cnt).data[7] == RxErr(cnt)
    ensures t == EnterBusOff ==> StateChangeFrame(t, cnt) == ErrorFrame(CAN_ERR_BUSOFF, 0, 0, 0, 0, 0)
  {
    ErrorFrameBits(t, cnt);
  }

  lemma ErrorFrameBits(t: StateChange, cnt: bv16)
    ensures t == EnterPassive ==>
              var b := (if RxErrPassive(cnt) then CAN_ERR_CRTL_RX_PASSIVE else 0) |
                       (if TxErr(cnt) > TX_PASSIVE_LIMIT then CAN_ERR_CRTL_TX_PASSIVE else 0);
              (b & CAN_ERR_CRTL_RX_PASSIVE != 0 <==> RxErrPassive(cnt)) &&
              (b & CAN_ERR_CRTL_TX_PASSIVE != 0 <==> TxErr(cnt) > TX_PASSIVE_LIMIT) &&
              b & !(CAN_ERR_CRTL_RX_PASSIVE | CAN_ERR_CRTL_TX_PASSIVE) == 0
  {
  }

  /** c_can_handle_state_change: the new state, for bus-off interrupts off and the semaphore destroyed, then the frame. */
  function HandleStateChange(d: Dev, t: StateChange): Dev
  {
    var f := StateChangeFrame(t, ReadReg(d, ERR_CNT));
    var d1 :=
      match t
      case EnterWarning => d.(state := ErrorWarning)
      case EnterPassive => d.(state := ErrorPassive)
      case EnterBusOff =>
        var e := EnableAllInterrupts(d.(state := BusOff), false);
        e.(sem := SemDestroy(e.sem));
    d1.(out := d1.out + [Rcv(f)])
  }

  lemma StateChangeWarning(d: Dev)
    ensures HandleStateChange(d, EnterWarning) ==
            d.(state := ErrorWarning, out := d.out + [Rcv(StateChangeFrame(EnterWarning, d.regs.errCnt))])
  {
  }

  lemma StateChangePassive(d: Dev)
    ensures HandleStateChange(d, EnterPassive) ==
            d.(state := ErrorPassive, out := d.out + [Rcv(StateChangeFrame(EnterPassive, d.regs.errCnt))])
  {
  }

  lemma StateChangeBusOff(d: Dev)
    ensures HandleStateChange(d, EnterBusOff) ==
            d.(regs := d.regs.(ctrl := d.regs.ctrl & !CONTROL_IRQS), state := BusOff, sem := SemDestroy(d.sem),
               out := d.out + [Rcv(StateChangeFrame(EnterBusOff, d.regs.errCnt))])
  {
  }

  /** The state a state change names. */
  function Entered(t: StateChange): CanState
  {
    match t
    case EnterWarning => ErrorWarning
    case EnterPassive => ErrorPassive
    case EnterBusOff => BusOff
  }

  /** CTRL after a state change: for bus-off the three interrupt enables cleared. */
  function CtrlAfter(t: StateChange, ctrl: bv16): bv16
  {
    if t == EnterBusOff then ctrl & !CONTROL_IRQS else ctrl
  }

  /** The semaphore after a state change: for bus-off destroyed. */
  function SemAfter(t: StateChange, s: Sem): Sem
  {
    if t == EnterBusOff then SemDestroy(s) else s
  }

  /**
   * A state change sets the state it names and reports exactly one frame,
   * built from ERR_CNT; bus-off also changes CTRL and the semaphore as
   * CtrlAfter and SemAfter say; nothing else changes.
   */
  predicate StateChanged(d: Dev, t: StateChange, r: Dev)
  {
    r == d.(regs := d.regs.(ctrl := CtrlAfter(t, d.regs.ctrl)), state := Entered(t), sem := SemAfter(t, d.sem),
            out := d.out + [Rcv(StateChangeFrame(t, d.regs.errCnt))])
  }

  lemma BusOffChanged(d: Dev, r: Dev)
    requires r == d.(regs := d.regs.(ctrl := d.regs.ctrl & !CONTROL_IRQS), state := BusOff, sem := SemDestroy(d.sem),
                     out := d.out + [Rcv(StateChangeFrame(EnterBusOff, d.regs.errCnt))])
    ensures StateChanged(d, EnterBusOff, r)
  {
  }

  lemma WarningChanged(d: Dev, r: Dev)
    requires r == d.(state := ErrorWarning, out := d.out + [Rcv(StateChangeFrame(EnterWarning, d.regs.errCnt))])
    ensures StateChanged(d, EnterWarning, r)
  {
  }

  lemma PassiveChanged(d: Dev, r: Dev)
    requires r == d.(state := ErrorPassive, out := d.out + [Rcv(StateChangeFrame(EnterPassive, d.regs.errCnt))])
    ensures StateChanged(d, EnterPassive, r)
  {
  }

  lemma HandleStateChangeResult(d: Dev, t: StateChange)
    ensures StateChanged(d, t, HandleStateChange(d, t))
  {
    match t
    case EnterWarning =>
      StateChangeWarning(d);
      WarningChanged(d, HandleStateChange(d, t));
    case EnterPassive =>
      StateChangePassive(d);
      PassiveChanged(d, HandleStateChange(d, t));
    case EnterBusOff =>
      StateChangeBusOff(d);
      BusOffChanged(d, HandleStateChange(d, t));
  }

  /**
   * Only bus-off touches CTRL, and then it clears exactly the three
   * interrupt enables; only bus-off touches the semaphore, and then it
   * kills it and keeps its count.
   */
  lemma CtrlSemAfter(t: StateChange, ctrl: bv16, s: Sem)
    ensures CtrlAfter(t, ctrl) & !CONTROL_IRQS == ctrl & !CONTROL_IRQS
    ensures t == EnterBusOff ==> CtrlAfter(t, ctrl) & CONTROL_IRQS == 0 && !SemAfter(t, s).alive
    ensures t != EnterBusOff ==> CtrlAfter(t, ctrl) == ctrl && SemAfter(t, s) == s
    ensures SemAfter(t, s).count == s.count
  {
  }

  // enum c_can_lec_type.
  const LEC_NO_ERROR: bv16 := 0
  const LEC_STUFF_ERROR: bv16 := 1
  const LEC_FORM_ERROR: bv16 := 2
  const LEC_ACK_ERROR: bv16 := 3
  const LEC_BIT1_ERROR: bv16 := 4
  const LEC_BIT0_ERROR: bv16 := 5
  const LEC_CRC_ERROR: bv16 := 6

  /** The violation type a last-error code reports in data[2]. */
  function LecType(lec: bv16): bv8
  {
    CAN_ERR_PROT_UNSPEC |
    (if lec == LEC_STUFF_ERROR then CAN_ERR_PROT_STUFF
     else if lec == LEC_FORM_ERROR then CAN_ERR_PROT_FORM
     else if lec == LEC_BIT1_ERROR then CAN_ERR_PROT_BIT1
     else if lec == LEC_BIT0_ERROR then CAN_ERR_PROT_BIT0
     else 0)
  }

  /** The violation location a last-error code reports in data[3]. */
  function LecLocation(lec: bv16): bv8
  {
    if lec == LEC_ACK_ERROR then CAN_ERR_PROT_LOC_ACK | CAN_ERR_PROT_LOC_ACK_DEL
    else if lec == LEC_CRC_ERROR then CAN_ERR_PROT_LOC_CRC_SEQ | CAN_ERR_PROT_LOC_CRC_DEL
    else 0
  }

  /** The bus-error frame of a last-error code. */
  function LecFrame(lec: bv16): Frame
  {
    ErrorFrame(CAN_ERR_PROT | CAN_ERR_BUSERROR, 0, LecType(lec), LecLocation(lec), 0, 0)
  }

  /** Whether c_can_handle_bus_err reports anything: not for "no error" and not for "no update". */
  predicate LecReported(lec: bv16) { lec != LEC_UNUSED && lec != LEC_NO_ERROR }

  /** The outcome of c_can_handle_bus_err: the new snapshot and its return value. */
  datatype BusErr = BusErr(d: Dev, ret: int)

  /** c_can_handle_bus_err. */
  function HandleBusErr(d: Dev, lec: bv16): BusErr
  {
    if !LecReported(lec) then BusErr(d, 0)
    else
      var d1 := WriteReg(d, STS, LEC_UNUSED);
      BusErr(d1.(out := d1.out + [Rcv(LecFrame(lec))]), 1)
  }

  /**
   * Codes 0 and 7 change nothing and return 0; every other code rewrites
   * STS to LEC_UNUSED, reports exactly one bus-error frame and returns 1.
   */
  lemma HandleBusErrResult(d: Dev, lec: bv16)
    ensures !LecReported(lec) ==> HandleBusErr(d, lec) == BusErr(d, 0)
    ensures LecReported(lec) ==>
              HandleBusErr(d, lec).ret == 1 &&
              HandleBusErr(d, lec).d == d.(regs := d.regs.(sts := LEC_UNUSED), out := d.out + [Rcv(LecFrame(lec))])
  {
  }

  /**
   * Each of the six error codes is reported as a protocol bus error, and
   * they are told apart: two codes 1..6 give the same frame only if they
   * are the same code.
   */
  lemma {:induction false} LecFrameDistinguishes(a: bv16, b: bv16)
    requires 1 <= a <= 6 && 1 <= b <= 6
    ensures LecFrame(a).canId == CAN_ERR_PROT | CAN_ERR_BUSERROR
    ensures LecFrame(a) == LecFrame(b) ==> a == b
  {
    LecFields(a);
    LecFields(b);
  }

  /** data[2] and data[3] of every error code. */
  lemma LecFields(lec: bv16)
    requires 1 <= lec <= 6
    ensures lec == LEC_STUFF_ERROR ==> LecType(lec) == CAN_ERR_PROT_STUFF && LecLocation(lec) == 0
    ensures lec == LEC_FORM_ERROR ==> LecType(lec) == CAN_ERR_PROT_FORM && LecLocation(lec) == 0
    ensures lec == LEC_ACK_ERROR ==> LecType(lec) == 0 && LecLocation(lec) == 0x1B
    ensures lec == LEC_BIT1_ERROR ==> LecType(lec) == CAN_ERR_PROT_BIT1 && LecLocation(lec) == 0
    ensures lec == LEC_BIT0_ERROR ==> LecType(lec) == CAN_ERR_PROT_BIT0 && LecLocation(lec) == 0
    ensures lec == LEC_CRC_ERROR ==> LecType(lec) == 0 && LecLocation(lec) == 0x18
  {
  }

  /** A status bit that is set now and was clear at the last status interrupt. */
  predicate Rising(cur: bv16, last: bv16, bit: bv16) { cur & bit != 0 && last & bit == 0 }

  /** A status bit that is clear now and was set at the last status interrupt. */
  predicate Falling(cur: bv16, last: bv16, bit: bv16) { cur & bit == 0 && last & bit != 0 }

  /** The TXOK and RXOK acknowledgements: each set bit is written back cleared, computed from the value read. */
  function AckTxRx(d: Dev, cs: bv16): Dev
  {
    var d1 := if cs & STATUS_TXOK != 0 then WriteReg(d, STS, cs & !STATUS_TXOK) else d;
    if cs & STATUS_RXOK != 0 then WriteReg(d1, STS, cs & !STATUS_RXOK) else d1
  }

  /** A state change when b holds, nothing otherwise. */
  function ChangeIf(d: Dev, b: bool, t: StateChange): Dev
  {
    if b then HandleStateChange(d, t) else d
  }

  /** The rising edges of EWARN, EPASS and BOFF against the last status, handled in that order. */
  function EnterStates(d: Dev, cs: bv16, ls: bv16): Dev
  {
    var d1 := ChangeIf(d, Rising(cs, ls, STATUS_EWARN), EnterWarning);
    var d2 := ChangeIf(d1, Rising(cs, ls, STATUS_EPASS), EnterPassive);
    ChangeIf(d2, Rising(cs, ls, STATUS_BOFF), EnterBusOff)
  }

  /** The falling edges of BOFF and EPASS: bus recovery to ERROR_ACTIVE. */
  function LeaveStates(d: Dev, cs: bv16, ls: bv16): Dev
  {
    var d1 := if Falling(cs, ls, STATUS_BOFF) then d.(state := ErrorActive) else d;
    if Falling(cs, ls, STATUS_EPASS) then d1.(state := ErrorActive) else d1
  }

  /** The status branch of c_can_interrupt. */
  function StatusIrq(d: Dev): Dev
  {
    var cs := ReadReg(d, STS);
    var ls := d.lastStatus;
    var d2 := AckTxRx(d.(currentStatus := cs), cs);
    var d7 := LeaveStates(EnterStates(d2, cs, ls), cs, ls);
    var d8 := d7.(lastStatus := cs);
    var lec := cs & LEC_UNUSED;
    if lec != 0 then HandleBusErr(d8, lec).d else d8
  }

  /** The STS value the acknowledgements leave: the RXOK write when there is one, else the TXOK write, else the old value. */
  function AckValue(cs: bv16, prev: bv16): bv16
  {
    if cs & STATUS_RXOK != 0 then cs & !STATUS_RXOK
    else if cs & STATUS_TXOK != 0 then cs & !STATUS_TXOK
    else prev
  }

  /** The acknowledgements write only STS, and the last write wins. */
  lemma AckTxRxResult(d: Dev, cs: bv16)
    ensures AckTxRx(d, cs) == d.(regs := d.regs.(sts := AckValue(cs, d.regs.sts)))
  {
  }

  /** The frames of the rising edges, in the order they are handled. */
  function EdgeEvents(cs: bv16, ls: bv16, cnt: bv16): seq<Event>
  {
    (if Rising(cs, ls, STATUS_EWARN) then [Rcv(StateChangeFrame(EnterWarning, cnt))] else []) +
    (if Rising(cs, ls, STATUS_EPASS) then [Rcv(StateChangeFrame(EnterPassive, cnt))] else []) +
    (if Rising(cs, ls, STATUS_BOFF) then [Rcv(StateChangeFrame(EnterBusOff, cnt))] else [])
  }

  /** The frames a status interrupt reports: the edges, then the bus error. */
  function StatusEvents(cs: bv16, ls: bv16, cnt: bv16): seq<Event>
  {
    EdgeEvents(cs, ls, cnt) + (if LecReported(cs & LEC_UNUSED) then [Rcv(LecFrame(cs & LEC_UNUSED))] else [])
  }

  /** The state the rising edges leave: the last edge handled wins. */
  function EdgeState(cs: bv16, ls: bv16, s: CanState): CanState
  {
    if Rising(cs, ls, STATUS_BOFF) then BusOff
    else if Rising(cs, ls, STATUS_EPASS) then ErrorPassive
    else if Rising(cs, ls, STATUS_EWARN) then ErrorWarning
    else s
  }

  /**
   * The state a status interrupt leaves, by priority: a falling BOFF or
   * EPASS edge wins and gives ERROR_ACTIVE, then a rising BOFF, EPASS, EWARN
   * edge in that order; with no such edge the state stays.
   */
  function StatusState(cs: bv16, ls: bv16, s: CanState): CanState
  {
    if Falling(cs, ls, STATUS_BOFF) || Falling(cs, ls, STATUS_EPASS) then ErrorActive
    else EdgeState(cs, ls, s)
  }

  /**
   * The STS value a status interrupt leaves: LEC_UNUSED after a reported
   * bus error, else what the acknowledgements leave of the value read.
   */
  function StatusRegister(cs: bv16): bv16
  {
    if LecReported(cs & LEC_UNUSED) then LEC_UNUSED else AckValue(cs, cs)
  }

  /** What the rising edges do, from the snapshot d they start from. */
  predicate EdgesHandled(d: Dev, cs: bv16, ls: bv16, r: Dev)
  {
    var boff := Rising(cs, ls, STATUS_BOFF);
    r == d.(regs := d.regs.(ctrl := if boff then d.regs.ctrl & !CONTROL_IRQS else d.regs.ctrl),
            state := EdgeState(cs, ls, d.state),
            sem := if boff then SemDestroy(d.sem) else d.sem,
            out := d.out + EdgeEvents(cs, ls, d.regs.errCnt))
  }

  /** One conditional state change, in the terms of its reference. */
  lemma ChangeIfResult(d: Dev, b: bool, t: StateChange)
    ensures b ==> StateChanged(d, t, ChangeIf(d, b, t))
    ensures !b ==> ChangeIf(d, b, t) == d
  {
    if b {
      HandleStateChangeResult(d, t);
    }
  }

  /** The events of the edges, one edge at a time. */
  lemma EdgeEventsSplit(cs: bv16, ls: bv16, cnt: bv16, o: seq<Event>, o1: seq<Event>, o2: seq<Event>, o3: seq<Event>)
    requires o1 == o + (if Rising(cs, ls, STATUS_EWARN) then [Rcv(StateChangeFrame(EnterWarning, cnt))] else [])
    requires o2 == o1 + (if Rising(cs, ls, STATUS_EPASS) then [Rcv(StateChangeFrame(EnterPassive, cnt))] else [])
    requires o3 == o2 + (if Rising(cs, ls, STATUS_BOFF) then [Rcv(StateChangeFrame(EnterBusOff, cnt))] else [])
    ensures o3 == o + EdgeEvents(cs, ls, cnt)
  {
  }

  /** The warning and passive edges change the state and the output alone. */
  lemma EdgesLower(d: Dev, cs: bv16, ls: bv16, d1: Dev, d2: Dev)
    requires var b := Rising(cs, ls, STATUS_EWARN); (b ==> StateChanged(d, EnterWarning, d1)) && (!b ==> d1 == d)
    requires var b := Rising(cs, ls, STATUS_EPASS); (b ==> StateChanged(d1, EnterPassive, d2)) && (!b ==> d2 == d1)
    ensures d2 == d.(state := if Rising(cs, ls, STATUS_EPASS) then ErrorPassive
                              else if Rising(cs, ls, STATUS_EWARN) then ErrorWarning else d.state,
                     out := d2.out)
    ensures d2.out == d.out + (if Rising(cs, ls, STATUS_EWARN) then [Rcv(StateChangeFrame(EnterWarning, d.regs.errCnt))] else []) +
                              (if Rising(cs, ls, STATUS_EPASS) then [Rcv(StateChangeFrame(EnterPassive, d.regs.errCnt))] else [])
  {
  }

  lemma EdgesCompose(d: Dev, cs: bv16, ls: bv16, d1: Dev, d2: Dev, d3: Dev)
    requires var b := Rising(cs, ls, STATUS_EWARN); (b ==> StateChanged(d, EnterWarning, d1)) && (!b ==> d1 == d)
    requires var b := Rising(cs, ls, STATUS_EPASS); (b ==> StateChanged(d1, EnterPassive, d2)) && (!b ==> d2 == d1)
    requires var b := Rising(cs, ls, STATUS_BOFF); (b ==> StateChanged(d2, EnterBusOff, d3)) && (!b ==> d3 == d2)
    ensures EdgesHandled(d, cs, ls, d3)
  {
    EdgesLower(d, cs, ls, d1, d2);
    EdgeEventsSplit(cs, ls, d.regs.errCnt, d.out, d1.out, d2.out, d3.out);
  }

  /** The rising edges, against their reference. */
  lemma {:induction false} EnterStatesResult(d: Dev, cs: bv16, ls: bv16)
    ensures EdgesHandled(d, cs, ls, EnterStates(d, cs, ls))
  {
    var d1 := ChangeIf(d, Rising(cs, ls, STATUS_EWARN), EnterWarning);
    var d2 := ChangeIf(d1, Rising(cs, ls, STATUS_EPASS), EnterPassive);
    ChangeIfResult(d, Rising(cs, ls, STATUS_EWARN), EnterWarning);
    ChangeIfResult(d1, Rising(cs, ls, STATUS_EPASS), EnterPassive);
    ChangeIfResult(d2, Rising(cs, ls, STATUS_BOFF), EnterBusOff);
    EdgesCompose(d, cs, ls, d1, d2, EnterStates(d, cs, ls));
  }

  /** The falling edges change the state alone. */
  lemma LeaveStatesResult(d: Dev, cs: bv16, ls: bv16)
    ensures LeaveStates(d, cs, ls) ==
            d.(state := if Falling(cs, ls, STATUS_BOFF) || Falling(cs, ls, STATUS_EPASS) then ErrorActive else d.state)
  {
  }

  /**
   * The whole effect of a status interrupt, against the reference
   * functions: the saved statuses both become the STS value read, the
   * state and the STS register follow StatusState and StatusRegister, the
   * reported frames are StatusEvents, and a rising BOFF edge alone clears
   * the interrupt enables and destroys the semaphore.
   */
  predicate StatusHandled(d: Dev, r: Dev)
  {
    var cs := d.regs.sts;
    var ls := d.lastStatus;
    var boff := Rising(cs, ls, STATUS_BOFF);
    r == d.(regs := d.regs.(sts := StatusRegister(cs), ctrl := if boff then d.regs.ctrl & !CONTROL_IRQS else d.regs.ctrl),
            currentStatus := cs, lastStatus := cs,
            state := StatusState(cs, ls, d.state),
            sem := if boff then SemDestroy(d.sem) else d.sem,
            out := d.out + StatusEvents(cs, ls, d.regs.errCnt))
  }

  lemma StatusCompose(d: Dev, d2: Dev, d5: Dev, d7: Dev, d8: Dev, r: Dev)
    requires d2 == d.(currentStatus := d.regs.sts, regs := d.regs.(sts := AckValue(d.regs.sts, d.regs.sts)))
    requires EdgesHandled(d2, d.regs.sts, d.lastStatus, d5)
    requires d7 == d5.(state := if Falling(d.regs.sts, d.lastStatus, STATUS_BOFF) || Falling(d.regs.sts, d.lastStatus, STATUS_EPASS)
                                then ErrorActive else d5.state)
    requires d8 == d7.(lastStatus := d.regs.sts)
    requires var lec := d.regs.sts & LEC_UNUSED;
             (LecReported(lec) ==> r == d8.(regs := d8.regs.(sts := LEC_UNUSED), out := d8.out + [Rcv(LecFrame(lec))])) &&
             (!LecReported(lec) ==> r == d8)
    ensures StatusHandled(d, r)
  {
  }

  lemma {:induction false} StatusIrqHandles(d: Dev)
    ensures StatusHandled(d, StatusIrq(d))
  {
    var cs := d.regs.sts;
    var ls := d.lastStatus;
    var d0 := d.(currentStatus := cs);
    var d2 := AckTxRx(d0, cs);
    var d5 := EnterStates(d2, cs, ls);
    var d7 := LeaveStates(d5, cs, ls);
    var d8 := d7.(lastStatus := cs);
    AckTxRxResult(d0, cs);
    EnterStatesResult(d2, cs, ls);
    LeaveStatesResult(d5, cs, ls);
    HandleBusErrResult(d8, cs & LEC_UNUSED);
    StatusCompose(d, d2, d5, d7, d8, StatusIrq(d));
  }

  /** RTDM_IRQ_NONE and RTDM_IRQ_HANDLED. */
  datatype IrqReturn = IrqNone | IrqHandled

  /** What the interrupt handler leaves and returns. */
  datatype IrqOutcome = IrqOutcome(d: Dev, ret: IrqReturn)

  /** The oracle inputs a handler run needs: INTPND for every receive object, TXRQST for every ring turn. */
  predicate OraclesCover(d: Dev, pend: seq<bv32>, rqst: seq<bv32>)
  {
    |pend| >= RX_LAST && |rqst| >= Dist(d.txNext, d.txEcho)
  }

  // The INT values that name message objects: 1..16 receive, 17..32 transmit.
  const IRQ_RX_FIRST: bv16 := 1
  const IRQ_RX_LAST: bv16 := 16
  const IRQ_TX_FIRST: bv16 := 17
  const IRQ_TX_LAST: bv16 := 32

  /** The transmit branch: c_can_do_tx, then the pending loopback delivery if there is one. */
  function TxIrq(d: Dev, rqst: seq<bv32>, loopbackPending: bool): Dev
    requires |rqst| >= Dist(d.txNext, d.txEcho)
  {
    var t := DoTx(d, rqst);
    if loopbackPending then t.(out := t.out + [Loopback]) else t
  }

  /** The branch c_can_interrupt takes on a non-zero INT value st, with the interrupts already disabled in d. */
  function Dispatch(d: Dev, st: bv16, pend: seq<bv32>, rqst: seq<bv32>, loopbackPending: bool): IrqOutcome
    requires OraclesCover(d, pend, rqst)
  {
    if st == STATUS_INTERRUPT then IrqOutcome(StatusIrq(d), IrqHandled)
    else if IRQ_RX_FIRST <= st <= IRQ_RX_LAST then IrqOutcome(DoRxPoll(d, pend).d, IrqHandled)
    else if IRQ_TX_FIRST <= st <= IRQ_TX_LAST then IrqOutcome(TxIrq(d, rqst, loopbackPending), IrqHandled)
    else IrqOutcome(d, IrqNone)
  }

  /** c_can_interrupt. */
  function Interrupt(d: Dev, pend: seq<bv32>, rqst: seq<bv32>, loopbackPending: bool): IrqOutcome
    requires OraclesCover(d, pend, rqst)
  {
    var st := ReadReg(d, INT);
    var d0 := d.(irqStatus := st);
    if st == 0 then IrqOutcome(d0, IrqNone)
    else
      var d1 := EnableAllInterrupts(d0, false);
      var r := Dispatch(d1, st, pend, rqst, loopbackPending);
      IrqOutcome(EnableAllInterrupts(r.d, true), r.ret)
  }

  /** Whether a non-zero INT value names a source c_can_interrupt handles. */
  predicate Handled(st: bv16)
  {
    st == STATUS_INTERRUPT || 1 <= st <= 32
  }

  /** With INT at 0 the handler only records it, and returns RTDM_IRQ_NONE. */
  lemma InterruptNone(d: Dev, pend: seq<bv32>, rqst: seq<bv32>, lb: bool)
    requires OraclesCover(d, pend, rqst)
    requires ReadReg(d, INT) == 0
    ensures Interrupt(d, pend, rqst, lb) == IrqOutcome(d.(irqStatus := 0), IrqNone)
  {
  }

  /** The branch result, in the snapshot left after the interrupts are disabled. */
  lemma DispatchReturn(d: Dev, st: bv16, pend: seq<bv32>, rqst: seq<bv32>, lb: bool)
    requires OraclesCover(d, pend, rqst)
    ensures Dispatch(d, st, pend, rqst, lb).ret == IrqHandled <==> Handled(st)
    ensures !Handled(st) ==> Dispatch(d, st, pend, rqst, lb).d == d
  {
  }

  lemma DisabledCovers(d: Dev, d1: Dev, pend: seq<bv32>, rqst: seq<bv32>)
    requires OraclesCover(d, pend, rqst)
    requires d1 == EnableAllInterrupts(d, false)
    ensures OraclesCover(d1, pend, rqst)
  {
  }

  /**
   * A non-zero INT value is recorded in the snapshot, the handler returns
   * RTDM_IRQ_HANDLED exactly when the value names the status interrupt or a
   * message object, and on the way out the three interrupt enables are set
   * again whatever the branch did with them, after a bus-off too, and the
   * rest of CTRL is as it was.
   */
  lemma {:induction false} InterruptReturn(d: Dev, pend: seq<bv32>, rqst: seq<bv32>, lb: bool)
    requires OraclesCover(d, pend, rqst)
    requires ReadReg(d, INT) != 0
    ensures var r := Interrupt(d, pend, rqst, lb);
            r.d.irqStatus == ReadReg(d, INT) &&
            (r.ret == IrqHandled <==> Handled(ReadReg(d, INT))) &&
            r.d.regs.ctrl == d.regs.ctrl | CONTROL_IRQS
  {
    var st := ReadReg(d, INT);
    var e := Entry(d);
    InterruptShape(d, pend, rqst, lb);
    var b := Dispatch(e, st, pend, rqst, lb);
    DispatchReturn(e, st, pend, rqst, lb);
    DispatchKeepsIrqStatus(e, st, pend, rqst, lb);
    DispatchKeepsCtrl(e, st, pend, rqst, lb);
    EntryKeeps(d);
    EnableAllInterruptsBits(d.(irqStatus := st), false);
    EnableAllInterruptsBits(b.d, true);
    ReturnGlue(d, e, b, Interrupt(d, pend, rqst, lb));
  }

  lemma ReturnGlue(d: Dev, e: Dev, b: IrqOutcome, r: IrqOutcome)
    requires e.irqStatus == ReadReg(d, INT) && e.regs.ctrl == d.regs.ctrl & !CONTROL_IRQS
    requires b.d.irqStatus == e.irqStatus && CtrlKept(e.regs.ctrl, b.d.regs.ctrl)
    requires r.ret == b.ret && r.d == b.d.(regs := b.d.regs.(ctrl := r.d.regs.ctrl))
    requires r.d.regs.ctrl == b.d.regs.ctrl | CONTROL_IRQS
    ensures r.d.irqStatus == ReadReg(d, INT) && r.d.regs.ctrl == d.regs.ctrl | CONTROL_IRQS
  {
    EnablesRestored(d.regs.ctrl, b.d.regs.ctrl);
  }

  /** Setting the enables on exit undoes the entry's clearing and a bus-off's. */
  lemma EnablesRestored(x: bv16, b: bv16)
    requires CtrlKept(x & !CONTROL_IRQS, b)
    ensures b | CONTROL_IRQS == x | CONTROL_IRQS
  {
  }

  /** CTRL after the status branch: unchanged, or with the enables cleared on a bus-off. */
  predicate CtrlKept(before: bv16, after: bv16)
  {
    after == before || after == before & !CONTROL_IRQS
  }

  lemma StatusIrqKeepsCtrl(d: Dev)
    ensures CtrlKept(d.regs.ctrl, StatusIrq(d).regs.ctrl)
  {
    StatusIrqHandles(d);
  }

  lemma RxPollKeepsCtrl(d: Dev, pend: seq<bv32>)
    requires |pend| >= RX_LAST
    ensures DoRxPoll(d, pend).d.regs.ctrl == d.regs.ctrl
  {
    RxPollFrame(d, pend, RX_FIRST, 0, ZeroFrame);
  }

  lemma TxIrqKeepsCtrl(d: Dev, rqst: seq<bv32>, lb: bool)
    requires |rqst| >= Dist(d.txNext, d.txEcho)
    ensures TxIrq(d, rqst, lb).regs.ctrl == d.regs.ctrl
  {
    DoTxResult(d, rqst);
  }

  /** No branch changes CTRL other than by clearing SIE, EIE and IE. */
  lemma DispatchKeepsCtrl(d: Dev, st: bv16, pend: seq<bv32>, rqst: seq<bv32>, lb: bool)
    requires OraclesCover(d, pend, rqst)
    ensures CtrlKept(d.regs.ctrl, Dispatch(d, st, pend, rqst, lb).d.regs.ctrl)
  {
    if st == STATUS_INTERRUPT {
      DispatchStatus(d, st, pend, rqst, lb);
      StatusIrqKeepsCtrl(d);
    } else if IRQ_RX_FIRST <= st <= IRQ_RX_LAST {
      DispatchRx(d, st, pend, rqst, lb);
      RxPollKeepsCtrl(d, pend);
    } else if IRQ_TX_FIRST <= st <= IRQ_TX_LAST {
      DispatchTx(d, st, pend, rqst, lb);
      TxIrqKeepsCtrl(d, rqst, lb);
    } else {
      DispatchReturn(d, st, pend, rqst, lb);
    }
  }

  lemma DispatchStatus(e: Dev, st: bv16, pend: seq<bv32>, rqst: seq<bv32>, lb: bool)
    requires OraclesCover(e, pend, rqst)
    requires st == STATUS_INTERRUPT
    ensures Dispatch(e, st, pend, rqst, lb) == IrqOutcome(StatusIrq(e), IrqHandled)
  {
  }

  lemma DispatchRx(e: Dev, st: bv16, pend: seq<bv32>, rqst: seq<bv32>, lb: bool)
    requires OraclesCover(e, pend, rqst)
    requires IRQ_RX_FIRST <= st <= IRQ_RX_LAST
    ensures Dispatch(e, st, pend, rqst, lb) == IrqOutcome(DoRxPoll(e, pend).d, IrqHandled)
  {
  }

  /** No branch touches the recorded INT value. */
  lemma StatusIrqKeepsIrqStatus(d: Dev)
    ensures StatusIrq(d).irqStatus == d.irqStatus
  {
    StatusIrqHandles(d);
  }

  lemma RxPollKeepsIrqStatus(d: Dev, pend: seq<bv32>)
    requires |pend| >= RX_LAST
    ensures DoRxPoll(d, pend).d.irqStatus == d.irqStatus
  {
    RxPollFrame(d, pend, RX_FIRST, 0, ZeroFrame);
  }

  lemma TxIrqKeepsIrqStatus(d: Dev, rqst: seq<bv32>, lb: bool)
    requires |rqst| >= Dist(d.txNext, d.txEcho)
    ensures TxIrq(d, rqst, lb).irqStatus == d.irqStatus
  {
    DoTxResult(d, rqst);
  }

  lemma DispatchKeepsIrqStatus(d: Dev, st: bv16, pend: seq<bv32>, rqst: seq<bv32>, lb: bool)
    requires OraclesCover(d, pend, rqst)
    ensures Dispatch(d, st, pend, rqst, lb).d.irqStatus == d.irqStatus
  {
    StatusIrqKeepsIrqStatus(d);
    RxPollKeepsIrqStatus(d, pend);
    TxIrqKeepsIrqStatus(d, rqst, lb);
  }

  /** The snapshot the branches start from: INT recorded, the interrupts disabled. */
  function Entry(d: Dev): Dev
  {
    EnableAllInterrupts(d.(irqStatus := ReadReg(d, INT)), false)
  }

  lemma EntryKeeps(d: Dev)
    ensures Entry(d) == d.(irqStatus := ReadReg(d, INT), regs := d.regs.(ctrl := Entry(d).regs.ctrl))
  {
  }

  lemma InterruptStatusStep(d: Dev, pend: seq<bv32>, rqst: seq<bv32>, lb: bool)
    requires OraclesCover(d, pend, rqst)
    requires ReadReg(d, INT) == STATUS_INTERRUPT
    ensures Interrupt(d, pend, rqst, lb) == IrqOutcome(EnableAllInterrupts(StatusIrq(Entry(d)), true), IrqHandled)
  {
  }

  lemma StatusExit(d: Dev, e: Dev, s: Dev, r: Dev)
    requires e == d.(irqStatus := e.irqStatus, regs := d.regs.(ctrl := e.regs.ctrl))
    requires StatusHandled(e, s)
    requires r == s.(regs := s.regs.(ctrl := r.regs.ctrl))
    ensures var cs := d.regs.sts;
            var ls := d.lastStatus;
            r == d.(regs := d.regs.(sts := StatusRegister(cs), ctrl := r.regs.ctrl),
                    irqStatus := e.irqStatus, currentStatus := cs, lastStatus := cs,
                    state := StatusState(cs, ls, d.state),
                    sem := if Rising(cs, ls, STATUS_BOFF) then SemDestroy(d.sem) else d.sem,
                    out := d.out + StatusEvents(cs, ls, d.regs.errCnt))
  {
  }

  /**
   * The status branch of c_can_interrupt, against the reference functions
   * on the STS value read and the saved last status: both saved statuses
   * become the value read, STS, the state and the frames reported follow
   * StatusRegister, StatusState and StatusEvents, a rising BOFF edge alone
   * destroys the semaphore, CTRL ends as on entry with the three enables
   * set, and nothing else changes.
   */
  lemma {:induction false} InterruptStatus(d: Dev, pend: seq<bv32>, rqst: seq<bv32>, lb: bool)
    requires OraclesCover(d, pend, rqst)
    requires ReadReg(d, INT) == STATUS_INTERRUPT
    ensures var r := Interrupt(d, pend, rqst, lb).d;
            var cs := d.regs.sts;
            var ls := d.lastStatus;
            r == d.(regs := d.regs.(sts := StatusRegister(cs), ctrl := r.regs.ctrl),
                    irqStatus := STATUS_INTERRUPT, currentStatus := cs, lastStatus := cs,
                    state := StatusState(cs, ls, d.state),
                    sem := if Rising(cs, ls, STATUS_BOFF) then SemDestroy(d.sem) else d.sem,
                    out := d.out + StatusEvents(cs, ls, d.regs.errCnt))
    ensures Interrupt(d, pend, rqst, lb).d.regs.ctrl == d.regs.ctrl | CONTROL_IRQS
  {
    var e := Entry(d);
    EntryKeeps(d);
    StatusIrqHandles(e);
    InterruptStatusStep(d, pend, rqst, lb);
    var s := StatusIrq(e);
    EnableAllInterruptsBits(s, true);
    StatusExit(d, e, s, EnableAllInterrupts(s, true));
    InterruptReturn(d, pend, rqst, lb);
  }

  lemma InterruptRxStep(d: Dev, pend: seq<bv32>, rqst: seq<bv32>, lb: bool)
    requires OraclesCover(d, pend, rqst)
    requires IRQ_RX_FIRST <= ReadReg(d, INT) <= IRQ_RX_LAST
    ensures Interrupt(d, pend, rqst, lb) == IrqOutcome(EnableAllInterrupts(DoRxPoll(Entry(d), pend).d, true), IrqHandled)
  {
  }

  lemma RxExit(d: Dev, e: Dev, p: Dev, r: Dev)
    requires e == d.(irqStatus := e.irqStatus, regs := d.regs.(ctrl := e.regs.ctrl))
    requires OnlyObjectsAndOut(e, p)
    requires r == p.(regs := p.regs.(ctrl := r.regs.ctrl))
    ensures r == d.(regs := d.regs.(ctrl := r.regs.ctrl, if1 := r.regs.if1, if2 := r.regs.if2),
                    irqStatus := e.irqStatus, ram := r.ram, out := r.out)
  {
  }

  /**
   * A receive branch of c_can_interrupt: the poll delivers at most 16
   * frames after the ones already delivered, leaves the transmit objects
   * 17..32 alone, CTRL ends as on entry with the three enables set, and
   * apart from CTRL, the banks and the receive objects nothing else changes.
   */
  lemma {:induction false} InterruptRx(d: Dev, pend: seq<bv32>, rqst: seq<bv32>, lb: bool)
    requires OraclesCover(d, pend, rqst)
    requires IRQ_RX_FIRST <= ReadReg(d, INT) <= IRQ_RX_LAST
    ensures var r := Interrupt(d, pend, rqst, lb).d;
            d.out <= r.out && |r.out| <= |d.out| + RX_LAST &&
            (forall k :: RX_LAST <= k < 32 ==> r.ram[k] == d.ram[k]) &&
            r == d.(regs := d.regs.(ctrl := r.regs.ctrl, if1 := r.regs.if1, if2 := r.regs.if2),
                    irqStatus := ReadReg(d, INT), ram := r.ram, out := r.out)
    ensures Interrupt(d, pend, rqst, lb).d.regs.ctrl == d.regs.ctrl | CONTROL_IRQS
  {
    var e := Entry(d);
    EntryKeeps(d);
    RxPollFrame(e, pend, RX_FIRST, 0, ZeroFrame);
    InterruptRxStep(d, pend, rqst, lb);
    var p := DoRxPoll(e, pend).d;
    EnableAllInterruptsBits(p, true);
    RxExit(d, e, p, EnableAllInterrupts(p, true));
    InterruptReturn(d, pend, rqst, lb);
  }

  /** A non-zero INT value: the branch runs on Entry(d) and the interrupts are enabled after it. */
  lemma InterruptShape(d: Dev, pend: seq<bv32>, rqst: seq<bv32>, lb: bool)
    requires OraclesCover(d, pend, rqst)
    requires ReadReg(d, INT) != 0
    ensures OraclesCover(Entry(d), pend, rqst)
    ensures Interrupt(d, pend, rqst, lb) ==
            IrqOutcome(EnableAllInterrupts(Dispatch(Entry(d), ReadReg(d, INT), pend, rqst, lb).d, true),
                       Dispatch(Entry(d), ReadReg(d, INT), pend, rqst, lb).ret)
  {
  }

  lemma DispatchTx(e: Dev, st: bv16, pend: seq<bv32>, rqst: seq<bv32>, lb: bool)
    requires OraclesCover(e, pend, rqst)
    requires IRQ_TX_FIRST <= st <= IRQ_TX_LAST
    ensures Dispatch(e, st, pend, rqst, lb) == IrqOutcome(TxIrq(e, rqst, lb), IrqHandled)
  {
  }

  lemma InterruptTxStep(d: Dev, pend: seq<bv32>, rqst: seq<bv32>, lb: bool)
    requires OraclesCover(d, pend, rqst)
    requires IRQ_TX_FIRST <= ReadReg(d, INT) <= IRQ_TX_LAST
    ensures Interrupt(d, pend, rqst, lb).d == EnableAllInterrupts(TxIrq(Entry(d), rqst, lb), true)
  {
    InterruptShape(d, pend, rqst, lb);
    DispatchTx(Entry(d), ReadReg(d, INT), pend, rqst, lb);
  }

  lemma TxExit(d: Dev, e: Dev, t: Dev, t1: Dev, r: Dev, lb: bool)
    requires e == d.(irqStatus := e.irqStatus, regs := d.regs.(ctrl := e.regs.ctrl))
    requires OnlyObjects(e, t.(txEcho := e.txEcho, sem := e.sem))
    requires t1 == if lb then t.(out := t.out + [Loopback]) else t
    requires r == t1.(regs := t1.regs.(ctrl := r.regs.ctrl))
    ensures r == d.(regs := d.regs.(ctrl := r.regs.ctrl, if1 := r.regs.if1, if2 := r.regs.if2),
                    irqStatus := e.irqStatus, ram := t.ram, txEcho := t.txEcho, sem := t.sem,
                    out := d.out + (if lb then [Loopback] else []))
  {
  }

  /**
   * A transmit branch of c_can_interrupt: c_can_do_tx advances tx_echo,
   * invalidates and releases as DoTxResult states, one loopback delivery
   * is reported exactly when one was pending, CTRL ends as on entry with
   * the three enables set, and apart from CTRL and the banks nothing else
   * changes.
   */
  lemma {:induction false} InterruptTx(d: Dev, pend: seq<bv32>, rqst: seq<bv32>, lb: bool)
    requires OraclesCover(d, pend, rqst)
    requires IRQ_TX_FIRST <= ReadReg(d, INT) <= IRQ_TX_LAST
    ensures var r := Interrupt(d, pend, rqst, lb).d;
            var t := DoTx(Entry(d), rqst);
            r == d.(regs := d.regs.(ctrl := r.regs.ctrl, if1 := r.regs.if1, if2 := r.regs.if2),
                    irqStatus := ReadReg(d, INT), ram := t.ram, txEcho := t.txEcho, sem := t.sem,
                    out := d.out + (if lb then [Loopback] else []))
    ensures Interrupt(d, pend, rqst, lb).d.regs.ctrl == d.regs.ctrl | CONTROL_IRQS
  {
    var e := Entry(d);
    EntryKeeps(d);
    DoTxResult(e, rqst);
    InterruptTxStep(d, pend, rqst, lb);
    var t := DoTx(e, rqst);
    var t1 := TxIrq(e, rqst, lb);
    EnableAllInterruptsBits(t1, true);
    TxExit(d, e, t, t1, EnableAllInterrupts(t1, true), lb);
    InterruptReturn(d, pend, rqst, lb);
  }
}
