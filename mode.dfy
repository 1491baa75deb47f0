/**
 * The mode controller: c_can_mode_start, c_can_mode_stop and
 * c_can_set_mode. Whether rtdm_irq_request succeeds is an input, irqErr,
 * the value it returns.
 */
module Mode {
  import opened MsgObject
  import opened Device
  import opened Config
  import opened Tx

  // can_mode_t.
  const CAN_MODE_STOP: int := 0
  const CAN_MODE_START: int := 1
  const CAN_MODE_SLEEP: int := 2

  const EOPNOTSUPP: int := 95

  /** The value both ring counters restart from. */
  const RING_START: U32 := 0

  /** What a mode call leaves and what it returns. */
  datatype Outcome = Outcome(d: Dev, err: int)

  /** "Start chip and queuing": chip configuration, ERROR_ACTIVE, both ring counters 0, interrupts on. */
  function StartChip(d: Dev): Dev
  {
    var c := ChipConfig(d);
    EnableAllInterrupts(c.(state := ErrorActive, txNext := RING_START, txEcho := RING_START), true)
  }

  /**
   * c_can_mode_start. From BUS_OFF the semaphore is set up before the chip
   * is started, from STOPPED after it.
   */
  function ModeStart(d: Dev, irqErr: int): Outcome
  {
    if d.state == Stopped && irqErr != 0 then Outcome(d, irqErr)
    else if d.state == Stopped || d.state == BusOff then
      var d1 := if d.state == BusOff then d.(sem := SemInit(TX_NUM)) else d;
      var d2 := StartChip(d1);
      Outcome(if d.state == BusOff then d2 else d2.(sem := SemInit(TX_NUM)), 0)
    else Outcome(d, 0)
  }

  /** c_can_mode_stop. */
  function ModeStop(d: Dev): Dev
  {
    if !Operating(d.state) then d
    else
      var d1 := EnableAllInterrupts(d, false);
      d1.(state := Stopped, sem := SemDestroy(d1.sem))
  }

  /** c_can_set_mode. */
  function SetMode(d: Dev, mode: int, irqErr: int): Outcome
  {
    if mode == CAN_MODE_STOP then Outcome(ModeStop(d), 0)
    else if mode == CAN_MODE_START then ModeStart(d, irqErr)
    else Outcome(d, -EOPNOTSUPP)
  }

  /**
   * A started controller: chip configuration done on d, state ERROR_ACTIVE,
   * both ring counters at 0, the semaphore fresh with 16 places, and the
   * interrupts of the running mode enabled.
   */
  predicate Started(d: Dev, r: Dev)
  {
    ChipConfigured(d.(state := ErrorActive, txNext := RING_START, txEcho := RING_START, sem := SemInit(TX_NUM)), r)
  }

  /** A running mode already has the three interrupt enables set, so enabling them changes nothing. */
  lemma EnableWhenRunning(d: Dev, oldTest: bv16)
    requires RunsInMode(d.regs.ctrl, d.regs.test, oldTest, d.ctrlMode)
    ensures EnableAllInterrupts(d, true) == d
  {
    assert d.regs.ctrl | CONTROL_IRQS == d.regs.ctrl;
  }

  lemma ConfiguredUpdate(d: Dev, c: Dev, st: CanState, e: U32, s: Sem)
    requires ChipConfigured(d, c)
    ensures ChipConfigured(d.(state := st, txNext := e, txEcho := e, sem := s),
                           c.(state := st, txNext := e, txEcho := e, sem := s))
  {
  }

  lemma StartChipSteps(d: Dev, c: Dev, c1: Dev, r: Dev, s: Sem)
    requires ChipConfigured(d, c)
    requires c1 == c.(state := ErrorActive, txNext := RING_START, txEcho := RING_START)
    requires r == EnableAllInterrupts(c1, true)
    ensures ChipConfigured(d.(state := ErrorActive, txNext := RING_START, txEcho := RING_START, sem := s),
                           r.(sem := s))
  {
    EnableWhenRunning(c1, d.regs.test);
    ConfiguredUpdate(d, c, ErrorActive, RING_START, s);
  }

  /** Starting the chip from d and then setting up the semaphore gives a started controller. */
  lemma {:induction false} StartChipStarts(d: Dev)
    ensures Started(d, StartChip(d).(sem := SemInit(TX_NUM)))
  {
    var c := ChipConfig(d);
    ChipConfigResult(d);
    StartChipSteps(d, c, c.(state := ErrorActive, txNext := RING_START, txEcho := RING_START), StartChip(d), SemInit(TX_NUM));
  }

  /** The chip start does not touch the semaphore. */
  lemma StartChipKeepsSem(d: Dev)
    ensures StartChip(d).sem == d.sem
  {
    ChipConfigResult(d);
  }

  lemma StartedOutcome(o: Outcome, d: Dev, r: Dev)
    requires o == Outcome(r, 0)
    requires Started(d, r)
    ensures o.err == 0 && Started(d, o.d)
  {
  }

  lemma StartFromStopped(d: Dev)
    requires d.state == Stopped
    ensures ModeStart(d, 0).err == 0 && Started(d, ModeStart(d, 0).d)
  {
    StartChipStarts(d);
    StartedOutcome(ModeStart(d, 0), d, StartChip(d).(sem := SemInit(TX_NUM)));
  }

  lemma StartedAfterSemInit(d: Dev, d1: Dev, r: Dev)
    requires d1 == d.(sem := SemInit(TX_NUM))
    requires Started(d1, r)
    ensures Started(d, r)
  {
    assert d1.(state := ErrorActive, txNext := RING_START, txEcho := RING_START, sem := SemInit(TX_NUM)) ==
           d.(state := ErrorActive, txNext := RING_START, txEcho := RING_START, sem := SemInit(TX_NUM));
  }

  lemma SemAlreadySet(r: Dev, r1: Dev, d1: Dev)
    requires r1 == r.(sem := SemInit(TX_NUM))
    requires r.sem == d1.sem && d1.sem == SemInit(TX_NUM)
    ensures r1 == r
  {
  }

  lemma BusOffStartsChip(d: Dev, irqErr: int)
    requires d.state == BusOff
    ensures ModeStart(d, irqErr) == Outcome(StartChip(d.(sem := SemInit(TX_NUM))), 0)
  {
  }

  lemma {:induction false} StartChipAfterSemInit(d: Dev, d1: Dev)
    requires d1 == d.(sem := SemInit(TX_NUM))
    ensures Started(d, StartChip(d1))
  {
    StartChipStarts(d1);
    StartChipKeepsSem(d1);
    SemAlreadySet(StartChip(d1), StartChip(d1).(sem := SemInit(TX_NUM)), d1);
    StartedAfterSemInit(d, d1, StartChip(d1));
  }

  lemma {:induction false} StartFromBusOff(d: Dev, irqErr: int)
    requires d.state == BusOff
    ensures ModeStart(d, irqErr).err == 0 && Started(d, ModeStart(d, irqErr).d)
  {
    var d1 := d.(sem := SemInit(TX_NUM));
    BusOffStartsChip(d, irqErr);
    StartChipAfterSemInit(d, d1);
    StartedOutcome(ModeStart(d, irqErr), d, StartChip(d1));
  }

  /**
   * From STOPPED with the interrupt line granted, and from BUS_OFF, the
   * controller is started and 0 is returned; from STOPPED with the request
   * refused nothing changes and its error is returned; in every other
   * state nothing changes and 0 is returned.
   */
  lemma {:induction false} ModeStartResult(d: Dev, irqErr: int)
    ensures (d.state == Stopped && irqErr == 0) || d.state == BusOff ==>
              ModeStart(d, irqErr).err == 0 && Started(d, ModeStart(d, irqErr).d)
    ensures d.state == Stopped && irqErr != 0 ==> ModeStart(d, irqErr) == Outcome(d, irqErr)
    ensures d.state != Stopped && d.state != BusOff ==> ModeStart(d, irqErr) == Outcome(d, 0)
  {
    if d.state == Stopped && irqErr == 0 {
      StartFromStopped(d);
    } else if d.state == BusOff {
      StartFromBusOff(d, irqErr);
    }
  }

  /** A successful start leaves the controller operating; one that fails leaves it where it was. */
  lemma {:induction false} ModeStartOperating(d: Dev, irqErr: int)
    ensures ModeStart(d, irqErr).err == 0 ==>
              (Operating(ModeStart(d, irqErr).d.state) <==>
               Operating(d.state) || d.state == Stopped || d.state == BusOff)
    ensures ModeStart(d, irqErr).err != 0 ==> ModeStart(d, irqErr).d == d
  {
    ModeStartResult(d, irqErr);
  }

  /**
   * Stopping an operating controller clears the three interrupt enables
   * (the other CTRL bits kept), sets STOPPED and destroys the semaphore,
   * keeping its count; nothing else changes. In any other state it does
   * nothing.
   */
  lemma ModeStopResult(d: Dev)
    ensures Operating(d.state) ==>
              ModeStop(d).regs.ctrl & CONTROL_IRQS == 0 &&
              ModeStop(d).regs.ctrl & !CONTROL_IRQS == d.regs.ctrl & !CONTROL_IRQS &&
              ModeStop(d).state == Stopped &&
              !ModeStop(d).sem.alive && ModeStop(d).sem.count == d.sem.count &&
              ModeStop(d) == d.(regs := d.regs.(ctrl := ModeStop(d).regs.ctrl), state := Stopped, sem := ModeStop(d).sem)
    ensures !Operating(d.state) ==> ModeStop(d) == d
  {
    EnableAllInterruptsBits(d, false);
  }

  /** A second stop does nothing. */
  lemma ModeStopIdempotent(d: Dev)
    ensures ModeStop(ModeStop(d)) == ModeStop(d)
  {
  }

  /** Stopping an operating controller and starting it again with the interrupt line granted restarts it. */
  lemma {:induction false} StopThenStart(d: Dev)
    requires Operating(d.state)
    ensures ModeStart(ModeStop(d), 0).err == 0
    ensures Started(ModeStop(d), ModeStart(ModeStop(d), 0).d)
    ensures ModeStart(ModeStop(d), 0).d.state == ErrorActive
  {
    ModeStopResult(d);
    ModeStartResult(ModeStop(d), 0);
  }

  /**
   * c_can_set_mode: STOP on an operating controller leaves it STOPPED with
   * the interrupt enables cleared and returns 0; START from STOPPED with the
   * interrupt line granted, or from BUS_OFF, leaves it started and returns
   * 0; SLEEP and every other mode change nothing and return -EOPNOTSUPP.
   */
  lemma {:induction false} SetModeResult(d: Dev, mode: int, irqErr: int)
    ensures mode == CAN_MODE_STOP ==>
              SetMode(d, mode, irqErr).err == 0 &&
              (Operating(d.state) ==> SetMode(d, mode, irqErr).d.state == Stopped &&
                                      SetMode(d, mode, irqErr).d.regs.ctrl & CONTROL_IRQS == 0) &&
              (!Operating(d.state) ==> SetMode(d, mode, irqErr).d == d)
    ensures mode == CAN_MODE_START && ((d.state == Stopped && irqErr == 0) || d.state == BusOff) ==>
              SetMode(d, mode, irqErr).err == 0 && Started(d, SetMode(d, mode, irqErr).d)
    ensures mode != CAN_MODE_STOP && mode != CAN_MODE_START ==> SetMode(d, mode, irqErr) == Outcome(d, -EOPNOTSUPP)
  {
    if mode == CAN_MODE_STOP {
      ModeStopResult(d);
    } else if mode == CAN_MODE_START {
      ModeStartResult(d, irqErr);
    }
  }
}
