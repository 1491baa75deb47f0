/**
 * Controller configuration: c_can_set_bittiming, c_can_configure_msg_objects
 * and c_can_chip_config, each a function from one snapshot to the next,
 * with the layout of the message RAM and the register values they leave.
 */
module Config {
  import opened MsgObject
  import opened Registers
  import opened BitTiming
  import opened Device
  import opened Objects

  /** LEC_UNUSED, the last-error code the driver writes to STS so that a fresh code shows up. */
  const LEC_UNUSED: bv16 := 0x7

  // TEST register bits.
  const TEST_LBACK: bv16 := 0x10
  const TEST_SILENT: bv16 := 0x08

  /** EIE | SIE | IE: the module, status and error interrupts. */
  const CONTROL_RUN: bv16 := 0x0E
  /** EIE | SIE | IE | TEST: the same with the test register enabled. */
  const CONTROL_RUN_TEST: bv16 := 0x8E

  /** The control word of receive objects 1..15: RXIE | UMASK, EOB clear. */
  const RX_MCONT: bv16 := 0x1400
  /** The control word of object 16, the end of the receive FIFO: EOB | RXIE | UMASK. */
  const RX_MCONT_LAST: bv16 := 0x1480

  /** c_can_set_bittiming: save CTRL, enter configuration with CCE | INIT, write BTR and BRPEXT, restore CTRL. */
  function SetBittiming(d: Dev): Dev
  {
    var save := ReadReg(d, CTRL);
    var d1 := WriteReg(d, CTRL, save | CONTROL_CCE | CONTROL_INIT);
    var d2 := WriteReg(d1, BTR, BtrReg(d.bitTime));
    var d3 := WriteReg(d2, BRPEXT, BrpeReg(d.bitTime));
    WriteReg(d3, CTRL, save)
  }

  /** CTRL ends as it was saved; BTR and BRPEXT hold the computed fields and nothing else changes. */
  lemma SetBittimingResult(d: Dev)
    ensures SetBittiming(d) == d.(regs := d.regs.(btr := BtrReg(d.bitTime), brpext := BrpeReg(d.bitTime)))
  {
  }

  /** Within the advertised ranges every timing parameter can be read back from the two registers. */
  lemma SetBittimingReadsBack(d: Dev)
    requires InRange(d.bitTime)
    ensures var r := SetBittiming(d).regs;
            var bt := d.bitTime;
            ((r.btr & 0x3F) as bv32) + ((r.brpext as bv32) << 6) + 1 == bt.brp &&
            ((r.btr >> 6) & 3) as bv8 + 1 == bt.sjw &&
            ((r.btr >> 8) & 0xF) as bv8 + 1 == bt.propSeg + bt.phaseSeg1 &&
            ((r.btr >> 12) & 7) as bv8 + 1 == bt.phaseSeg2 &&
            r.ctrl == d.regs.ctrl
  {
    SetBittimingResult(d);
    BrpReconstruct(d.bitTime);
    SjwReconstruct(d.bitTime);
    Tseg1Reconstruct(d.bitTime);
    Tseg2Reconstruct(d.bitTime);
  }

  /** The first loop of c_can_configure_msg_objects, from object i on: invalidate i..32. */
  function InvalAllFrom(d: Dev, i: nat): Dev
    requires 1 <= i <= NUM_OBJECTS + 1
    decreases NUM_OBJECTS + 1 - i
  {
    if i > NUM_OBJECTS then d else InvalAllFrom(InvalMsgObject(d, i), i + 1)
  }

  /** The second loop, from object i on: objects i..15 become receive objects without EOB. */
  function SetupRxFrom(d: Dev, i: nat): Dev
    requires 1 <= i <= 16
    decreases 16 - i
  {
    if i >= 16 then d else SetupRxFrom(SetupReceiveObject(d, i, 0, 0, RX_MCONT), i + 1)
  }

  /** c_can_configure_msg_objects. */
  function ConfigureMsgObjects(d: Dev): Dev
  {
    SetupReceiveObject(SetupRxFrom(InvalAllFrom(d, 1), 1), 16, 0, 0, RX_MCONT_LAST)
  }

  /** RAM r with objects lo..32 invalidated. */
  function InvalidatedAbove(r: Ram, lo: nat): Ram
  {
    seq(32, k requires 0 <= k < 32 => if lo <= k + 1 then Invalidated(r[k]) else r[k])
  }

  /** The receive object configuration stores, from bank b, with control word mcont. */
  function RxSetup(b: MsgObj, mcont: bv16): MsgObj
  {
    RxObject(b, 0, 0, mcont)
  }

  /** RAM r with objects lo..15 set up as receive objects from bank b. */
  function RxAbove(r: Ram, lo: nat, b: MsgObj): Ram
  {
    var s: seq<MsgObj> := seq(32, k requires 0 <= k < 32 => if lo <= k + 1 < 16 then RxSetup(b, RX_MCONT) else r[k]);
    s
  }

  /**
   * The layout configuration leaves, from the RAM r and the bank b it
   * starts from: objects 1..15 receive objects, object 16 the same with
   * EOB, objects 17..32 invalidated. The data words of the receive objects
   * are whatever bank 0 held, since the setup put copies them too.
   */
  function Configured(r: Ram, b: MsgObj): Ram
  {
    var s: seq<MsgObj> := seq(32, k requires 0 <= k < 32 =>
      if k < 15 then RxSetup(b, RX_MCONT)
      else if k == 15 then RxSetup(b, RX_MCONT_LAST)
      else Invalidated(r[k]));
    s
  }

  /** Invalidation leaves the cleared words in bank 0 too. */
  lemma InvalBank(d: Dev, o: ObjNo)
    ensures Bank(InvalMsgObject(d, o), 0) == Invalidated(Bank(d, 0))
  {
    var d1 := WriteIf(d, 0, IF_ARB1, 0);
    var d2 := WriteIf(d1, 0, IF_ARB2, 0);
    var d3 := WriteIf(d2, 0, IF_MSGCTRL, 0);
    ObjectPutStores(d3, 0, o, IF_COMM_ARB | IF_COMM_CONTROL);
  }

  lemma InvalRam(d: Dev, o: ObjNo)
    ensures InvalMsgObject(d, o).ram == d.ram[o - 1 := Invalidated(d.ram[o - 1])]
  {
    InvalMsgObjectClears(d, o);
  }

  lemma InvalFrame(d: Dev, o: ObjNo)
    ensures OnlyObjects(d, InvalMsgObject(d, o))
  {
    InvalMsgObjectClears(d, o);
  }

  lemma SetupRam(d: Dev, o: ObjNo, mcont: bv16)
    ensures SetupReceiveObject(d, o, 0, 0, mcont).ram == d.ram[o - 1 := RxSetup(Bank(d, 0), mcont)]
  {
    SetupReceiveObjectStores(d, o, 0, 0, mcont);
  }

  lemma SetupBank(d: Dev, o: ObjNo, mcont: bv16)
    ensures Bank(SetupReceiveObject(d, o, 0, 0, mcont), 0) == RxSetup(Bank(d, 0), mcont)
  {
    SetupReceiveObjectStores(d, o, 0, 0, mcont);
  }

  lemma SetupFrame(d: Dev, o: ObjNo, mcont: bv16)
    ensures OnlyObjects(d, SetupReceiveObject(d, o, 0, 0, mcont))
  {
    SetupReceiveObjectStores(d, o, 0, 0, mcont);
  }

  lemma InvalidatedAboveStep(a: Ram, b: Ram, r: Ram, r0: Ram, i: ObjNo)
    requires a == b
    requires b == InvalidatedAbove(r0, i + 1)
    requires r0 == r[i - 1 := Invalidated(r[i - 1])]
    ensures a == InvalidatedAbove(r, i)
  {
  }

  /** From object i on, the first loop invalidates exactly objects i..32. */
  lemma {:induction false} InvalAllFromRam(d: Dev, i: nat)
    requires 1 <= i <= NUM_OBJECTS + 1
    ensures InvalAllFrom(d, i).ram == InvalidatedAbove(d.ram, i)
    decreases NUM_OBJECTS + 1 - i
  {
    if i > NUM_OBJECTS {
      assert InvalidatedAbove(d.ram, i) == d.ram;
    } else {
      var d1 := InvalMsgObject(d, i);
      InvalRam(d, i);
      InvalAllFromRam(d1, i + 1);
      InvalidatedAboveStep(InvalAllFrom(d, i).ram, InvalAllFrom(d1, i + 1).ram, d.ram, d1.ram, i);
    }
  }

  /** Once it has invalidated an object, the first loop leaves bank 0 with the words invalidation clears. */
  lemma {:induction false} InvalAllFromBank(d: Dev, i: nat)
    requires 1 <= i <= NUM_OBJECTS
    ensures Bank(InvalAllFrom(d, i), 0) == Invalidated(Bank(d, 0))
    decreases NUM_OBJECTS + 1 - i
  {
    var d1 := InvalMsgObject(d, i);
    InvalBank(d, i);
    if i < NUM_OBJECTS {
      InvalAllFromBank(d1, i + 1);
    }
  }

  /** The first loop changes only the banks and the RAM. */
  lemma {:induction false} InvalAllFromFrame(d: Dev, i: nat)
    requires 1 <= i <= NUM_OBJECTS + 1
    ensures OnlyObjects(d, InvalAllFrom(d, i))
    decreases NUM_OBJECTS + 1 - i
  {
    if i <= NUM_OBJECTS {
      var d1 := InvalMsgObject(d, i);
      InvalFrame(d, i);
      InvalAllFromFrame(d1, i + 1);
      OnlyObjectsTrans(d, d1, InvalAllFrom(d1, i + 1));
    }
  }

  /** A receive setup overwrites every word but the data words, so the bank it starts from only lends its data. */
  lemma RxSetupOfRx(b: MsgObj, b1: MsgObj, mcont: bv16)
    requires b1 == RxSetup(b, RX_MCONT) || b1 == Invalidated(b)
    ensures RxSetup(b1, mcont) == RxSetup(b, mcont)
  {
  }

  lemma RxAboveStep(a: Ram, b: Ram, r: Ram, r0: Ram, i: ObjNo, bank: MsgObj)
    requires i < 16
    requires a == b
    requires b == RxAbove(r0, i + 1, bank)
    requires r0 == r[i - 1 := RxSetup(bank, RX_MCONT)]
    ensures a == RxAbove(r, i, bank)
  {
  }

  /** From object i on, the second loop sets up exactly objects i..15, all with the data words of the bank it starts with. */
  lemma {:induction false} SetupRxFromRam(d: Dev, i: nat)
    requires 1 <= i <= 16
    ensures SetupRxFrom(d, i).ram == RxAbove(d.ram, i, Bank(d, 0))
    decreases 16 - i
  {
    if i >= 16 {
      assert RxAbove(d.ram, i, Bank(d, 0)) == d.ram;
    } else {
      var d1 := SetupReceiveObject(d, i, 0, 0, RX_MCONT);
      SetupRam(d, i, RX_MCONT);
      SetupBank(d, i, RX_MCONT);
      SetupRxFromRam(d1, i + 1);
      RxSetupOfRx(Bank(d, 0), Bank(d1, 0), RX_MCONT);
      RxAboveStep(SetupRxFrom(d, i).ram, SetupRxFrom(d1, i + 1).ram, d.ram, d1.ram, i, Bank(d, 0));
    }
  }

  /** Once it has set up an object, the second loop leaves bank 0 holding a receive object. */
  lemma {:induction false} SetupRxFromBank(d: Dev, i: nat)
    requires 1 <= i < 16
    ensures Bank(SetupRxFrom(d, i), 0) == RxSetup(Bank(d, 0), RX_MCONT)
    decreases 16 - i
  {
    var d1 := SetupReceiveObject(d, i, 0, 0, RX_MCONT);
    SetupBank(d, i, RX_MCONT);
    if i < 15 {
      SetupRxFromBank(d1, i + 1);
      RxSetupOfRx(Bank(d, 0), Bank(d1, 0), RX_MCONT);
    }
  }

  /** The second loop changes only the banks and the RAM. */
  lemma {:induction false} SetupRxFromFrame(d: Dev, i: nat)
    requires 1 <= i <= 16
    ensures OnlyObjects(d, SetupRxFrom(d, i))
    decreases 16 - i
  {
    if i < 16 {
      var d1 := SetupReceiveObject(d, i, 0, 0, RX_MCONT);
      SetupFrame(d, i, RX_MCONT);
      SetupRxFromFrame(d1, i + 1);
      OnlyObjectsTrans(d, d1, SetupRxFrom(d1, i + 1));
    }
  }

  lemma ConfiguredCompose(a: Ram, r: Ram, r1: Ram, r2: Ram, b: MsgObj, b1: MsgObj)
    requires r1 == InvalidatedAbove(r, 1)
    requires r2 == RxAbove(r1, 1, b1)
    requires a == r2[15 := RxSetup(b1, RX_MCONT_LAST)]
    requires b1 == Invalidated(b)
    ensures a == Configured(r, b)
  {
    RxSetupOfRx(b, b1, RX_MCONT);
    RxSetupOfRx(b, b1, RX_MCONT_LAST);
    forall k | 0 <= k < 32
      ensures a[k] == Configured(r, b)[k]
    {
      if k < 15 {
      } else if k == 15 {
      } else {
        assert r2[k] == r1[k];
      }
    }
  }

  lemma StagesRam(r: Ram, b: MsgObj, r1: Ram, b1: MsgObj, r2: Ram, b2: MsgObj, r3: Ram)
    requires r1 == InvalidatedAbove(r, 1) && b1 == Invalidated(b)
    requires r2 == RxAbove(r1, 1, b1) && b2 == RxSetup(b1, RX_MCONT)
    requires r3 == r2[15 := RxSetup(b2, RX_MCONT_LAST)]
    ensures r3 == Configured(r, b)
  {
    RxSetupOfRx(b1, b2, RX_MCONT_LAST);
    ConfiguredCompose(r3, r, r1, r2, b, b1);
  }

  lemma ConfigureMsgObjectsStores(d: Dev)
    ensures ConfigureMsgObjects(d).ram == Configured(d.ram, Bank(d, 0))
    ensures OnlyObjects(d, ConfigureMsgObjects(d))
  {
    var d1 := InvalAllFrom(d, 1);
    var d2 := SetupRxFrom(d1, 1);
    var d3 := ConfigureMsgObjects(d);
    InvalAllFromRam(d, 1);
    InvalAllFromBank(d, 1);
    SetupRxFromRam(d1, 1);
    SetupRxFromBank(d1, 1);
    SetupRam(d2, 16, RX_MCONT_LAST);
    StagesRam(d.ram, Bank(d, 0), d1.ram, Bank(d1, 0), d2.ram, Bank(d2, 0), d3.ram);
    InvalAllFromFrame(d, 1);
    SetupRxFromFrame(d1, 1);
    SetupFrame(d2, 16, RX_MCONT_LAST);
    OnlyObjectsTrans(d, d1, d2);
    OnlyObjectsTrans(d, d2, d3);
  }

  /** The words a receive setup with identifier and mask 0 stores. */
  lemma RxSetupWords(b: MsgObj, mcont: bv16)
    ensures RxSetup(b, mcont).mask1 == 0 && RxSetup(b, mcont).mask2 == 0x2000
    ensures RxSetup(b, mcont).arb1 == 0 && RxSetup(b, mcont).arb2 == IF_ARB_MSGVAL
    ensures RxSetup(b, mcont).ctrl == mcont
  {
  }

  /**
   * The receive objects in the controller's terms: valid, receiving (no
   * TRANSMIT), RXIE and UMASK set, accepting every identifier (mask and
   * identifier 0), and EOB set on object 16 alone.
   */
  lemma ConfiguredReceive(r: Ram, b: MsgObj, k: nat)
    requires k < 16
    ensures IsValid(Configured(r, b)[k])
    ensures Configured(r, b)[k].arb2 & IF_ARB_TRANSMIT == 0
    ensures Configured(r, b)[k].ctrl & IF_MCONT_RXIE != 0 && Configured(r, b)[k].ctrl & IF_MCONT_UMASK != 0
    ensures Configured(r, b)[k].ctrl & IF_MCONT_EOB != 0 <==> k == 15
    ensures Configured(r, b)[k].arb1 == 0 && Configured(r, b)[k].mask1 == 0
  {
    if k < 15 {
      RxSetupWords(b, RX_MCONT);
    } else {
      RxSetupWords(b, RX_MCONT_LAST);
    }
  }

  /** The transmit objects 17..32 are left invalid, with no transmission requested. */
  lemma ConfiguredTransmit(r: Ram, b: MsgObj, k: nat)
    requires 16 <= k < 32
    ensures !IsValid(Configured(r, b)[k])
    ensures Configured(r, b)[k].ctrl & IF_MCONT_TXRQST == 0
    ensures Configured(r, b)[k].ctrl & IF_MCONT_TXIE == 0
  {
  }

  /** The mode part of c_can_chip_config: CTRL to ENABLE_AR, then CTRL and TEST for the mode in ctrl_mode. */
  function ModeSetup(d: Dev): Dev
  {
    var lo := d.ctrlMode & CAN_CTRLMODE_LISTENONLY != 0;
    var lb := d.ctrlMode & CAN_CTRLMODE_LOOPBACK != 0;
    var d1 := WriteReg(d, CTRL, CONTROL_ENABLE_AR);
    if lo && lb then
      WriteReg(WriteReg(d1, CTRL, CONTROL_EIE | CONTROL_SIE | CONTROL_IE | CONTROL_TEST), TEST, TEST_LBACK | TEST_SILENT)
    else if lb then
      WriteReg(WriteReg(d1, CTRL, CONTROL_EIE | CONTROL_SIE | CONTROL_IE | CONTROL_TEST), TEST, TEST_LBACK)
    else if lo then
      WriteReg(WriteReg(d1, CTRL, CONTROL_EIE | CONTROL_SIE | CONTROL_IE | CONTROL_TEST), TEST, TEST_SILENT)
    else
      WriteReg(d1, CTRL, CONTROL_EIE | CONTROL_SIE | CONTROL_IE)
  }

  /**
   * The controller runs in the mode ctrl_mode asks for: out of
   * initialisation and configuration, with all three interrupt sources
   * enabled, the test register enabled iff listen-only or loopback is asked
   * for, and then TEST selecting loopback iff loopback and silent operation
   * iff listen-only; in normal mode TEST is left as it was.
   */
  predicate RunsInMode(ctrl: bv16, test: bv16, oldTest: bv16, ctrlMode: bv32)
  {
    var lo := ctrlMode & CAN_CTRLMODE_LISTENONLY != 0;
    var lb := ctrlMode & CAN_CTRLMODE_LOOPBACK != 0;
    ctrl & (CONTROL_INIT | CONTROL_CCE) == 0 &&
    ctrl & CONTROL_IRQS == CONTROL_IRQS &&
    (ctrl & CONTROL_TEST != 0 <==> lo || lb) &&
    (if lo || lb then
       (test & TEST_LBACK != 0 <==> lb) && (test & TEST_SILENT != 0 <==> lo)
     else test == oldTest)
  }

  /** The mode setup writes only CTRL and TEST, with the values the mode asks for. */
  lemma ModeSetupRuns(d: Dev)
    ensures RunsInMode(ModeSetup(d).regs.ctrl, ModeSetup(d).regs.test, d.regs.test, d.ctrlMode)
    ensures ModeSetup(d) == d.(regs := d.regs.(ctrl := ModeSetup(d).regs.ctrl, test := ModeSetup(d).regs.test))
  {
  }

  /** c_can_chip_config: the mode, the message objects, LEC_UNUSED into STS, the bit timing. */
  function ChipConfig(d: Dev): Dev
  {
    var d1 := ModeSetup(d);
    var d2 := ConfigureMsgObjects(d1);
    var d3 := WriteReg(d2, STS, LEC_UNUSED);
    SetBittiming(d3)
  }

  /** The registers and RAM chip configuration leaves, relative to the snapshot d it starts from. */
  predicate ChipConfigured(d: Dev, c: Dev)
  {
    RunsInMode(c.regs.ctrl, c.regs.test, d.regs.test, d.ctrlMode) &&
    c.regs.sts == LEC_UNUSED &&
    c.regs.btr == BtrReg(d.bitTime) && c.regs.brpext == BrpeReg(d.bitTime) &&
    c.ram == Configured(d.ram, Bank(d, 0)) &&
    c == d.(regs := d.regs.(ctrl := c.regs.ctrl, test := c.regs.test, sts := c.regs.sts,
                            btr := c.regs.btr, brpext := c.regs.brpext,
                            if1 := c.regs.if1, if2 := c.regs.if2),
            ram := c.ram)
  }

  lemma ChipConfigSteps(d: Dev, d1: Dev, d2: Dev, d3: Dev, d4: Dev)
    requires RunsInMode(d1.regs.ctrl, d1.regs.test, d.regs.test, d.ctrlMode)
    requires d1 == d.(regs := d.regs.(ctrl := d1.regs.ctrl, test := d1.regs.test))
    requires OnlyObjects(d1, d2) && d2.ram == Configured(d1.ram, Bank(d1, 0))
    requires d3 == WriteReg(d2, STS, LEC_UNUSED)
    requires d4 == d3.(regs := d3.regs.(btr := BtrReg(d3.bitTime), brpext := BrpeReg(d3.bitTime)))
    ensures ChipConfigured(d, d4)
  {
  }

  /**
   * c_can_chip_config leaves the controller running in the requested mode,
   * STS at LEC_UNUSED, the bit timing registers programmed, the message RAM
   * in the configured layout, and changes nothing else but the interface
   * banks.
   */
  lemma ChipConfigResult(d: Dev)
    ensures ChipConfigured(d, ChipConfig(d))
  {
    var d1 := ModeSetup(d);
    ModeSetupRuns(d);
    ConfigureMsgObjectsStores(d1);
    var d3 := WriteReg(ConfigureMsgObjects(d1), STS, LEC_UNUSED);
    SetBittimingResult(d3);
    ChipConfigSteps(d, d1, ConfigureMsgObjects(d1), d3, ChipConfig(d));
  }
}
