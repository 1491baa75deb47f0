/**
 * The message-object operations built on interface transactions: writing a
 * frame into a transmit object, reading a received frame out of interface
 * bank 0, setting up a receive object and invalidating an object. Every
 * caller in the driver passes interface 0, so these operations use that
 * bank.
 */
module Objects {
  import opened CanFrame
  import opened Registers
  import opened MsgObject
  import opened Codec
  import opened Device

  /** IFX_WRITE_LOW_16BIT. */
  function Low16(x: bv32): bv16 { (x & 0xFFFF) as bv16 }

  /** IFX_WRITE_HIGH_16BIT. */
  function High16(x: bv32): bv16 { ((x & 0xFFFF_0000) >> 16) as bv16 }

  /** Whether the data loops, run from byte index i, transfer data word k of a frame of length dlc. */
  predicate PairFrom(dlc: bv8, i: nat, k: nat)
  {
    i <= 2 * k && 2 * k < dlc as nat
  }

  /** A bank after the data-word loop has run from byte index i. */
  function DataAfter(b: MsgObj, f: Frame, i: nat): MsgObj
  {
    b.(data1 := if PairFrom(f.dlc, i, 0) then DataWord(f, 0) else b.data1,
       data2 := if PairFrom(f.dlc, i, 1) then DataWord(f, 1) else b.data2,
       data3 := if PairFrom(f.dlc, i, 2) then DataWord(f, 2) else b.data3,
       data4 := if PairFrom(f.dlc, i, 3) then DataWord(f, 3) else b.data4)
  }

  /** The data-word loop of c_can_write_msg_object, from byte index i on. */
  function WriteDataFrom(d: Dev, f: Frame, i: nat): Dev
    requires f.dlc <= CAN_MAX_DLC && i % 2 == 0 && i <= 8
    decreases 8 - i
  {
    if i >= f.dlc as nat then d
    else WriteDataFrom(WriteIf(d, 0, IF_DATA1 + i / 2, PackWord(f.data[i], f.data[i + 1])), f, i + 2)
  }

  /** The bank of interface 0 replaced by b. */
  function WithBank0(d: Dev, b: MsgObj): Dev
  {
    d.(regs := d.regs.(if1 := d.regs.if1.(bank := b)))
  }

  /**
   * The loop writes data word k exactly when a byte pair starting at 2k is
   * below dlc and not before i, and touches nothing else.
   */
  lemma {:induction false} WriteDataFromStores(d: Dev, f: Frame, i: nat)
    requires f.dlc <= CAN_MAX_DLC && i % 2 == 0 && i <= 8
    ensures WriteDataFrom(d, f, i) == WithBank0(d, DataAfter(Bank(d, 0), f, i))
    decreases 8 - i
  {
    if i < f.dlc as nat {
      var d1 := WriteIf(d, 0, IF_DATA1 + i / 2, PackWord(f.data[i], f.data[i + 1]));
      WriteDataFromStores(d1, f, i + 2);
      WriteDataStep(d, f, i);
    }
  }

  lemma {:induction false} WriteDataStep(d: Dev, f: Frame, i: nat)
    requires f.dlc <= CAN_MAX_DLC && i % 2 == 0 && i < f.dlc as nat
    ensures var d1 := WriteIf(d, 0, IF_DATA1 + i / 2, PackWord(f.data[i], f.data[i + 1]));
            WithBank0(d1, DataAfter(Bank(d1, 0), f, i + 2)) == WithBank0(d, DataAfter(Bank(d, 0), f, i))
  {
    var w := PackWord(f.data[i], f.data[i + 1]);
    WriteDataWord(d, i / 2, w);
    SetWordStep(Bank(d, 0), f, i);
  }

  /** Data word k of a bank replaced by w. */
  function SetWord(b: MsgObj, k: nat, w: bv16): MsgObj
    requires k < 4
  {
    match k
    case 0 => b.(data1 := w) case 1 => b.(data2 := w)
    case 2 => b.(data3 := w) case _ => b.(data4 := w)
  }

  /** A write to DATA1 + k of bank 0 replaces data word k of the bank. */
  lemma WriteDataWord(d: Dev, k: nat, w: bv16)
    requires k < 4
    ensures WriteIf(d, 0, IF_DATA1 + k, w) == WithBank0(d, SetWord(Bank(d, 0), k, w))
  {
    if k == 0 {
    } else if k == 1 {
    } else if k == 2 {
    } else {
    }
  }

  lemma SetWordStep(b: MsgObj, f: Frame, i: nat)
    requires f.dlc <= CAN_MAX_DLC && i % 2 == 0 && i < f.dlc as nat
    ensures DataAfter(SetWord(b, i / 2, PackWord(f.data[i], f.data[i + 1])), f, i + 2) == DataAfter(b, f, i)
  {
    if i == 0 { SetWordStep0(b, f); }
    else if i == 2 { SetWordStep2(b, f); }
    else if i == 4 { SetWordStep4(b, f); }
    else { SetWordStep6(b, f); }
  }
  lemma SetWordStep0(b: MsgObj, f: Frame)
    requires f.dlc <= CAN_MAX_DLC && 0 < f.dlc
    ensures DataAfter(b.(data1 := DataWord(f, 0)), f, 2) == DataAfter(b, f, 0)
  { }
  lemma SetWordStep2(b: MsgObj, f: Frame)
    requires f.dlc <= CAN_MAX_DLC && 2 < f.dlc
    ensures DataAfter(b.(data2 := DataWord(f, 1)), f, 4) == DataAfter(b, f, 2)
  { }
  lemma SetWordStep4(b: MsgObj, f: Frame)
    requires f.dlc <= CAN_MAX_DLC && 4 < f.dlc
    ensures DataAfter(b.(data3 := DataWord(f, 2)), f, 6) == DataAfter(b, f, 4)
  { }
  lemma SetWordStep6(b: MsgObj, f: Frame)
    requires f.dlc <= CAN_MAX_DLC && 6 < f.dlc
    ensures DataAfter(b.(data4 := DataWord(f, 3)), f, 8) == DataAfter(b, f, 6)
  { }

  /** The interface bank c_can_write_msg_object leaves for frame f over the bank b. */
  function TxBank(b: MsgObj, f: Frame): MsgObj
    requires f.dlc <= CAN_MAX_DLC
  {
    DataAfter(b, f, 0).(arb1 := Arb1(f.canId), arb2 := Arb2(f.canId), ctrl := TxCtrl(f.dlc))
  }

  /** c_can_write_msg_object on interface 0. */
  function WriteMsgObject(d: Dev, f: Frame, objno: ObjNo): Dev
    requires f.dlc <= CAN_MAX_DLC
  {
    ObjectPut(FillTxBank(d, f), 0, objno, IF_COMM_ALL)
  }

  /** The transmit control word already requests transmission. */
  lemma TxCtrlRequests(dlc: bv8)
    ensures TxCtrl(dlc) | IF_MCONT_TXRQST == TxCtrl(dlc)
  {
  }

  /** The register writes before the put: bank 0 filled for f, and nothing but bank 0 changed. */
  function FillTxBank(d: Dev, f: Frame): Dev
    requires f.dlc <= CAN_MAX_DLC
  {
    var d1 := WriteIf(d, 0, IF_ARB1, Arb1(f.canId));
    var d2 := WriteIf(d1, 0, IF_ARB2, Arb2(f.canId));
    var d3 := WriteDataFrom(d2, f, 0);
    WriteIf(d3, 0, IF_MSGCTRL, TxCtrl(f.dlc))
  }

  lemma {:induction false} FillTxBankStores(d: Dev, f: Frame)
    requires f.dlc <= CAN_MAX_DLC
    ensures FillTxBank(d, f) == WithBank0(d, TxBank(Bank(d, 0), f))
  {
    var d1 := WriteIf(d, 0, IF_ARB1, Arb1(f.canId));
    var d2 := WriteIf(d1, 0, IF_ARB2, Arb2(f.canId));
    WriteDataFromStores(d2, f, 0);
  }

  /**
   * Writing a frame stores the filled bank, transmission requested, into
   * the object, and changes nothing but that object and bank 0.
   */
  lemma {:induction false} WriteMsgObjectStores(d: Dev, f: Frame, objno: ObjNo)
    requires f.dlc <= CAN_MAX_DLC
    ensures WriteMsgObject(d, f, objno).ram == d.ram[objno - 1 := TxBank(Bank(d, 0), f)]
    ensures Bank(WriteMsgObject(d, f, objno), 0) == TxBank(Bank(d, 0), f)
    ensures OnlyObjects(d, WriteMsgObject(d, f, objno))
  {
    var d4 := FillTxBank(d, f);
    FillTxBankStores(d, f);
    ObjectPutStores(d4, 0, objno, IF_COMM_ALL);
    PutAll(Bank(d4, 0), d4.ram[objno - 1]);
    TxCtrlRequests(f.dlc);
  }

  /** The read loop of c_can_read_msg_object, from byte index i on, over bank 0. */
  function ReadDataFrom(d: Dev, dlc: bv8, i: nat, p: Payload): Payload
    requires dlc <= CAN_MAX_DLC && i % 2 == 0 && i <= 8
    decreases 8 - i
  {
    if i >= dlc as nat then p
    else
      var w := ReadIf(d, 0, IF_DATA1 + i / 2);
      ReadDataFrom(d, dlc, i + 2, p[i := WordLow(w)][i + 1 := WordHigh(w)])
  }

  /** The four data words of a bank. */
  function Words(b: MsgObj): (w: seq<bv16>)
    ensures |w| == 4
  {
    [b.data1, b.data2, b.data3, b.data4]
  }

  /** The payload after the read loop has run from byte index i: word pairs from the bank, the rest from p. */
  function FilledFrom(w: seq<bv16>, dlc: bv8, i: nat, p: Payload): Payload
    requires |w| == 4
  {
    var r0 := PairFrom(dlc, i, 0);
    var r1 := PairFrom(dlc, i, 1);
    var r2 := PairFrom(dlc, i, 2);
    var r3 := PairFrom(dlc, i, 3);
    [if r0 then WordLow(w[0]) else p[0], if r0 then WordHigh(w[0]) else p[1],
     if r1 then WordLow(w[1]) else p[2], if r1 then WordHigh(w[1]) else p[3],
     if r2 then WordLow(w[2]) else p[4], if r2 then WordHigh(w[2]) else p[5],
     if r3 then WordLow(w[3]) else p[6], if r3 then WordHigh(w[3]) else p[7]]
  }

  /** The read loop fills from byte index i on exactly what FilledFrom describes. */
  lemma {:induction false} ReadDataFromFills(d: Dev, dlc: bv8, i: nat, p: Payload)
    requires dlc <= CAN_MAX_DLC && i % 2 == 0 && i <= 8
    ensures ReadDataFrom(d, dlc, i, p) == FilledFrom(Words(Bank(d, 0)), dlc, i, p)
    decreases 8 - i
  {
    var w := Words(Bank(d, 0));
    if i < dlc as nat {
      ReadDataWord(d, i);
      var p1 := p[i := WordLow(w[i / 2])][i + 1 := WordHigh(w[i / 2])];
      ReadDataFromFills(d, dlc, i + 2, p1);
      ReadStep(w, dlc, i, p);
    } else {
      FilledNone(w, dlc, i, p);
    }
  }

  /** Past dlc the loop has nothing left to fill. */
  lemma FilledNone(w: seq<bv16>, dlc: bv8, i: nat, p: Payload)
    requires |w| == 4 && dlc <= CAN_MAX_DLC && i >= dlc as nat
    ensures FilledFrom(w, dlc, i, p) == p
  {
    assert !PairFrom(dlc, i, 0) && !PairFrom(dlc, i, 1) && !PairFrom(dlc, i, 2) && !PairFrom(dlc, i, 3);
  }

  /** One turn of the read loop moves the closed form on by one byte pair. */
  lemma ReadStep(w: seq<bv16>, dlc: bv8, i: nat, p: Payload)
    requires |w| == 4 && dlc <= CAN_MAX_DLC && i % 2 == 0 && i < dlc as nat
    ensures FilledFrom(w, dlc, i + 2, p[i := WordLow(w[i / 2])][i + 1 := WordHigh(w[i / 2])]) == FilledFrom(w, dlc, i, p)
  {
    if i == 0 { ReadStep0(w, dlc, p); }
    else if i == 2 { ReadStep2(w, dlc, p); }
    else if i == 4 { ReadStep4(w, dlc, p); }
    else { ReadStep6(w, dlc, p); }
  }

  lemma ReadStep0(w: seq<bv16>, dlc: bv8, p: Payload)
    requires |w| == 4 && dlc <= CAN_MAX_DLC && 0 < dlc
    ensures FilledFrom(w, dlc, 2, p[0 := WordLow(w[0])][1 := WordHigh(w[0])]) == FilledFrom(w, dlc, 0, p)
  { }

  lemma ReadStep2(w: seq<bv16>, dlc: bv8, p: Payload)
    requires |w| == 4 && dlc <= CAN_MAX_DLC && 2 < dlc
    ensures FilledFrom(w, dlc, 4, p[2 := WordLow(w[1])][3 := WordHigh(w[1])]) == FilledFrom(w, dlc, 2, p)
  { }

  lemma ReadStep4(w: seq<bv16>, dlc: bv8, p: Payload)
    requires |w| == 4 && dlc <= CAN_MAX_DLC && 4 < dlc
    ensures FilledFrom(w, dlc, 6, p[4 := WordLow(w[2])][5 := WordHigh(w[2])]) == FilledFrom(w, dlc, 4, p)
  { }

  lemma ReadStep6(w: seq<bv16>, dlc: bv8, p: Payload)
    requires |w| == 4 && dlc <= CAN_MAX_DLC && 6 < dlc
    ensures FilledFrom(w, dlc, 8, p[6 := WordLow(w[3])][7 := WordHigh(w[3])]) == FilledFrom(w, dlc, 6, p)
  { }

  /** A loop run from byte 0 leaves the codec's decoding of the data words. */
  lemma FilledDecodes(w: seq<bv16>, dlc: bv8, p: Payload)
    requires |w| == 4 && dlc <= CAN_MAX_DLC
    ensures FilledFrom(w, dlc, 0, p) == DecodeData(w, dlc, p)
  {
    var n := WordCount(dlc);
    assert PairFrom(dlc, 0, 0) == (0 < n) && PairFrom(dlc, 0, 1) == (1 < n);
    assert PairFrom(dlc, 0, 2) == (2 < n) && PairFrom(dlc, 0, 3) == (3 < n);
  }

  lemma ReadDataWord(d: Dev, i: nat)
    requires i % 2 == 0 && i < 8
    ensures ReadIf(d, 0, IF_DATA1 + i / 2) == Words(Bank(d, 0))[i / 2]
  {
    if i == 0 {
    } else if i == 2 {
    } else if i == 4 {
    } else {
    }
  }

  /** c_can_read_msg_object on interface 0: the frame left in the buffer `buf`. */
  function ReadMsgObject(d: Dev, ctrl: bv16, buf: Frame): Frame
  {
    var dlc := RxDlc(ctrl);
    var flags := ReadIf(d, 0, IF_ARB2);
    var id := DecodeId(ReadIf(d, 0, IF_ARB1), flags);
    Frame(id, dlc, if flags & IF_ARB_TRANSMIT != 0 then buf.data else ReadDataFrom(d, dlc, 0, buf.data))
  }

  /** The read loop computes exactly the codec's decoding of bank 0. */
  lemma {:induction false} ReadMsgObjectDecodes(d: Dev, ctrl: bv16, buf: Frame)
    ensures ReadMsgObject(d, ctrl, buf) ==
            DecodeFrame(Bank(d, 0).arb1, Bank(d, 0).arb2, ctrl, Words(Bank(d, 0)), buf)
  {
    var dlc := RxDlc(ctrl);
    ReadDataFromFills(d, dlc, 0, buf.data);
    FilledDecodes(Words(Bank(d, 0)), dlc, buf.data);
  }

  /** c_can_setup_receive_object on interface 0. */
  function SetupReceiveObject(d: Dev, objno: ObjNo, mask: bv32, id: bv32, mcont: bv16): Dev
  {
    var d1 := WriteIf(d, 0, IF_MASK1, Low16(mask));
    var d2 := WriteIf(d1, 0, IF_MASK2, High16(mask) | 0x2000);
    var d3 := WriteIf(d2, 0, IF_ARB1, Low16(id));
    var d4 := WriteIf(d3, 0, IF_ARB2, IF_ARB_MSGVAL | High16(id));
    var d5 := WriteIf(d4, 0, IF_MSGCTRL, mcont);
    ObjectPut(d5, 0, objno, IF_COMM_RX)
  }

  /**
   * The receive object c_can_setup_receive_object stores: mask words with
   * the reserved MASK2 bit 13 set, the identifier with MSGVAL, the given
   * control word, and the bank's current data words.
   */
  function RxObject(b: MsgObj, mask: bv32, id: bv32, mcont: bv16): MsgObj
  {
    b.(mask1 := Low16(mask), mask2 := High16(mask) | 0x2000,
       arb1 := Low16(id), arb2 := IF_ARB_MSGVAL | High16(id), ctrl := mcont)
  }

  /** What a receive setup stores, and that it touches nothing but that object and bank 0. */
  lemma {:induction false} SetupReceiveObjectStores(d: Dev, objno: ObjNo, mask: bv32, id: bv32, mcont: bv16)
    ensures SetupReceiveObject(d, objno, mask, id, mcont).ram ==
            d.ram[objno - 1 := RxObject(Bank(d, 0), mask, id, mcont)]
    ensures Bank(SetupReceiveObject(d, objno, mask, id, mcont), 0) == RxObject(Bank(d, 0), mask, id, mcont)
    ensures OnlyObjects(d, SetupReceiveObject(d, objno, mask, id, mcont))
  {
    var d1 := WriteIf(d, 0, IF_MASK1, Low16(mask));
    var d2 := WriteIf(d1, 0, IF_MASK2, High16(mask) | 0x2000);
    var d3 := WriteIf(d2, 0, IF_ARB1, Low16(id));
    var d4 := WriteIf(d3, 0, IF_ARB2, IF_ARB_MSGVAL | High16(id));
    var d5 := WriteIf(d4, 0, IF_MSGCTRL, mcont);
    assert Bank(d5, 0) == RxObject(Bank(d, 0), mask, id, mcont);
    ObjectPutStores(d5, 0, objno, IF_COMM_RX);
    PutRx(Bank(d5, 0), d5.ram[objno - 1]);
  }

  /** A receive object is valid, with MASK2 bit 13 set, whatever mask and identifier it is given. */
  lemma RxObjectValid(b: MsgObj, mask: bv32, id: bv32, mcont: bv16)
    ensures IsValid(RxObject(b, mask, id, mcont))
    ensures RxObject(b, mask, id, mcont).mask2 & 0x2000 != 0
  {
  }

  /** c_can_inval_msg_object on interface 0. */
  function InvalMsgObject(d: Dev, objno: ObjNo): Dev
  {
    var d1 := WriteIf(d, 0, IF_ARB1, 0);
    var d2 := WriteIf(d1, 0, IF_ARB2, 0);
    var d3 := WriteIf(d2, 0, IF_MSGCTRL, 0);
    ObjectPut(d3, 0, objno, IF_COMM_ARB | IF_COMM_CONTROL)
  }

  /**
   * Invalidation clears the arbitration and control words of exactly that
   * object and keeps its mask and data words.
   */
  lemma {:induction false} InvalMsgObjectClears(d: Dev, objno: ObjNo)
    ensures InvalMsgObject(d, objno).ram == d.ram[objno - 1 := Invalidated(d.ram[objno - 1])]
    ensures !IsValid(InvalMsgObject(d, objno).ram[objno - 1])
    ensures OnlyObjects(d, InvalMsgObject(d, objno))
  {
    var d1 := WriteIf(d, 0, IF_ARB1, 0);
    var d2 := WriteIf(d1, 0, IF_ARB2, 0);
    var d3 := WriteIf(d2, 0, IF_MSGCTRL, 0);
    ObjectPutStores(d3, 0, objno, IF_COMM_ARB | IF_COMM_CONTROL);
    PutArbControl(Bank(d3, 0), d3.ram[objno - 1]);
  }
}
