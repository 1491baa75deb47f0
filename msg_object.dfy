/**
 * A message object of the controller's message RAM, the command-mask bits
 * that select what an interface transfer moves, the arbitration and message
 * control bits, and the controller's block transfer between one interface
 * register bank and one message object.
 */
module MsgObject {

  const NUM_OBJECTS: nat := 32

  /** A message object number. */
  type ObjNo = n: nat | 1 <= n <= 32 witness 1

  // IFx command mask.
  const IF_COMM_WR: bv16 := 0x80
  const IF_COMM_MASK: bv16 := 0x40
  const IF_COMM_ARB: bv16 := 0x20
  const IF_COMM_CONTROL: bv16 := 0x10
  const IF_COMM_CLR_INT_PND: bv16 := 0x08
  const IF_COMM_TXRQST: bv16 := 0x04
  const IF_COMM_DATAA: bv16 := 0x02
  const IF_COMM_DATAB: bv16 := 0x01
  const IF_COMM_ALL: bv16 := 0x77

  /** IF_COMM_ALL & ~IF_COMM_TXRQST, the mask of every read and of receive setup. */
  const IF_COMM_RX: bv16 := 0x73

  /** IFx command request: transfer still in progress. */
  const IF_COMR_BUSY: bv16 := 0x8000

  // IFx arbitration, second word.
  const IF_ARB_MSGVAL: bv16 := 0x8000
  const IF_ARB_MSGXTD: bv16 := 0x4000
  const IF_ARB_TRANSMIT: bv16 := 0x2000

  // IFx message control.
  const IF_MCONT_NEWDAT: bv16 := 0x8000
  const IF_MCONT_MSGLST: bv16 := 0x4000
  const IF_MCONT_CLR_MSGLST: bv16 := 0x0000
  const IF_MCONT_INTPND: bv16 := 0x2000
  const IF_MCONT_UMASK: bv16 := 0x1000
  const IF_MCONT_TXIE: bv16 := 0x0800
  const IF_MCONT_RXIE: bv16 := 0x0400
  const IF_MCONT_RMTEN: bv16 := 0x0200
  const IF_MCONT_TXRQST: bv16 := 0x0100
  const IF_MCONT_EOB: bv16 := 0x0080
  const IF_MCONT_DLC_MASK: bv16 := 0x000F

  /**
   * The nine 16-bit words of a message object, laid out as the interface
   * bank presents them: two mask words, two arbitration words, the message
   * control word and four data words.
   */
  datatype MsgObj = MsgObj(
    mask1: bv16, mask2: bv16,
    arb1: bv16, arb2: bv16,
    ctrl: bv16,
    data1: bv16, data2: bv16, data3: bv16, data4: bv16)

  /** The 32 message objects; object n is at index n - 1. */
  type Ram = s: seq<MsgObj> | |s| == 32 witness seq(32, _ => MsgObj(0, 0, 0, 0, 0, 0, 0, 0, 0))

  predicate Selects(cmd: bv16, bit: bv16) { cmd & bit != 0 }

  /**
   * Write direction (IF_COMM_WR set): each selected group of words moves
   * from the interface bank into the object; IF_COMM_TXRQST additionally
   * sets the object's transmit request.
   */
  function PutInto(bank: MsgObj, obj: MsgObj, cmd: bv16): MsgObj
  {
    var ctrl := if Selects(cmd, IF_COMM_CONTROL) then bank.ctrl else obj.ctrl;
    MsgObj(
      if Selects(cmd, IF_COMM_MASK) then bank.mask1 else obj.mask1,
      if Selects(cmd, IF_COMM_MASK) then bank.mask2 else obj.mask2,
      if Selects(cmd, IF_COMM_ARB) then bank.arb1 else obj.arb1,
      if Selects(cmd, IF_COMM_ARB) then bank.arb2 else obj.arb2,
      if Selects(cmd, IF_COMM_TXRQST) then ctrl | IF_MCONT_TXRQST else ctrl,
      if Selects(cmd, IF_COMM_DATAA) then bank.data1 else obj.data1,
      if Selects(cmd, IF_COMM_DATAA) then bank.data2 else obj.data2,
      if Selects(cmd, IF_COMM_DATAB) then bank.data3 else obj.data3,
      if Selects(cmd, IF_COMM_DATAB) then bank.data4 else obj.data4)
  }

  /**
   * Read direction, the words that reach the interface bank: each selected
   * group of words moves from the object into the bank.
   */
  function GetBank(bank: MsgObj, obj: MsgObj, cmd: bv16): (r: MsgObj)
  {
    MsgObj(
      if Selects(cmd, IF_COMM_MASK) then obj.mask1 else bank.mask1,
      if Selects(cmd, IF_COMM_MASK) then obj.mask2 else bank.mask2,
      if Selects(cmd, IF_COMM_ARB) then obj.arb1 else bank.arb1,
      if Selects(cmd, IF_COMM_ARB) then obj.arb2 else bank.arb2,
      if Selects(cmd, IF_COMM_CONTROL) then obj.ctrl else bank.ctrl,
      if Selects(cmd, IF_COMM_DATAA) then obj.data1 else bank.data1,
      if Selects(cmd, IF_COMM_DATAA) then obj.data2 else bank.data2,
      if Selects(cmd, IF_COMM_DATAB) then obj.data3 else bank.data3,
      if Selects(cmd, IF_COMM_DATAB) then obj.data4 else bank.data4)
  }

  /**
   * Read direction, what happens to the object itself: IF_COMM_TXRQST
   * clears its NEWDAT bit and IF_COMM_CLR_INT_PND its INTPND bit.
   */
  function GetObj(obj: MsgObj, cmd: bv16): (r: MsgObj)
    ensures !Selects(cmd, IF_COMM_TXRQST) && !Selects(cmd, IF_COMM_CLR_INT_PND) ==> r == obj
  {
    var c1 := if Selects(cmd, IF_COMM_TXRQST) then obj.ctrl & !IF_MCONT_NEWDAT else obj.ctrl;
    var c2 := if Selects(cmd, IF_COMM_CLR_INT_PND) then c1 & !IF_MCONT_INTPND else c1;
    obj.(ctrl := c2)
  }

  /** The object after c_can_inval_msg_object: arbitration and control cleared. */
  function Invalidated(m: MsgObj): MsgObj
  {
    m.(arb1 := 0, arb2 := 0, ctrl := 0)
  }

  /** An object is valid for the controller when MSGVAL is set. */
  predicate IsValid(m: MsgObj) { m.arb2 & IF_ARB_MSGVAL != 0 }

  /** 1 << n, built by doubling; past bit 31 the bit is shifted out. */
  function Pow2(n: nat): bv32
    decreases n
  {
    if n == 0 then 1 else Pow2(n - 1) << 1
  }

  /** 1 << (objno - 1): bit objno - 1 of a 32-bit mirror register (TXRQST, NEWDAT, INTPND, MSGVAL). */
  function ObjBit(objno: ObjNo): bv32 { Pow2(objno - 1) }

  /** The mirror bit of message object objno is set in val. */
  predicate Pending(val: bv32, objno: ObjNo) { val & ObjBit(objno) != 0 }

  /** IF_COMM_WR | IF_COMM_ALL: the whole bank is stored and transmission requested. */
  lemma PutAll(bank: MsgObj, obj: MsgObj)
    ensures PutInto(bank, obj, IF_COMM_WR | IF_COMM_ALL) == bank.(ctrl := bank.ctrl | IF_MCONT_TXRQST)
  {
  }

  /** IF_COMM_WR | IF_COMM_RX: the whole bank is stored, nothing else happens. */
  lemma PutRx(bank: MsgObj, obj: MsgObj)
    ensures PutInto(bank, obj, IF_COMM_WR | IF_COMM_RX) == bank
  {
  }

  /** IF_COMM_WR | IF_COMM_CONTROL: only the control word is stored. */
  lemma PutControl(bank: MsgObj, obj: MsgObj)
    ensures PutInto(bank, obj, IF_COMM_WR | IF_COMM_CONTROL) == obj.(ctrl := bank.ctrl)
  {
  }

  /** IF_COMM_WR | IF_COMM_ARB | IF_COMM_CONTROL: arbitration and control words are stored. */
  lemma PutArbControl(bank: MsgObj, obj: MsgObj)
    ensures PutInto(bank, obj, IF_COMM_WR | IF_COMM_ARB | IF_COMM_CONTROL) ==
            obj.(arb1 := bank.arb1, arb2 := bank.arb2, ctrl := bank.ctrl)
  {
  }

  /** A get with IF_COMM_RX copies the whole object into the bank. */
  lemma GetRxBank(bank: MsgObj, obj: MsgObj)
    ensures GetBank(bank, obj, IF_COMM_RX) == obj
  {
  }

  /** A get with IF_COMM_RX leaves the object as it was. */
  lemma GetRxObj(obj: MsgObj)
    ensures GetObj(obj, IF_COMM_RX) == obj
  {
  }

  /** Reading back a receive setup returns exactly the bank that was stored. */
  lemma {:induction false} PutRxThenGet(bank: MsgObj, obj: MsgObj, other: MsgObj)
    ensures GetBank(other, PutInto(bank, obj, IF_COMM_WR | IF_COMM_RX), IF_COMM_RX) == bank
  {
    PutRx(bank, obj);
    GetRxBank(other, bank);
  }
}
