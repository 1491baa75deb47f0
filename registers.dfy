/**
 * The register access layer: the logical register enumeration shared by the
 * two controller variants, the byte offsets of each variant's register map,
 * the two bus alignment strategies, interface-bank addressing and the 32-bit
 * composite read of two consecutive 16-bit registers.
 */
module Registers {
  import opened MsgObject

  const NUM_REGS: nat := 38

  /** A value of the `enum reg` enumeration. */
  type RegIndex = i: nat | i < 38

  const CTRL: RegIndex := 0
  const CTRL_EX: RegIndex := 1
  const STS: RegIndex := 2
  const ERR_CNT: RegIndex := 3
  const BTR: RegIndex := 4
  const INT: RegIndex := 5
  const TEST: RegIndex := 6
  const BRPEXT: RegIndex := 7
  const IF1_COMREQ: RegIndex := 8
  const IF1_COMMSK: RegIndex := 9
  const IF1_MASK1: RegIndex := 10
  const IF1_MASK2: RegIndex := 11
  const IF1_ARB1: RegIndex := 12
  const IF1_ARB2: RegIndex := 13
  const IF1_MSGCTRL: RegIndex := 14
  const IF1_DATA1: RegIndex := 15
  const IF1_DATA2: RegIndex := 16
  const IF1_DATA3: RegIndex := 17
  const IF1_DATA4: RegIndex := 18
  const IF2_COMREQ: RegIndex := 19
  const IF2_DATA4: RegIndex := 29
  const TXRQST1: RegIndex := 30
  const TXRQST2: RegIndex := 31
  const NEWDAT1: RegIndex := 32
  const NEWDAT2: RegIndex := 33
  const INTPND1: RegIndex := 34
  const INTPND2: RegIndex := 35
  const MSGVAL1: RegIndex := 36
  const MSGVAL2: RegIndex := 37

  /** Number of enumeration slots one interface bank occupies. */
  const IF_ENUM_REG_LEN: nat := 11

  /** One of the two interface register banks (IF1 is 0, IF2 is 1). */
  type Iface = i: nat | i < 2

  /** An IF1 register of the enumeration. */
  predicate IsIf1Reg(r: RegIndex) { IF1_COMREQ <= r <= IF1_DATA4 }

  /** C_CAN_IFACE: the register `r` of IF1 moved to interface bank `iface`. */
  function IfaceReg(r: RegIndex, iface: Iface): (i: RegIndex)
    requires IsIf1Reg(r)
    ensures IF1_COMREQ <= i <= IF2_DATA4
    ensures iface == 0 ==> i == r
    ensures iface == 1 ==> i == r + IF_ENUM_REG_LEN
  {
    r + IF_ENUM_REG_LEN * iface
  }

  /** The two register layouts the driver supports. */
  datatype Variant = CCan | DCan

  /** The two ways 16-bit registers can sit on the bus. */
  datatype Alignment = Aligned16 | Aligned32

  /** reg_map_c_can; CTRL_EX has no entry and so holds 0. */
  function CCanOffset(r: RegIndex): nat
  {
    match r
    case 0 => 0x00 case 1 => 0x00 case 2 => 0x02 case 3 => 0x04
    case 4 => 0x06 case 5 => 0x08 case 6 => 0x0A case 7 => 0x0C
    case 8 => 0x10 case 9 => 0x12 case 10 => 0x14 case 11 => 0x16
    case 12 => 0x18 case 13 => 0x1A case 14 => 0x1C case 15 => 0x1E
    case 16 => 0x20 case 17 => 0x22 case 18 => 0x24
    case 19 => 0x40 case 20 => 0x42 case 21 => 0x44 case 22 => 0x46
    case 23 => 0x48 case 24 => 0x4A case 25 => 0x4C case 26 => 0x4E
    case 27 => 0x50 case 28 => 0x52 case 29 => 0x54
    case 30 => 0x80 case 31 => 0x82 case 32 => 0x90 case 33 => 0x92
    case 34 => 0xA0 case 35 => 0xA2 case 36 => 0xB0 case 37 => 0xB2
  }

  /** reg_map_d_can. */
  function DCanOffset(r: RegIndex): nat
  {
    match r
    case 0 => 0x00 case 1 => 0x02 case 2 => 0x04 case 3 => 0x08
    case 4 => 0x0C case 5 => 0x10 case 6 => 0x14 case 7 => 0x0E
    case 8 => 0x100 case 9 => 0x102 case 10 => 0x104 case 11 => 0x106
    case 12 => 0x108 case 13 => 0x10A case 14 => 0x10C case 15 => 0x110
    case 16 => 0x112 case 17 => 0x114 case 18 => 0x116
    case 19 => 0x120 case 20 => 0x122 case 21 => 0x124 case 22 => 0x126
    case 23 => 0x128 case 24 => 0x12A case 25 => 0x12C case 26 => 0x130
    case 27 => 0x132 case 28 => 0x134 case 29 => 0x136
    case 30 => 0x88 case 31 => 0x8A case 32 => 0x9C case 33 => 0x9E
    case 34 => 0xB0 case 35 => 0xB2 case 36 => 0xC4 case 37 => 0xC6
  }

  function Offset(v: Variant, r: RegIndex): nat
  {
    match v
    case CCan => CCanOffset(r)
    case DCan => DCanOffset(r)
  }

  /** Byte address of a register relative to the base of the register window. */
  function Address(v: Variant, a: Alignment, r: RegIndex): nat
  {
    match a
    case Aligned16 => Offset(v, r)
    case Aligned32 => 2 * Offset(v, r)
  }

  /**
   * The access strategy chosen at probe time: C_CAN follows the memory
   * resource's width, D_CAN is always 16-bit aligned.
   */
  function SelectAlignment(v: Variant, mem32bit: bool): (a: Alignment)
    ensures a == Aligned32 <==> v == CCan && mem32bit
  {
    match v
    case CCan => if mem32bit then Aligned32 else Aligned16
    case DCan => Aligned16
  }

  /** Inverse of reg_map_c_can on the offsets it uses (CTRL_EX excluded). */
  function CCanIndexAt(off: nat): int
  {
    match off
    case 0x00 => 0 case 0x02 => 2 case 0x04 => 3
    case 0x06 => 4 case 0x08 => 5 case 0x0A => 6 case 0x0C => 7
    case 0x10 => 8 case 0x12 => 9 case 0x14 => 10 case 0x16 => 11
    case 0x18 => 12 case 0x1A => 13 case 0x1C => 14 case 0x1E => 15
    case 0x20 => 16 case 0x22 => 17 case 0x24 => 18
    case 0x40 => 19 case 0x42 => 20 case 0x44 => 21 case 0x46 => 22
    case 0x48 => 23 case 0x4A => 24 case 0x4C => 25 case 0x4E => 26
    case 0x50 => 27 case 0x52 => 28 case 0x54 => 29
    case 0x80 => 30 case 0x82 => 31 case 0x90 => 32 case 0x92 => 33
    case 0xA0 => 34 case 0xA2 => 35 case 0xB0 => 36 case 0xB2 => 37
    case _ => -1
  }

  /** Inverse of reg_map_d_can. */
  function DCanIndexAt(off: nat): int
  {
    match off
    case 0x00 => 0 case 0x02 => 1 case 0x04 => 2 case 0x08 => 3
    case 0x0C => 4 case 0x10 => 5 case 0x14 => 6 case 0x0E => 7
    case 0x100 => 8 case 0x102 => 9 case 0x104 => 10 case 0x106 => 11
    case 0x108 => 12 case 0x10A => 13 case 0x10C => 14 case 0x110 => 15
    case 0x112 => 16 case 0x114 => 17 case 0x116 => 18
    case 0x120 => 19 case 0x122 => 20 case 0x124 => 21 case 0x126 => 22
    case 0x128 => 23 case 0x12A => 24 case 0x12C => 25 case 0x130 => 26
    case 0x132 => 27 case 0x134 => 28 case 0x136 => 29
    case 0x88 => 30 case 0x8A => 31 case 0x9C => 32 case 0x9E => 33
    case 0xB0 => 34 case 0xB2 => 35 case 0xC4 => 36 case 0xC6 => 37
    case _ => -1
  }

  /** A register the variant's map gives an offset of its own. */
  predicate Mapped(v: Variant, r: RegIndex)
  {
    v == DCan || r != CTRL_EX
  }

  /** Each variant's map can be inverted on the registers it maps. */
  lemma {:induction false} OffsetInverse(v: Variant, r: RegIndex)
    requires Mapped(v, r)
    ensures v == CCan ==> CCanIndexAt(CCanOffset(r)) == r
    ensures v == DCan ==> DCanIndexAt(DCanOffset(r)) == r
  {
    if v == CCan {
      CCanOffsetInverse(r);
    } else {
      DCanOffsetInverse(r);
    }
  }

  lemma CCanOffsetInverse(r: RegIndex)
    requires r != CTRL_EX
    ensures CCanIndexAt(CCanOffset(r)) == r
  {
  }

  lemma DCanOffsetInverse(r: RegIndex)
    ensures DCanIndexAt(DCanOffset(r)) == r
  {
  }

  /**
   * Distinct mapped registers live at distinct byte addresses, under either
   * alignment strategy, so the logical register file is a faithful view of
   * the register window.
   */
  lemma {:induction false} AddressInjective(v: Variant, a: Alignment, r1: RegIndex, r2: RegIndex)
    requires Mapped(v, r1) && Mapped(v, r2) && r1 != r2
    ensures Address(v, a, r1) != Address(v, a, r2)
  {
    OffsetInverse(v, r1);
    OffsetInverse(v, r2);
  }

  /** On C_CAN the unmapped CTRL_EX entry aliases CTRL at offset 0. */
  lemma CCanCtrlExAliasesCtrl(a: Alignment)
    ensures Address(CCan, a, CTRL_EX) == Address(CCan, a, CTRL) == 0
  {
  }

  /**
   * The IF2 bank is an exact copy of the IF1 bank: the same registers in the
   * same order, 0x30 bytes further on C_CAN and 0x20 bytes further on D_CAN.
   */
  lemma IfaceBanksParallel(v: Variant, r: RegIndex)
    requires IsIf1Reg(r)
    ensures Offset(v, IfaceReg(r, 1)) == Offset(v, r) + (if v == CCan then 0x30 else 0x20)
  {
  }

  /** The first half of each 32-bit register pair. */
  predicate IsReg32Low(r: RegIndex)
  {
    r == TXRQST1 || r == NEWDAT1 || r == INTPND1 || r == MSGVAL1
  }

  /** Both halves of every 32-bit register pair sit in adjacent 16-bit words. */
  lemma Reg32HalvesAdjacent(v: Variant, a: Alignment, r: RegIndex)
    requires IsReg32Low(r)
    ensures r + 1 < NUM_REGS
    ensures Address(v, a, r + 1) == Address(v, a, r) + (if a == Aligned16 then 2 else 4)
  {
  }

  /** One interface register bank: command request, command mask and the nine message words. */
  datatype IfRegs = IfRegs(comreq: bv16, commsk: bv16, bank: MsgObj)

  /**
   * The register file: the eight control registers, the two interface banks
   * and the eight halves of the 32-bit mirror registers, addressed by `enum
   * reg` index through Get and Set.
   */
  datatype RegFile = RegFile(
    ctrl: bv16, ctrlEx: bv16, sts: bv16, errCnt: bv16,
    btr: bv16, intr: bv16, test: bv16, brpext: bv16,
    if1: IfRegs, if2: IfRegs,
    txrqst1: bv16, txrqst2: bv16, newdat1: bv16, newdat2: bv16,
    intpnd1: bv16, intpnd2: bv16, msgval1: bv16, msgval2: bv16)

  // Offsets of the registers inside an interface bank.
  const IF_COMREQ: nat := 0
  const IF_COMMSK: nat := 1
  const IF_MASK1: nat := 2
  const IF_MASK2: nat := 3
  const IF_ARB1: nat := 4
  const IF_ARB2: nat := 5
  const IF_MSGCTRL: nat := 6
  const IF_DATA1: nat := 7

  /** Register k (IF_COMREQ to IF_DATA1 + 3) of an interface bank. */
  function IfGet(b: IfRegs, k: nat): bv16
    requires k < IF_ENUM_REG_LEN
  {
    match k
    case 0 => b.comreq case 1 => b.commsk
    case 2 => b.bank.mask1 case 3 => b.bank.mask2
    case 4 => b.bank.arb1 case 5 => b.bank.arb2 case 6 => b.bank.ctrl
    case 7 => b.bank.data1 case 8 => b.bank.data2
    case 9 => b.bank.data3 case 10 => b.bank.data4
  }

  function IfSet(b: IfRegs, k: nat, v: bv16): IfRegs
    requires k < IF_ENUM_REG_LEN
  {
    match k
    case 0 => b.(comreq := v) case 1 => b.(commsk := v)
    case 2 => b.(bank := b.bank.(mask1 := v)) case 3 => b.(bank := b.bank.(mask2 := v))
    case 4 => b.(bank := b.bank.(arb1 := v)) case 5 => b.(bank := b.bank.(arb2 := v))
    case 6 => b.(bank := b.bank.(ctrl := v))
    case 7 => b.(bank := b.bank.(data1 := v)) case 8 => b.(bank := b.bank.(data2 := v))
    case 9 => b.(bank := b.bank.(data3 := v)) case 10 => b.(bank := b.bank.(data4 := v))
  }

  /** The bank of interface `iface`. */
  function IfBank(regs: RegFile, iface: Iface): IfRegs
  {
    if iface == 0 then regs.if1 else regs.if2
  }

  function SetIfBank(regs: RegFile, iface: Iface, b: IfRegs): RegFile
  {
    if iface == 0 then regs.(if1 := b) else regs.(if2 := b)
  }

  /** priv->read_reg: the register with enumeration index r. */
  function Get(regs: RegFile, r: RegIndex): bv16
  {
    if IF1_COMREQ <= r <= IF1_DATA4 then IfGet(regs.if1, r - IF1_COMREQ)
    else if IF2_COMREQ <= r <= IF2_DATA4 then IfGet(regs.if2, r - IF2_COMREQ)
    else
      match r
      case 0 => regs.ctrl case 1 => regs.ctrlEx case 2 => regs.sts case 3 => regs.errCnt
      case 4 => regs.btr case 5 => regs.intr case 6 => regs.test case 7 => regs.brpext
      case 30 => regs.txrqst1 case 31 => regs.txrqst2 case 32 => regs.newdat1 case 33 => regs.newdat2
      case 34 => regs.intpnd1 case 35 => regs.intpnd2 case 36 => regs.msgval1 case 37 => regs.msgval2
  }

  /** priv->write_reg: the register with enumeration index r set to v. */
  function Set(regs: RegFile, r: RegIndex, v: bv16): RegFile
  {
    if IF1_COMREQ <= r <= IF1_DATA4 then regs.(if1 := IfSet(regs.if1, r - IF1_COMREQ, v))
    else if IF2_COMREQ <= r <= IF2_DATA4 then regs.(if2 := IfSet(regs.if2, r - IF2_COMREQ, v))
    else
      match r
      case 0 => regs.(ctrl := v) case 1 => regs.(ctrlEx := v) case 2 => regs.(sts := v)
      case 3 => regs.(errCnt := v) case 4 => regs.(btr := v) case 5 => regs.(intr := v)
      case 6 => regs.(test := v) case 7 => regs.(brpext := v)
      case 30 => regs.(txrqst1 := v) case 31 => regs.(txrqst2 := v)
      case 32 => regs.(newdat1 := v) case 33 => regs.(newdat2 := v)
      case 34 => regs.(intpnd1 := v) case 35 => regs.(intpnd2 := v)
      case 36 => regs.(msgval1 := v) case 37 => regs.(msgval2 := v)
  }

  /** Reading a bank register returns the value last written to it. */
  lemma IfGetSetSame(b: IfRegs, k: nat, v: bv16)
    requires k < IF_ENUM_REG_LEN
    ensures IfGet(IfSet(b, k, v), k) == v
  {
  }

  /** C_CAN_IFACE(reg, iface) reads register reg - COMREQ of bank `iface`. */
  lemma IfaceRegReads(regs: RegFile, r: RegIndex, iface: Iface)
    requires IsIf1Reg(r)
    ensures Get(regs, IfaceReg(r, iface)) == IfGet(IfBank(regs, iface), r - IF1_COMREQ)
  {
    if iface == 0 {
    } else {
    }
  }

  /** C_CAN_IFACE(reg, iface) writes register reg - COMREQ of bank `iface` and nothing else. */
  lemma IfaceRegWrites(regs: RegFile, r: RegIndex, iface: Iface, v: bv16)
    requires IsIf1Reg(r)
    ensures Set(regs, IfaceReg(r, iface), v) == SetIfBank(regs, iface, IfSet(IfBank(regs, iface), r - IF1_COMREQ, v))
  {
    if iface == 0 {
    } else {
    }
  }

  /** c_can_read_reg32: low | high << 16. */
  function Combine32(low: bv16, high: bv16): (v: bv32)
    ensures v & 0xFFFF == low as bv32
    ensures v >> 16 == high as bv32
  {
    (low as bv32) | ((high as bv32) << 16)
  }

  /** Bit n of a combined value is bit n of the low half or bit n-16 of the high half. */
  lemma Combine32Bit(low: bv16, high: bv16, n: nat)
    requires n < 32
    ensures (Combine32(low, high) & (1 << n) != 0) ==
            (if n < 16 then low & (1 << n) != 0 else high & (1 << (n - 16)) != 0)
  {
    if n < 16 {
      Combine32LowBit(low, high, n);
    } else {
      Combine32HighBit(low, high, n);
    }
  }

  lemma Combine32LowBit(low: bv16, high: bv16, n: nat)
    requires n < 16
    ensures (Combine32(low, high) & (1 << n) != 0) == (low & (1 << n) != 0)
  {
  }

  lemma Combine32HighBit(low: bv16, high: bv16, n: nat)
    requires 16 <= n < 32
    ensures (Combine32(low, high) & (1 << n) != 0) == (high & (1 << (n - 16)) != 0)
  {
  }
}
