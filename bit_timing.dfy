/**
 * The field arithmetic of c_can_set_bittiming: how the standard bit-timing
 * parameters become the values written to BTR and BRPEXT, and why every
 * parameter inside the controller's ranges can be read back from them.
 */
module BitTiming {

  /** The fields of the standard bit-timing record the driver reads. */
  datatype BitTime = BitTime(brp: bv32, propSeg: bv8, phaseSeg1: bv8, phaseSeg2: bv8, sjw: bv8)

  const BTR_BRP_MASK: bv32 := 0x3F
  const BTR_SJW_SHIFT: bv32 := 6
  const BTR_TSEG1_SHIFT: bv32 := 8
  const BTR_TSEG2_SHIFT: bv32 := 12
  const BRP_EXT_BRPE_MASK: bv8 := 0x0F

  // c_can_bittiming_const.
  const BRP_MIN: bv32 := 1
  const BRP_MAX: bv32 := 1024
  const SJW_MAX: bv8 := 4
  const TSEG1_MIN: bv8 := 2
  const TSEG1_MAX: bv8 := 16
  const TSEG2_MIN: bv8 := 1
  const TSEG2_MAX: bv8 := 8

  /** ten_bit_brp = brp - 1, on an unsigned 32-bit value. */
  function TenBitBrp(bt: BitTime): bv32 { bt.brp - 1 }

  /** The low six bits of ten_bit_brp, kept in a u8. */
  function BrpField(bt: BitTime): bv8 { (TenBitBrp(bt) & BTR_BRP_MASK) as bv8 }

  /** ten_bit_brp >> 6, truncated to a u8. */
  function BrpeField(bt: BitTime): bv8 { ((TenBitBrp(bt) >> 6) & 0xFF) as bv8 }

  /** sjw - 1 in a u8. */
  function SjwField(bt: BitTime): bv8 { bt.sjw - 1 }

  /** prop_seg + phase_seg1 - 1 in a u8. */
  function Tseg1Field(bt: BitTime): bv8 { bt.propSeg + bt.phaseSeg1 - 1 }

  /** phase_seg2 - 1 in a u8. */
  function Tseg2Field(bt: BitTime): bv8 { bt.phaseSeg2 - 1 }

  /** reg_btr, the unsigned int the fields are ORed into. */
  function BtrValue(bt: BitTime): bv32
  {
    (BrpField(bt) as bv32) | ((SjwField(bt) as bv32) << BTR_SJW_SHIFT) |
    ((Tseg1Field(bt) as bv32) << BTR_TSEG1_SHIFT) | ((Tseg2Field(bt) as bv32) << BTR_TSEG2_SHIFT)
  }

  /** The 16 bits of reg_btr the register write keeps. */
  function BtrReg(bt: BitTime): bv16 { (BtrValue(bt) & 0xFFFF) as bv16 }

  /** reg_brpe = brpe & BRP_EXT_BRPE_MASK, as written to BRPEXT. */
  function BrpeReg(bt: BitTime): bv16 { (BrpeField(bt) & BRP_EXT_BRPE_MASK) as bv16 }

  /** The ranges c_can_bittiming_const advertises. */
  predicate InRange(bt: BitTime)
  {
    BRP_MIN <= bt.brp <= BRP_MAX &&
    1 <= bt.sjw <= SJW_MAX &&
    bt.propSeg <= TSEG1_MAX && bt.phaseSeg1 <= TSEG1_MAX &&
    TSEG1_MIN <= bt.propSeg + bt.phaseSeg1 <= TSEG1_MAX &&
    TSEG2_MIN <= bt.phaseSeg2 <= TSEG2_MAX
  }

  /** BRP (6 bits in BTR) and BRPE (4 bits in BRPEXT) together give brp - 1. */
  lemma BrpReconstruct(bt: BitTime)
    requires BRP_MIN <= bt.brp <= BRP_MAX
    ensures ((BtrReg(bt) & 0x3F) as bv32) + ((BrpeReg(bt) as bv32) << 6) + 1 == bt.brp
  {
  }

  /** SJW sits in BTR bits 7..6 as sjw - 1. */
  lemma SjwReconstruct(bt: BitTime)
    requires 1 <= bt.sjw <= SJW_MAX
    ensures ((BtrReg(bt) >> 6) & 3) as bv8 + 1 == bt.sjw
  {
  }

  /** TSEG1 sits in BTR bits 11..8 as prop_seg + phase_seg1 - 1. */
  lemma Tseg1Reconstruct(bt: BitTime)
    requires InRange(bt)
    ensures ((BtrReg(bt) >> 8) & 0xF) as bv8 + 1 == bt.propSeg + bt.phaseSeg1
  {
  }

  /** TSEG2 sits in BTR bits 14..12 as phase_seg2 - 1. */
  lemma Tseg2Reconstruct(bt: BitTime)
    requires InRange(bt)
    ensures ((BtrReg(bt) >> 12) & 7) as bv8 + 1 == bt.phaseSeg2
  {
  }

  /** Inside the ranges the top bit of BTR stays clear and BRPE fits its 4 bits. */
  lemma FieldsFit(bt: BitTime)
    requires InRange(bt)
    ensures BtrReg(bt) & 0x8000 == 0
    ensures BrpeReg(bt) as bv32 == TenBitBrp(bt) >> 6
  {
  }
}
