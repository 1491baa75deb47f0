/**
 * The frame codec: how c_can_write_msg_object turns a frame into the
 * arbitration, control and data words of an interface bank, and how
 * c_can_read_msg_object turns those words back into a frame.
 */
module Codec {
  import opened CanFrame
  import opened MsgObject
  import Registers

  /**
   * The identifier as the arbitration words hold it: an extended identifier
   * keeps its 29 bits, a standard one sits in bits 28..18.
   */
  function ArbId(canId: bv32): (id: bv32)
    ensures id & !CAN_EFF_MASK == 0
    ensures canId & CAN_EFF_FLAG == 0 ==> id & 0x3FFFF == 0
  {
    if canId & CAN_EFF_FLAG != 0 then canId & CAN_EFF_MASK
    else (canId & CAN_SFF_MASK) << 18
  }

  /** The flag bits of the second arbitration word. */
  function ArbFlags(canId: bv32): (flags: bv16)
    ensures flags & IF_ARB_MSGVAL != 0
    ensures flags & IF_ARB_TRANSMIT != 0 <==> canId & CAN_RTR_FLAG == 0
    ensures flags & IF_ARB_MSGXTD != 0 <==> canId & CAN_EFF_FLAG != 0
    ensures flags & 0x1FFF == 0
  {
    (if canId & CAN_RTR_FLAG == 0 then IF_ARB_TRANSMIT else 0) |
    (if canId & CAN_EFF_FLAG != 0 then IF_ARB_MSGXTD else 0) |
    IF_ARB_MSGVAL
  }

  /** IFX_WRITE_LOW_16BIT of the identifier. */
  function Arb1(canId: bv32): bv16
  {
    (ArbId(canId) & 0xFFFF) as bv16
  }

  /** The flags combined with IFX_WRITE_HIGH_16BIT of the identifier. */
  function Arb2(canId: bv32): (w: bv16)
    ensures w & IF_ARB_MSGVAL != 0
    ensures w & IF_ARB_TRANSMIT != 0 <==> canId & CAN_RTR_FLAG == 0
    ensures w & IF_ARB_MSGXTD != 0 <==> canId & CAN_EFF_FLAG != 0
  {
    HighIdBitsBelowFlags(canId);
    ArbFlags(canId) | ((ArbId(canId) & 0xFFFF0000) >> 16) as bv16
  }

  lemma HighIdBitsBelowFlags(canId: bv32)
    ensures ((ArbId(canId) & 0xFFFF0000) >> 16) & 0xE000 == 0
  {
  }

  /**
   * The identifier c_can_read_msg_object reports for the two arbitration
   * words: an extended identifier gains CAN_EFF_FLAG, a standard one is
   * bits 28..18, and a set TRANSMIT bit is reported as a remote request.
   */
  function DecodeId(arb1: bv16, arb2: bv16): (canId: bv32)
    ensures canId & CAN_EFF_FLAG != 0 <==> arb2 & IF_ARB_MSGXTD != 0
    ensures canId & CAN_RTR_FLAG != 0 <==> arb2 & IF_ARB_TRANSMIT != 0
  {
    var val := Registers.Combine32(arb1, arb2);
    var id := if arb2 & IF_ARB_MSGXTD != 0 then (val & CAN_EFF_MASK) | CAN_EFF_FLAG
              else (val >> 18) & CAN_SFF_MASK;
    if arb2 & IF_ARB_TRANSMIT != 0 then id | CAN_RTR_FLAG else id
  }

  /** An extended identifier survives encode and decode with its 29 bits. */
  lemma {:induction false} ExtendedIdRoundTrip(canId: bv32)
    requires canId & CAN_EFF_FLAG != 0
    ensures DecodeId(Arb1(canId), Arb2(canId)) & CAN_EFF_MASK == canId & CAN_EFF_MASK
  {
    if canId & CAN_RTR_FLAG == 0 {
      ExtendedDataId(canId);
    } else {
      ExtendedRemoteId(canId);
    }
  }

  lemma ExtendedDataId(canId: bv32)
    requires canId & CAN_EFF_FLAG != 0 && canId & CAN_RTR_FLAG == 0
    ensures DecodeId(Arb1(canId), Arb2(canId)) & CAN_EFF_MASK == canId & CAN_EFF_MASK
  {
  }

  lemma ExtendedRemoteId(canId: bv32)
    requires canId & CAN_EFF_FLAG != 0 && canId & CAN_RTR_FLAG != 0
    ensures DecodeId(Arb1(canId), Arb2(canId)) & CAN_EFF_MASK == canId & CAN_EFF_MASK
  {
  }

  /** A standard identifier survives encode and decode with its 11 bits. */
  lemma {:induction false} StandardIdRoundTrip(canId: bv32)
    requires canId & CAN_EFF_FLAG == 0
    ensures DecodeId(Arb1(canId), Arb2(canId)) & CAN_EFF_MASK == canId & CAN_SFF_MASK
  {
    if canId & CAN_RTR_FLAG == 0 {
      StandardDataId(canId);
    } else {
      StandardRemoteId(canId);
    }
  }

  lemma StandardDataId(canId: bv32)
    requires canId & CAN_EFF_FLAG == 0 && canId & CAN_RTR_FLAG == 0
    ensures DecodeId(Arb1(canId), Arb2(canId)) & CAN_EFF_MASK == canId & CAN_SFF_MASK
  {
  }

  lemma StandardRemoteId(canId: bv32)
    requires canId & CAN_EFF_FLAG == 0 && canId & CAN_RTR_FLAG != 0
    ensures DecodeId(Arb1(canId), Arb2(canId)) & CAN_EFF_MASK == canId & CAN_SFF_MASK
  {
  }

  /** The extended flag survives encode and decode. */
  lemma ExtendedFlagRoundTrip(canId: bv32)
    ensures DecodeId(Arb1(canId), Arb2(canId)) & CAN_EFF_FLAG != 0 <==> canId & CAN_EFF_FLAG != 0
  {
  }

  /**
   * The remote-request flag does not survive: decode reports a remote
   * request exactly when encode was given a data frame.
   */
  lemma RtrPolarityFlips(canId: bv32)
    ensures IsRemoteId(DecodeId(Arb1(canId), Arb2(canId))) <==> !IsRemoteId(canId)
  {
  }

  predicate IsRemoteId(canId: bv32) { canId & CAN_RTR_FLAG != 0 }

  /** A data word: the little-endian packing of two payload bytes. */
  function PackWord(lo: bv8, hi: bv8): (w: bv16)
    ensures WordLow(w) == lo && WordHigh(w) == hi
  {
    (lo as bv16) | ((hi as bv16) << 8)
  }

  /** The byte a u8 assignment keeps of a data word. */
  function WordLow(w: bv16): bv8 { (w & 0xFF) as bv8 }

  /** The byte that data >> 8 leaves. */
  function WordHigh(w: bv16): bv8 { (w >> 8) as bv8 }

  /** Data word k of a frame, for k < 4. */
  function DataWord(f: Frame, k: nat): bv16
    requires k < 4
  {
    PackWord(f.data[2 * k], f.data[2 * k + 1])
  }

  /** Number of data words the write and read loops touch: one per started byte pair. */
  function WordCount(dlc: bv8): (n: nat)
    ensures dlc <= 8 ==> n <= 4
    ensures 2 * n >= dlc as nat && 2 * n <= dlc as nat + 1
  {
    (dlc as nat + 1) / 2
  }

  /** The transmit control word: TXIE | TXRQST | EOB | dlc. */
  function TxCtrl(dlc: bv8): (ctrl: bv16)
    ensures ctrl & IF_MCONT_TXIE != 0 && ctrl & IF_MCONT_TXRQST != 0 && ctrl & IF_MCONT_EOB != 0
    ensures ctrl & (IF_MCONT_NEWDAT | IF_MCONT_MSGLST | IF_MCONT_INTPND) == 0
  {
    IF_MCONT_TXIE | IF_MCONT_TXRQST | IF_MCONT_EOB | (dlc as bv16)
  }

  /** get_can_dlc(ctrl & 0x0F): the data length code, capped at 8. */
  function RxDlc(ctrl: bv16): (dlc: bv8)
    ensures dlc <= CAN_MAX_DLC
    ensures ctrl & IF_MCONT_DLC_MASK <= 8 ==> dlc as bv16 == ctrl & IF_MCONT_DLC_MASK
    ensures ctrl & IF_MCONT_DLC_MASK > 8 ==> dlc == CAN_MAX_DLC
  {
    var v := ctrl & IF_MCONT_DLC_MASK;
    if v > 8 then CAN_MAX_DLC else v as bv8
  }

  /** A data length code up to 8 survives the control word. */
  lemma DlcRoundTrip(dlc: bv8)
    requires dlc <= CAN_MAX_DLC
    ensures RxDlc(TxCtrl(dlc)) == dlc
  {
  }

  /**
   * The payload the read loop leaves: the bytes of every started byte pair
   * below dlc come from the data words, the rest keep the buffer's previous
   * contents.
   */
  function DecodeData(words: seq<bv16>, dlc: bv8, prev: Payload): Payload
    requires |words| == 4 && dlc <= CAN_MAX_DLC
  {
    var n := WordCount(dlc);
    [if 0 < n then WordLow(words[0]) else prev[0], if 0 < n then WordHigh(words[0]) else prev[1],
     if 1 < n then WordLow(words[1]) else prev[2], if 1 < n then WordHigh(words[1]) else prev[3],
     if 2 < n then WordLow(words[2]) else prev[4], if 2 < n then WordHigh(words[2]) else prev[5],
     if 3 < n then WordLow(words[3]) else prev[6], if 3 < n then WordHigh(words[3]) else prev[7]]
  }

  /**
   * Byte by byte: an even byte of a started pair is the low half of its
   * word, an odd one the high half, and a byte past the last started pair
   * keeps the buffer's previous value.
   */
  lemma {:induction false} DecodeDataBytes(words: seq<bv16>, dlc: bv8, prev: Payload)
    requires |words| == 4 && dlc <= CAN_MAX_DLC
    ensures forall j :: 0 <= j < 8 && j / 2 < WordCount(dlc) && j % 2 == 0 ==>
              DecodeData(words, dlc, prev)[j] == WordLow(words[j / 2])
    ensures forall j :: 0 <= j < 8 && j / 2 < WordCount(dlc) && j % 2 == 1 ==>
              DecodeData(words, dlc, prev)[j] == WordHigh(words[j / 2])
    ensures forall j :: 0 <= j < 8 && j / 2 >= WordCount(dlc) ==> DecodeData(words, dlc, prev)[j] == prev[j]
  {
    var p := DecodeData(words, dlc, prev);
    forall j | 0 <= j < 8
      ensures j / 2 < WordCount(dlc) && j % 2 == 0 ==> p[j] == WordLow(words[j / 2])
      ensures j / 2 < WordCount(dlc) && j % 2 == 1 ==> p[j] == WordHigh(words[j / 2])
      ensures j / 2 >= WordCount(dlc) ==> p[j] == prev[j]
    {
      if j == 0 {
      } else if j == 1 {
      } else if j == 2 {
      } else if j == 3 {
      } else if j == 4 {
      } else if j == 5 {
      } else if j == 6 {
      } else {
      }
    }
  }

  /** The data words c_can_write_msg_object puts in DATA1..DATA4 for a frame (the first WordCount(dlc)). */
  function EncodeData(f: Frame): (words: seq<bv16>)
    ensures |words| == 4
    ensures forall k :: 0 <= k < 4 ==> words[k] == DataWord(f, k)
  {
    [DataWord(f, 0), DataWord(f, 1), DataWord(f, 2), DataWord(f, 3)]
  }

  /** Every payload byte below dlc survives encode and decode. */
  lemma {:induction false} PayloadRoundTrip(f: Frame, prev: Payload)
    requires f.dlc <= CAN_MAX_DLC
    ensures forall j :: 0 <= j < f.dlc as nat ==> DecodeData(EncodeData(f), f.dlc, prev)[j] == f.data[j]
  {
    var p := DecodeData(EncodeData(f), f.dlc, prev);
    var n := WordCount(f.dlc);
    forall j | 0 <= j < f.dlc as nat
      ensures p[j] == f.data[j]
    {
      if j == 0 {
        assert 0 < n;
      } else if j == 1 {
        assert 0 < n;
      } else if j == 2 {
        assert 1 < n;
      } else if j == 3 {
        assert 1 < n;
      } else if j == 4 {
        assert 2 < n;
      } else if j == 5 {
        assert 2 < n;
      } else if j == 6 {
        assert 3 < n;
      } else {
        assert 3 < n;
      }
    }
  }

  /**
   * The frame c_can_read_msg_object leaves in the buffer `prev` for an
   * interface bank holding arb1, arb2 and the data words, given the saved
   * control word: a remote reply (TRANSMIT set) keeps the old payload.
   */
  function DecodeFrame(arb1: bv16, arb2: bv16, ctrl: bv16, words: seq<bv16>, prev: Frame): (f: Frame)
    requires |words| == 4
    ensures f.dlc == RxDlc(ctrl)
    ensures f.canId == DecodeId(arb1, arb2)
    ensures arb2 & IF_ARB_TRANSMIT != 0 ==> f.data == prev.data
    ensures arb2 & IF_ARB_TRANSMIT == 0 ==> f.data == DecodeData(words, RxDlc(ctrl), prev.data)
  {
    Frame(DecodeId(arb1, arb2), RxDlc(ctrl),
          if arb2 & IF_ARB_TRANSMIT != 0 then prev.data else DecodeData(words, RxDlc(ctrl), prev.data))
  }

  /** The frame c_can_read_msg_object makes of the words c_can_write_msg_object stored for f. */
  function RoundTrip(f: Frame, prev: Frame): Frame
  {
    DecodeFrame(Arb1(f.canId), Arb2(f.canId), TxCtrl(f.dlc), EncodeData(f), prev)
  }

  /**
   * Length and payload after a full encode/decode of a frame with dlc <= 8:
   * dlc survives; because the remote flag is inverted, the payload below dlc
   * survives only for a remote frame (which comes back as a data frame), and
   * a data frame comes back as a remote request with the buffer's previous
   * payload.
   */
  lemma {:induction false} FrameBodyRoundTrip(f: Frame, prev: Frame)
    requires f.dlc <= CAN_MAX_DLC
    ensures RoundTrip(f, prev).dlc == f.dlc
    ensures IsRemote(f) ==> forall j :: 0 <= j < f.dlc as nat ==> RoundTrip(f, prev).data[j] == f.data[j]
    ensures !IsRemote(f) ==> RoundTrip(f, prev).data == prev.data
  {
    DlcRoundTrip(f.dlc);
    if IsRemote(f) {
      PayloadRoundTrip(f, prev.data);
    }
  }
}
