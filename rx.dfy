/**
 * The receive path: the helpers that hand a receive object back to the
 * controller after it was read (mark, activate, activate all lower), the
 * lost-message handler, and c_can_do_rx_poll, which visits the receive
 * objects 1..16 in increasing order.
 *
 * The INTPND register is set by the controller while the pass runs and the
 * driver re-reads it after every object, so the values the pass sees are an
 * input: pend[m - 1] is the value tested for object m.
 */
module Rx {
  import opened CanFrame
  import opened Registers
  import opened MsgObject
  import opened Codec
  import opened Device
  import opened Objects

  const RX_FIRST: ObjNo := 1
  const RX_LAST: ObjNo := 16
  /** C_CAN_MSG_RX_LOW_LAST, C_CAN_MSG_OBJ_RX_SPLIT - 1. */
  const RX_LOW_LAST: ObjNo := 8

  /** The control word c_can_mark_rx_msg_obj writes back: MSGLST and INTPND cleared, NEWDAT kept. */
  function MarkCtrl(ctrl: bv16): (c: bv16)
    ensures c & IF_MCONT_NEWDAT == ctrl & IF_MCONT_NEWDAT
    ensures c & (IF_MCONT_MSGLST | IF_MCONT_INTPND) == 0
    ensures c | IF_MCONT_MSGLST | IF_MCONT_INTPND == ctrl | IF_MCONT_MSGLST | IF_MCONT_INTPND
  {
    ctrl & !(IF_MCONT_MSGLST | IF_MCONT_INTPND)
  }

  /** The control word the activate helpers write back: MSGLST, INTPND and NEWDAT cleared. */
  function ActivateCtrl(ctrl: bv16): (c: bv16)
    ensures c & (IF_MCONT_MSGLST | IF_MCONT_INTPND | IF_MCONT_NEWDAT) == 0
    ensures c | IF_MCONT_MSGLST | IF_MCONT_INTPND | IF_MCONT_NEWDAT ==
            ctrl | IF_MCONT_MSGLST | IF_MCONT_INTPND | IF_MCONT_NEWDAT
  {
    ctrl & !(IF_MCONT_MSGLST | IF_MCONT_INTPND | IF_MCONT_NEWDAT)
  }

  /** Write the control word of bank 0, then put it alone into object objno. */
  function PutCtrl(d: Dev, v: bv16, objno: ObjNo): Dev
  {
    ObjectPut(WriteIf(d, 0, IF_MSGCTRL, v), 0, objno, IF_COMM_CONTROL)
  }

  /** A control-only put replaces the control word of exactly that object. */
  lemma PutCtrlStores(d: Dev, v: bv16, objno: ObjNo)
    ensures PutCtrl(d, v, objno).ram == d.ram[objno - 1 := d.ram[objno - 1].(ctrl := v)]
    ensures Bank(PutCtrl(d, v, objno), 0) == Bank(d, 0).(ctrl := v)
    ensures OnlyObjects(d, PutCtrl(d, v, objno))
  {
    var d1 := WriteIf(d, 0, IF_MSGCTRL, v);
    ObjectPutStores(d1, 0, objno, IF_COMM_CONTROL);
    PutControl(Bank(d1, 0), d1.ram[objno - 1]);
  }

  /** c_can_mark_rx_msg_obj on interface 0. */
  function MarkRxMsgObj(d: Dev, ctrl: bv16, objno: ObjNo): Dev
  {
    PutCtrl(d, MarkCtrl(ctrl), objno)
  }

  /** c_can_activate_rx_msg_obj on interface 0. */
  function ActivateRxMsgObj(d: Dev, ctrl: bv16, objno: ObjNo): Dev
  {
    PutCtrl(d, ActivateCtrl(ctrl), objno)
  }

  /** The loop of c_can_activate_all_lower_rx_msg_obj, from object i on. */
  function ActivateAllLowerFrom(d: Dev, ctrl: bv16, i: nat): Dev
    requires RX_FIRST <= i <= RX_LOW_LAST + 1
    decreases RX_LOW_LAST + 1 - i
  {
    if i > RX_LOW_LAST then d
    else ActivateAllLowerFrom(PutCtrl(d, ActivateCtrl(ctrl), i), ctrl, i + 1)
  }

  /** c_can_activate_all_lower_rx_msg_obj on interface 0. */
  function ActivateAllLower(d: Dev, ctrl: bv16): Dev
  {
    ActivateAllLowerFrom(d, ctrl, RX_FIRST)
  }

  /** RAM r with the control word of objects lo..8 replaced by v. */
  function CtrlsFrom(r: Ram, lo: nat, v: bv16): Ram
  {
    seq(32, k requires 0 <= k < 32 => if lo <= k + 1 <= RX_LOW_LAST then r[k].(ctrl := v) else r[k])
  }

  /** From object i on, the loop rewrites the control words of objects i..8 and nothing else. */
  lemma {:induction false} ActivateAllLowerFromStores(d: Dev, ctrl: bv16, i: nat)
    requires RX_FIRST <= i <= RX_LOW_LAST + 1
    ensures ActivateAllLowerFrom(d, ctrl, i).ram == CtrlsFrom(d.ram, i, ActivateCtrl(ctrl))
    ensures OnlyObjects(d, ActivateAllLowerFrom(d, ctrl, i))
    decreases RX_LOW_LAST + 1 - i
  {
    var v := ActivateCtrl(ctrl);
    if i > RX_LOW_LAST {
      assert CtrlsFrom(d.ram, i, v) == d.ram;
    } else {
      var d1 := PutCtrl(d, v, i);
      PutCtrlStores(d, v, i);
      ActivateAllLowerFromStores(d1, ctrl, i + 1);
      OnlyObjectsTrans(d, d1, ActivateAllLowerFrom(d1, ctrl, i + 1));
      CtrlsFromStep(d.ram, i, v);
    }
  }

  lemma CtrlsFromStep(r: Ram, i: nat, v: bv16)
    requires RX_FIRST <= i <= RX_LOW_LAST
    ensures CtrlsFrom(r[i - 1 := r[i - 1].(ctrl := v)], i + 1, v) == CtrlsFrom(r, i, v)
  {
  }

  /** The error frame of a lost message: a controller problem, receive buffer overflow. */
  const LostFrame: Frame := ErrorFrame(CAN_ERR_CRTL, CAN_ERR_CRTL_RX_OVERFLOW, 0, 0, 0, 0)

  /** c_can_handle_lost_msg_obj on interface 0. */
  function HandleLostMsgObj(d: Dev, objno: ObjNo): Dev
  {
    var d1 := ObjectGet(d, 0, objno, IF_COMM_RX);
    var d2 := PutCtrl(d1, IF_MCONT_CLR_MSGLST, objno);
    d2.(out := d2.out + [Rcv(LostFrame)])
  }

  /**
   * A lost message sets the object's control word to 0 (CLR_MSGLST is 0, so
   * RXIE and UMASK go too), keeps the rest of the object and emits exactly
   * one overflow error frame.
   */
  lemma {:induction false} HandleLostStores(d: Dev, objno: ObjNo)
    ensures HandleLostMsgObj(d, objno).ram == d.ram[objno - 1 := d.ram[objno - 1].(ctrl := 0)]
    ensures HandleLostMsgObj(d, objno).out == d.out + [Rcv(LostFrame)]
    ensures OnlyObjects(d, HandleLostMsgObj(d, objno).(out := d.out))
  {
    var d1 := ObjectGet(d, 0, objno, IF_COMM_RX);
    ObjectGetLoads(d, 0, objno, IF_COMM_RX);
    GetRxObj(d.ram[objno - 1]);
    PutCtrlStores(d1, IF_MCONT_CLR_MSGLST, objno);
    OnlyObjectsTrans(d, d1, PutCtrl(d1, IF_MCONT_CLR_MSGLST, objno));
  }

  /** The state after one object of the pass, and whether the pass returns there. */
  datatype Visit = Visit(d: Dev, count: nat, buf: Frame, stop: bool)

  /** The body of the c_can_do_rx_poll loop for object m, INTPND value val, frame buffer buf. */
  function VisitObject(d: Dev, val: bv32, m: ObjNo, count: nat, buf: Frame): Visit
  {
    if !Pending(val, m) then Visit(d, count, buf, false)
    else HandlePending(ObjectGet(d, 0, m, IF_COMM_RX), m, count, buf)
  }

  /** The loop body once pending object m has been loaded into bank 0 (snapshot d1). */
  function HandlePending(d1: Dev, m: ObjNo, count: nat, buf: Frame): Visit
  {
    var ctrl := ReadIf(d1, 0, IF_MSGCTRL);
    if ctrl & IF_MCONT_EOB != 0 then Visit(d1, count, buf, true)
    else if ctrl & IF_MCONT_MSGLST != 0 then Visit(HandleLostMsgObj(d1, m), count + 1, buf, false)
    else if ctrl & IF_MCONT_NEWDAT == 0 then Visit(d1, count, buf, false)
    else
      var f := ReadMsgObject(d1, ctrl, buf);
      var d2 := Reactivate(d1, ctrl, m);
      Visit(d2.(out := d2.out + [Rcv(f)]), count + 1, f, false)
  }

  /** The reactivation choice of the pass for a read object m with saved control word ctrl. */
  function Reactivate(d: Dev, ctrl: bv16, m: ObjNo): Dev
  {
    if m < RX_LOW_LAST then MarkRxMsgObj(d, ctrl, m)
    else if m > RX_LOW_LAST then ActivateRxMsgObj(d, ctrl, m)
    else ActivateAllLower(d, ctrl)
  }

  /** The result of a receive pass: the new snapshot and num_rx_pkts. */
  datatype Poll = Poll(d: Dev, count: nat)

  /** The c_can_do_rx_poll loop from object m on. */
  function RxPollFrom(d: Dev, pend: seq<bv32>, m: nat, count: nat, buf: Frame): Poll
    requires RX_FIRST <= m <= RX_LAST + 1 && |pend| >= RX_LAST
    decreases RX_LAST + 1 - m
  {
    if m > RX_LAST then Poll(d, count)
    else
      var v := VisitObject(d, pend[m - 1], m, count, buf);
      if v.stop then Poll(v.d, v.count) else RxPollFrom(v.d, pend, m + 1, v.count, v.buf)
  }

  /** c_can_do_rx_poll; its on-stack frame buffer starts zeroed. */
  function DoRxPoll(d: Dev, pend: seq<bv32>): Poll
    requires |pend| >= RX_LAST
  {
    RxPollFrom(d, pend, RX_FIRST, 0, ZeroFrame)
  }

  /**
   * The reference for what the reactivation of a read object m with saved
   * control word ctrl does to the RAM: below 8 the object alone is marked
   * (NEWDAT kept); at 8 objects 1..8 are activated; above 8 the object
   * alone is activated.
   */
  function Reactivated(r: Ram, m: ObjNo, ctrl: bv16): Ram
  {
    if m < RX_LOW_LAST then r[m - 1 := r[m - 1].(ctrl := MarkCtrl(ctrl))]
    else if m > RX_LOW_LAST then r[m - 1 := r[m - 1].(ctrl := ActivateCtrl(ctrl))]
    else CtrlsFrom(r, RX_FIRST, ActivateCtrl(ctrl))
  }

  /** Below object 8 only the object itself changes: MSGLST and INTPND cleared, NEWDAT kept. */
  lemma ReactivatedBelow(r: Ram, m: ObjNo, ctrl: bv16)
    requires m < RX_LOW_LAST
    ensures forall k :: 0 <= k < 32 && k != m - 1 ==> Reactivated(r, m, ctrl)[k] == r[k]
    ensures Reactivated(r, m, ctrl)[m - 1] == r[m - 1].(ctrl := Reactivated(r, m, ctrl)[m - 1].ctrl)
    ensures Reactivated(r, m, ctrl)[m - 1].ctrl & IF_MCONT_NEWDAT == ctrl & IF_MCONT_NEWDAT
    ensures Reactivated(r, m, ctrl)[m - 1].ctrl & (IF_MCONT_MSGLST | IF_MCONT_INTPND) == 0
  {
  }

  /** Above object 8 only the object itself changes: MSGLST, INTPND and NEWDAT cleared. */
  lemma ReactivatedAbove(r: Ram, m: ObjNo, ctrl: bv16)
    requires m > RX_LOW_LAST
    ensures forall k :: 0 <= k < 32 && k != m - 1 ==> Reactivated(r, m, ctrl)[k] == r[k]
    ensures Reactivated(r, m, ctrl)[m - 1] == r[m - 1].(ctrl := Reactivated(r, m, ctrl)[m - 1].ctrl)
    ensures Reactivated(r, m, ctrl)[m - 1].ctrl & (IF_MCONT_MSGLST | IF_MCONT_INTPND | IF_MCONT_NEWDAT) == 0
  {
  }

  /**
   * At object 8 objects 1..8 all get the same control word with MSGLST,
   * INTPND and NEWDAT cleared; objects 9..32 stay as they were.
   */
  lemma ReactivatedAtSplit(r: Ram, ctrl: bv16)
    ensures forall k :: RX_LOW_LAST <= k < 32 ==> Reactivated(r, RX_LOW_LAST, ctrl)[k] == r[k]
    ensures forall k :: 0 <= k < RX_LOW_LAST ==>
              Reactivated(r, RX_LOW_LAST, ctrl)[k] == r[k].(ctrl := ActivateCtrl(ctrl))
    ensures ActivateCtrl(ctrl) & (IF_MCONT_MSGLST | IF_MCONT_INTPND | IF_MCONT_NEWDAT) == 0
  {
  }

  /** A get with the receive mask loads the object into bank 0 and leaves the RAM as it was. */
  lemma {:induction false} GetRxLoads(d: Dev, m: ObjNo)
    ensures ObjectGet(d, 0, m, IF_COMM_RX).ram == d.ram
    ensures Bank(ObjectGet(d, 0, m, IF_COMM_RX), 0) == d.ram[m - 1]
    ensures ReadIf(ObjectGet(d, 0, m, IF_COMM_RX), 0, IF_MSGCTRL) == d.ram[m - 1].ctrl
    ensures OnlyObjects(d, ObjectGet(d, 0, m, IF_COMM_RX))
  {
    ObjectGetLoads(d, 0, m, IF_COMM_RX);
    GetRxObj(d.ram[m - 1]);
    GetRxBank(Bank(d, 0), d.ram[m - 1]);
  }

  /** Two snapshots that differ at most in the banks, the RAM and the events delivered. */
  predicate OnlyObjectsAndOut(a: Dev, b: Dev)
  {
    OnlyObjects(a, b.(out := a.out))
  }

  lemma OnlyObjectsAndOutTrans(a: Dev, b: Dev, c: Dev)
    requires OnlyObjectsAndOut(a, b) && OnlyObjectsAndOut(b, c)
    ensures OnlyObjectsAndOut(a, c)
  {
  }

  // The four outcomes of a pending object, on the snapshot after the get.

  lemma PendingLost(d1: Dev, m: ObjNo, count: nat, buf: Frame)
    requires ReadIf(d1, 0, IF_MSGCTRL) & IF_MCONT_EOB == 0 && ReadIf(d1, 0, IF_MSGCTRL) & IF_MCONT_MSGLST != 0
    ensures var v := HandlePending(d1, m, count, buf);
            !v.stop && v.count == count + 1 && v.buf == buf && v.d.out == d1.out + [Rcv(LostFrame)] &&
            v.d.ram == d1.ram[m - 1 := d1.ram[m - 1].(ctrl := 0)] && OnlyObjectsAndOut(d1, v.d)
  {
    HandleLostStores(d1, m);
  }

  lemma PendingReceive(d1: Dev, m: ObjNo, count: nat, buf: Frame)
    requires ReadIf(d1, 0, IF_MSGCTRL) & IF_MCONT_EOB == 0 && ReadIf(d1, 0, IF_MSGCTRL) & IF_MCONT_MSGLST == 0
    requires ReadIf(d1, 0, IF_MSGCTRL) & IF_MCONT_NEWDAT != 0
    ensures var v := HandlePending(d1, m, count, buf);
            var f := ReadMsgObject(d1, ReadIf(d1, 0, IF_MSGCTRL), buf);
            !v.stop && v.count == count + 1 && v.buf == f && v.d.out == d1.out + [Rcv(f)] &&
            v.d.ram == Reactivated(d1.ram, m, ReadIf(d1, 0, IF_MSGCTRL)) && OnlyObjectsAndOut(d1, v.d)
  {
    ReactivateStores(d1, ReadIf(d1, 0, IF_MSGCTRL), m);
  }

  /** An object whose INTPND bit is clear is not touched. */
  lemma VisitIdle(d: Dev, val: bv32, m: ObjNo, count: nat, buf: Frame)
    requires !Pending(val, m)
    ensures VisitObject(d, val, m, count, buf) == Visit(d, count, buf, false)
  {
  }

  /** A pending object with EOB set ends the pass before any delivery or write to the RAM. */
  lemma {:induction false} VisitEob(d: Dev, val: bv32, m: ObjNo, count: nat, buf: Frame)
    requires Pending(val, m) && d.ram[m - 1].ctrl & IF_MCONT_EOB != 0
    ensures var v := VisitObject(d, val, m, count, buf);
            v.stop && v.count == count && v.d.out == d.out && v.d.ram == d.ram
  {
    GetRxLoads(d, m);
  }

  /** A pending object with neither EOB, MSGLST nor NEWDAT is skipped: no put, no delivery. */
  lemma {:induction false} VisitNoNewData(d: Dev, val: bv32, m: ObjNo, count: nat, buf: Frame)
    requires Pending(val, m) && d.ram[m - 1].ctrl & IF_MCONT_EOB == 0
    requires d.ram[m - 1].ctrl & IF_MCONT_MSGLST == 0 && d.ram[m - 1].ctrl & IF_MCONT_NEWDAT == 0
    ensures var v := VisitObject(d, val, m, count, buf);
            !v.stop && v.count == count && v.d.out == d.out && v.d.ram == d.ram
  {
    GetRxLoads(d, m);
  }

  /**
   * A pending object with MSGLST (and no EOB) gets control word 0, one
   * overflow error frame is delivered and the count rises by one.
   */
  lemma {:induction false} VisitLost(d: Dev, val: bv32, m: ObjNo, count: nat, buf: Frame)
    requires Pending(val, m) && d.ram[m - 1].ctrl & IF_MCONT_EOB == 0
    requires d.ram[m - 1].ctrl & IF_MCONT_MSGLST != 0
    ensures var v := VisitObject(d, val, m, count, buf);
            !v.stop && v.count == count + 1 && v.d.out == d.out + [Rcv(LostFrame)] &&
            v.d.ram == d.ram[m - 1 := d.ram[m - 1].(ctrl := 0)]
  {
    GetRxLoads(d, m);
    PendingLost(ObjectGet(d, 0, m, IF_COMM_RX), m, count, buf);
  }

  /** The frame a pass delivers for object obj, read into buffer buf. */
  function Received(obj: MsgObj, buf: Frame): Frame
  {
    DecodeFrame(obj.arb1, obj.arb2, obj.ctrl, Words(obj), buf)
  }

  /**
   * A pending object with new data (no EOB, no MSGLST) is decoded and
   * delivered, becomes the buffer for the next object, the count rises by
   * one, and the RAM is reactivated as Reactivated describes.
   */
  lemma {:induction false} VisitReceive(d: Dev, val: bv32, m: ObjNo, count: nat, buf: Frame)
    requires Pending(val, m) && d.ram[m - 1].ctrl & IF_MCONT_EOB == 0
    requires d.ram[m - 1].ctrl & IF_MCONT_MSGLST == 0 && d.ram[m - 1].ctrl & IF_MCONT_NEWDAT != 0
    ensures var v := VisitObject(d, val, m, count, buf);
            var f := Received(d.ram[m - 1], buf);
            !v.stop && v.count == count + 1 && v.buf == f && v.d.out == d.out + [Rcv(f)] &&
            v.d.ram == Reactivated(d.ram, m, d.ram[m - 1].ctrl)
  {
    var d1 := ObjectGet(d, 0, m, IF_COMM_RX);
    GetRxLoads(d, m);
    PendingReceive(d1, m, count, buf);
    ReadMsgObjectDecodes(d1, d.ram[m - 1].ctrl, buf);
  }

  /** The three reactivation branches of the pass, against the reference. */
  lemma {:induction false} ReactivateStores(d: Dev, ctrl: bv16, m: ObjNo)
    ensures Reactivate(d, ctrl, m).ram == Reactivated(d.ram, m, ctrl)
    ensures OnlyObjects(d, Reactivate(d, ctrl, m))
  {
    if m < RX_LOW_LAST {
      PutCtrlStores(d, MarkCtrl(ctrl), m);
    } else if m > RX_LOW_LAST {
      PutCtrlStores(d, ActivateCtrl(ctrl), m);
    } else {
      ActivateAllLowerFromStores(d, ctrl, RX_FIRST);
    }
  }

  /** Reactivating a receive object leaves the transmit objects 17..32 as they were. */
  lemma ReactivatedKeepsTx(r: Ram, m: ObjNo, ctrl: bv16)
    requires m <= RX_LAST
    ensures forall k :: RX_LAST <= k < 32 ==> Reactivated(r, m, ctrl)[k] == r[k]
  {
    if m < RX_LOW_LAST {
      ReactivatedBelow(r, m, ctrl);
    } else if m > RX_LOW_LAST {
      ReactivatedAbove(r, m, ctrl);
    } else {
      ReactivatedAtSplit(r, ctrl);
    }
  }

  /** HandlePending counts what it appends and confines its changes, as VisitFrame states for a whole turn. */
  lemma {:induction false} PendingFrame(d1: Dev, m: ObjNo, count: nat, buf: Frame)
    requires m <= RX_LAST
    ensures var v := HandlePending(d1, m, count, buf);
            count <= v.count <= count + 1 && |v.d.out| == |d1.out| + (v.count - count) && d1.out <= v.d.out &&
            OnlyObjectsAndOut(d1, v.d) && forall k :: RX_LAST <= k < 32 ==> v.d.ram[k] == d1.ram[k]
  {
    var c := ReadIf(d1, 0, IF_MSGCTRL);
    if c & IF_MCONT_EOB != 0 {
    } else if c & IF_MCONT_MSGLST != 0 {
      PendingLost(d1, m, count, buf);
    } else if c & IF_MCONT_NEWDAT == 0 {
    } else {
      PendingReceive(d1, m, count, buf);
      ReactivatedKeepsTx(d1.ram, m, c);
    }
  }

  /**
   * One receive object's turn: at most one event is delivered and counted,
   * earlier events stay, the transmit objects 17..32 are untouched and only
   * the banks and the RAM change.
   */
  lemma {:induction false} VisitFrame(d: Dev, val: bv32, m: ObjNo, count: nat, buf: Frame)
    requires m <= RX_LAST
    ensures var v := VisitObject(d, val, m, count, buf);
            count <= v.count <= count + 1 && |v.d.out| == |d.out| + (v.count - count) && d.out <= v.d.out &&
            OnlyObjectsAndOut(d, v.d) && forall k :: RX_LAST <= k < 32 ==> v.d.ram[k] == d.ram[k]
  {
    if Pending(val, m) {
      var d1 := ObjectGet(d, 0, m, IF_COMM_RX);
      GetRxLoads(d, m);
      PendingFrame(d1, m, count, buf);
      OnlyObjectsAndOutTrans(d, d1, HandlePending(d1, m, count, buf).d);
    }
  }

  /**
   * A pass from object m on: the returned count is the number of events it
   * appends (at most one per remaining object), earlier events stay, the
   * transmit objects are untouched and only the banks and the RAM change.
   */
  lemma {:induction false} RxPollFrame(d: Dev, pend: seq<bv32>, m: nat, count: nat, buf: Frame)
    requires RX_FIRST <= m <= RX_LAST + 1 && |pend| >= RX_LAST
    ensures var p := RxPollFrom(d, pend, m, count, buf);
            count <= p.count <= count + (RX_LAST + 1 - m) &&
            |p.d.out| == |d.out| + (p.count - count) && d.out <= p.d.out &&
            OnlyObjectsAndOut(d, p.d) && forall k :: RX_LAST <= k < 32 ==> p.d.ram[k] == d.ram[k]
    decreases RX_LAST + 1 - m
  {
    if m <= RX_LAST {
      var v := VisitObject(d, pend[m - 1], m, count, buf);
      VisitFrame(d, pend[m - 1], m, count, buf);
      if !v.stop {
        RxPollFrame(v.d, pend, m + 1, v.count, v.buf);
        OnlyObjectsAndOutTrans(d, v.d, RxPollFrom(v.d, pend, m + 1, v.count, v.buf).d);
      }
    }
  }
}
