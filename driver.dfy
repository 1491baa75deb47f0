/**
 * The driver's loops as the source writes them: fields of the controller's
 * private structure and of the RTCAN device (tx_next, tx_echo, the saved
 * status words, the semaphore, the events delivered) updated in place by
 * c_can_do_tx, c_can_do_rx_poll, c_can_configure_msg_objects and
 * c_can_activate_all_lower_rx_msg_obj. Each method is proved against the
 * function of the same name on snapshots, whose properties the other
 * modules prove.
 */
module Driver {
  import opened CanFrame
  import opened Registers
  import opened BitTiming
  import opened MsgObject
  import opened Device
  import opened Objects
  import opened Config
  import opened Rx
  import opened Tx

  class CCan {
    var regs: RegFile
    var ram: Ram
    var txNext: U32
    var txEcho: U32
    var currentStatus: bv16
    var lastStatus: bv16
    var irqStatus: bv16
    var state: CanState
    var sem: Sem
    var ctrlMode: bv32
    var bitTime: BitTime
    var out: seq<Event>

    /** The snapshot the fields make up. */
    function Model(): Dev
      reads this
    {
      Dev(regs, ram, txNext, txEcho, currentStatus, lastStatus, irqStatus, state, sem, ctrlMode, bitTime, out)
    }

    constructor (d: Dev)
      ensures Model() == d
    {
      regs, ram, txNext, txEcho := d.regs, d.ram, d.txNext, d.txEcho;
      currentStatus, lastStatus, irqStatus := d.currentStatus, d.lastStatus, d.irqStatus;
      state, sem, ctrlMode, bitTime, out := d.state, d.sem, d.ctrlMode, d.bitTime, d.out;
    }

    /** Take over the registers and the RAM of d, which differs from the current snapshot in nothing else. */
    method StoreObjects(d: Dev)
      requires OnlyObjects(Model(), d)
      modifies this
      ensures Model() == d
    {
      regs, ram := d.regs, d.ram;
    }

    /** c_can_inval_msg_object on interface 0. */
    method InvalMsgObject(objno: ObjNo)
      modifies this
      ensures Model() == Objects.InvalMsgObject(old(Model()), objno)
    {
      Tx.InvalFrame(Model(), objno);
      StoreObjects(Objects.InvalMsgObject(Model(), objno));
    }

    /** Take over the registers, the RAM and the events of d, which differs from the current snapshot in nothing else. */
    method StoreObjectsAndOut(d: Dev)
      requires OnlyObjectsAndOut(Model(), d)
      modifies this
      ensures Model() == d
    {
      regs, ram, out := d.regs, d.ram, d.out;
    }

    /** c_can_object_get on interface 0. */
    method ObjectGet(objno: ObjNo, mask: bv16)
      requires mask & IF_COMM_WR == 0
      modifies this
      ensures Model() == Device.ObjectGet(old(Model()), 0, objno, mask)
    {
      ObjectGetLoads(Model(), 0, objno, mask);
      StoreObjects(Device.ObjectGet(Model(), 0, objno, mask));
    }

    /** c_can_setup_receive_object on interface 0. */
    method SetupReceiveObject(objno: ObjNo, mask: bv32, id: bv32, mcont: bv16)
      modifies this
      ensures Model() == Objects.SetupReceiveObject(old(Model()), objno, mask, id, mcont)
    {
      SetupReceiveObjectStores(Model(), objno, mask, id, mcont);
      StoreObjects(Objects.SetupReceiveObject(Model(), objno, mask, id, mcont));
    }

    /** Write control word v to bank 0 and put it alone into object objno. */
    method PutCtrl(v: bv16, objno: ObjNo)
      modifies this
      ensures Model() == Rx.PutCtrl(old(Model()), v, objno)
    {
      PutCtrlStores(Model(), v, objno);
      StoreObjects(Rx.PutCtrl(Model(), v, objno));
    }

    /** c_can_handle_lost_msg_obj on interface 0. */
    method HandleLostMsgObj(objno: ObjNo)
      modifies this
      ensures Model() == Rx.HandleLostMsgObj(old(Model()), objno)
    {
      HandleLostStores(Model(), objno);
      StoreObjectsAndOut(Rx.HandleLostMsgObj(Model(), objno));
    }

    /** rtcan_rcv: hand frame f to the socket layer. */
    method Deliver(f: Frame)
      modifies this
      ensures Model() == old(Model()).(out := old(out) + [Rcv(f)])
    {
      out := out + [Rcv(f)];
    }

    /** priv->tx_echo++. */
    method AdvanceEcho()
      modifies this
      ensures Model() == old(Model()).(txEcho := Inc(old(txEcho)))
    {
      txEcho := Inc(txEcho);
    }

    /** rtdm_sem_up(&dev->tx_sem). */
    method SemUp()
      modifies this
      ensures Model() == old(Model()).(sem := Device.SemUp(old(sem)))
    {
      sem := Device.SemUp(sem);
    }

    /**
     * c_can_do_tx. The k-th TXRQST read of the loop returns rqst[k]. The
     * loop runs while tx_echo differs from tx_next, invalidates each object
     * whose request bit reads clear and stops at the first one still
     * requesting, after releasing the semaphore.
     */
    method DoTx(rqst: seq<bv32>)
      requires |rqst| >= Dist(txNext, txEcho)
      modifies this
      ensures Model() == Tx.DoTx(old(Model()), rqst)
    {
      ghost var target := Scan(Model(), txEcho, rqst);
      var i := 0;
      while txNext != txEcho
        invariant 0 <= i <= |rqst|
        invariant |rqst[i..]| >= Dist(txNext, txEcho)
        invariant Scan(Model(), txEcho, rqst[i..]) == target
        decreases Dist(txNext, txEcho)
      {
        var o := TxObj(txEcho);
        var val := rqst[i];
        if Pending(val, o) {
          ScanStop(Model(), txEcho, rqst[i..]);
          SemUp();
          break;
        }
        ScanNext(Model(), txEcho, rqst[i..]);
        assert rqst[i..][1..] == rqst[i + 1..];
        InvalMsgObject(o);
        AdvanceEcho();
        i := i + 1;
      }
      if txNext == txEcho {
        ScanStop(Model(), txEcho, rqst[i..]);
      }
      if txNext % TX_NUM != 0 || txEcho % TX_NUM == 0 {
        SemUp();
      }
    }

    /** c_can_activate_all_lower_rx_msg_obj on interface 0: objects 1..8 in increasing order. */
    method ActivateAllLower(ctrl: bv16)
      modifies this
      ensures Model() == ActivateAllLowerFrom(old(Model()), ctrl, RX_FIRST)
    {
      ghost var target := ActivateAllLowerFrom(Model(), ctrl, RX_FIRST);
      var i: nat := RX_FIRST;
      while i <= RX_LOW_LAST
        invariant RX_FIRST <= i <= RX_LOW_LAST + 1
        invariant ActivateAllLowerFrom(Model(), ctrl, i) == target
        decreases RX_LOW_LAST + 1 - i
      {
        ActivateStep(Model(), ctrl, i);
        PutCtrl(ActivateCtrl(ctrl), i);
        i := i + 1;
      }
      ActivateDone(Model(), ctrl);
    }

    /**
     * The body of the c_can_do_rx_poll loop once pending object m has been
     * loaded into bank 0: stop at the end of the FIFO, hand a lost message
     * on as an error frame, skip an object without new data, or read the
     * frame, give the object back to the controller and deliver the frame.
     */
    method VisitPending(m: ObjNo, count: nat, buf: Frame) returns (count': nat, buf': Frame, stop: bool)
      modifies this
      ensures Visit(Model(), count', buf', stop) == HandlePending(old(Model()), m, count, buf)
    {
      count', buf', stop := count, buf, false;
      var ctrl := ReadIf(Model(), 0, IF_MSGCTRL);
      if ctrl & IF_MCONT_EOB != 0 {
        stop := true;
      } else if ctrl & IF_MCONT_MSGLST != 0 {
        HandleLostMsgObj(m);
        count' := count + 1;
      } else if ctrl & IF_MCONT_NEWDAT != 0 {
        buf' := ReadMsgObject(Model(), ctrl, buf);
        if m < RX_LOW_LAST {
          PutCtrl(MarkCtrl(ctrl), m);
        } else if m > RX_LOW_LAST {
          PutCtrl(ActivateCtrl(ctrl), m);
        } else {
          ActivateAllLower(ctrl);
        }
        Deliver(buf');
        count' := count + 1;
      }
    }

    /**
     * c_can_do_rx_poll. The INTPND value tested for object m is pend[m - 1];
     * the frame buffer lives across the objects and starts zeroed. The
     * result is num_rx_pkts.
     */
    method DoRxPoll(pend: seq<bv32>) returns (count: nat)
      requires |pend| >= RX_LAST
      modifies this
      ensures Poll(Model(), count) == RxPollFrom(old(Model()), pend, RX_FIRST, 0, ZeroFrame)
    {
      ghost var target := RxPollFrom(Model(), pend, RX_FIRST, 0, ZeroFrame);
      count := 0;
      var buf := ZeroFrame;
      var m: nat := RX_FIRST;
      while m <= RX_LAST
        invariant RX_FIRST <= m <= RX_LAST + 1
        invariant RxPollFrom(Model(), pend, m, count, buf) == target
        decreases RX_LAST + 1 - m
      {
        if Pending(pend[m - 1], m) {
          ObjectGet(m, IF_COMM_RX);
          var stop;
          count, buf, stop := VisitPending(m, count, buf);
          if stop {
            return;
          }
        }
        m := m + 1;
      }
    }

    /** The first loop of c_can_configure_msg_objects: invalidate objects 1..32. */
    method InvalAll()
      modifies this
      ensures Model() == InvalAllFrom(old(Model()), 1)
    {
      ghost var target := InvalAllFrom(Model(), 1);
      var i: nat := 1;
      while i <= NUM_OBJECTS
        invariant 1 <= i <= NUM_OBJECTS + 1
        invariant InvalAllFrom(Model(), i) == target
        decreases NUM_OBJECTS + 1 - i
      {
        InvalMsgObject(i);
        i := i + 1;
      }
    }

    /** The second loop of c_can_configure_msg_objects: objects 1..15 become receive objects without EOB. */
    method SetupRxFifo()
      modifies this
      ensures Model() == SetupRxFrom(old(Model()), 1)
    {
      ghost var target := SetupRxFrom(Model(), 1);
      var i: nat := 1;
      while i < RX_LAST
        invariant 1 <= i <= RX_LAST
        invariant SetupRxFrom(Model(), i) == target
        decreases RX_LAST - i
      {
        SetupReceiveObject(i, 0, 0, RX_MCONT);
        i := i + 1;
      }
    }

    /** c_can_configure_msg_objects: both loops, then object 16 as the end of the receive FIFO. */
    method ConfigureMsgObjects()
      modifies this
      ensures Model() == Config.ConfigureMsgObjects(old(Model()))
    {
      InvalAll();
      SetupRxFifo();
      SetupReceiveObject(RX_LAST, 0, 0, RX_MCONT_LAST);
    }
  }

  lemma ActivateStep(d: Dev, ctrl: bv16, i: nat)
    requires RX_FIRST <= i <= RX_LOW_LAST
    ensures ActivateAllLowerFrom(d, ctrl, i) == ActivateAllLowerFrom(Rx.PutCtrl(d, ActivateCtrl(ctrl), i), ctrl, i + 1)
  {
  }

  lemma ActivateDone(d: Dev, ctrl: bv16)
    ensures ActivateAllLowerFrom(d, ctrl, RX_LOW_LAST + 1) == d
  {
  }
}
