/**
 * The transmit ring: objects 17..32 used in turn by the free-running
 * counters tx_next (next object to fill) and tx_echo (oldest object not yet
 * confirmed), c_can_start_xmit, and the confirmation scan of c_can_do_tx.
 *
 * TXRQST is cleared by the controller when a frame has gone out and the
 * scan re-reads it for every object, so the values it sees are an input:
 * rqst[i] is the value read on the i-th turn.
 */
module Tx {
  import opened CanFrame
  import opened MsgObject
  import opened Device
  import opened Objects

  /** C_CAN_MSG_OBJ_TX_FIRST and C_CAN_MSG_OBJ_TX_NUM. */
  const TX_FIRST: ObjNo := 17
  const TX_NUM: nat := 16

  /** 2^32, the period of an unsigned int counter. */
  const WRAP: int := 0x1_0000_0000

  /**
   * get_tx_next_msg_obj / get_tx_echo_msg_obj: (c & C_CAN_NEXT_MSG_OBJ_MASK)
   * + 17, where the mask 15 on a non-negative counter is c % 16.
   */
  function TxObj(c: U32): (o: ObjNo)
    ensures TX_FIRST <= o
  {
    c % TX_NUM + TX_FIRST
  }

  /** Counting up moves to the next transmit object, from 32 back to 17, also when the counter wraps. */
  lemma TxObjNext(c: U32)
    ensures TxObj(Inc(c)) == if TxObj(c) == 32 then TX_FIRST else TxObj(c) + 1
  {
  }

  /** c_can_start_xmit: fill the object tx_next names through interface 0, then count tx_next up. */
  function StartXmit(d: Dev, f: Frame): Dev
    requires f.dlc <= CAN_MAX_DLC
  {
    WriteMsgObject(d, f, TxObj(d.txNext)).(txNext := Inc(d.txNext))
  }

  /**
   * The frame goes into object TxObj(tx_next) with transmission requested,
   * tx_next rises by one, and nothing else but bank 0 changes.
   */
  lemma {:induction false} StartXmitStores(d: Dev, f: Frame)
    requires f.dlc <= CAN_MAX_DLC
    ensures StartXmit(d, f).ram == d.ram[TxObj(d.txNext) - 1 := TxBank(Bank(d, 0), f)]
    ensures StartXmit(d, f).txNext == Inc(d.txNext)
    ensures OnlyObjects(d, StartXmit(d, f).(txNext := d.txNext))
  {
    WriteMsgObjectStores(d, f, TxObj(d.txNext));
  }

  /** tx_next - tx_echo as unsigned ints: how many objects the scan may confirm. */
  function Dist(n: U32, e: U32): (k: nat)
    ensures k < WRAP
  {
    if e <= n then n - e else n - e + WRAP
  }

  /** Dist is the unsigned difference, that is the difference modulo 2^32. */
  lemma DistIsModular(n: U32, e: U32)
    ensures Dist(n, e) == (n - e) % WRAP
  {
  }

  lemma DistZero(n: U32, e: U32)
    ensures Dist(n, e) == 0 <==> n == e
  {
  }

  lemma DistStep(n: U32, e: U32)
    requires n != e
    ensures Dist(n, Inc(e)) == Dist(n, e) - 1
  {
  }

  /** The counter value after i increments from e. */
  function Adv(e: U32, i: nat): U32
    decreases i
  {
    if i == 0 then e else Adv(Inc(e), i - 1)
  }

  /** i increments of an unsigned int add i modulo 2^32. */
  lemma {:induction false} AdvIsModular(e: U32, i: nat)
    ensures Adv(e, i) == (e + i) % WRAP
    decreases i
  {
    if i > 0 {
      AdvIsModular(Inc(e), i - 1);
    }
  }

  /**
   * The loop of c_can_do_tx with tx_echo at echo: while tx_echo differs
   * from tx_next, an object whose TXRQST bit reads clear is invalidated and
   * tx_echo counts up; the first object still requesting releases the
   * semaphore and ends the loop.
   */
  function Scan(d: Dev, echo: U32, rqst: seq<bv32>): Dev
    requires |rqst| >= Dist(d.txNext, echo)
    decreases Dist(d.txNext, echo)
  {
    if d.txNext == echo then d.(txEcho := echo)
    else
      var o := TxObj(echo);
      if Pending(rqst[0], o) then d.(txEcho := echo, sem := SemUp(d.sem))
      else
        DistStep(d.txNext, echo);
        InvalKeepsCounters(d, o);
        Scan(InvalMsgObject(d, o).(txEcho := Inc(echo)), Inc(echo), rqst[1..])
  }

  /** c_can_do_tx: the scan, then one more release on a wrap of tx_next or when tx_echo sits at object 17. */
  function DoTx(d: Dev, rqst: seq<bv32>): Dev
    requires |rqst| >= Dist(d.txNext, d.txEcho)
  {
    var d1 := Scan(d, d.txEcho, rqst);
    if d1.txNext % TX_NUM != 0 || d1.txEcho % TX_NUM == 0 then d1.(sem := SemUp(d1.sem)) else d1
  }

  /**
   * Whether each of the first k turns from counter value e finds the TXRQST
   * bit of its object clear, that is the frame there gone out.
   */
  function Clear(rqst: seq<bv32>, e: U32, k: nat): (c: seq<bool>)
    requires |rqst| >= k
    ensures |c| == k
  {
    seq(k, i requires 0 <= i < k => !Pending(rqst[i], TxObj(Adv(e, i))))
  }

  /** The length of the leading run of true values. */
  function FirstFalse(c: seq<bool>): (s: nat)
    ensures s <= |c|
    ensures forall i :: 0 <= i < s ==> c[i]
    ensures s < |c| ==> !c[s]
  {
    if |c| == 0 || !c[0] then 0 else 1 + FirstFalse(c[1..])
  }

  /** Moving one turn on drops the first entry. */
  lemma ClearStep(rqst: seq<bv32>, e: U32, k: nat)
    requires |rqst| >= k > 0
    ensures Clear(rqst, e, k)[0] == !Pending(rqst[0], TxObj(e))
    ensures Clear(rqst, e, k)[1..] == Clear(rqst[1..], Inc(e), k - 1)
  {
  }

  /**
   * The reference count, defined apart from the loop: the number of turns
   * from tx_echo towards tx_next whose objects have all gone out.
   */
  function Skipped(n: U32, e: U32, rqst: seq<bv32>): (s: nat)
    requires |rqst| >= Dist(n, e)
    ensures s <= Dist(n, e)
  {
    FirstFalse(Clear(rqst, e, Dist(n, e)))
  }

  /**
   * Skipped is the first turn at which the loop must stop: every object
   * before it has gone out, and when it stops short of tx_next the object
   * there is still requesting.
   */
  lemma SkippedIsFirstStop(n: U32, e: U32, rqst: seq<bv32>)
    requires |rqst| >= Dist(n, e)
    ensures forall i :: 0 <= i < Skipped(n, e, rqst) ==> !Pending(rqst[i], TxObj(Adv(e, i)))
    ensures Skipped(n, e, rqst) < Dist(n, e) ==>
              Pending(rqst[Skipped(n, e, rqst)], TxObj(Adv(e, Skipped(n, e, rqst))))
  {
    var c := Clear(rqst, e, Dist(n, e));
    var s := Skipped(n, e, rqst);
    forall i | 0 <= i < s
      ensures !Pending(rqst[i], TxObj(Adv(e, i)))
    {
      assert c[i];
    }
    if s < Dist(n, e) {
      assert !c[s];
    }
  }

  /** The loop stops at once when tx_echo has reached tx_next or its object is still requesting. */
  lemma SkippedStop(n: U32, e: U32, rqst: seq<bv32>)
    requires |rqst| >= Dist(n, e)
    requires n == e || Pending(rqst[0], TxObj(e))
    ensures Skipped(n, e, rqst) == 0
  {
    DistZero(n, e);
    if n != e {
      ClearStep(rqst, e, Dist(n, e));
    }
  }

  /** Past an object that has gone out, the count is one more than from the next counter value. */
  lemma SkippedNext(n: U32, e: U32, rqst: seq<bv32>)
    requires |rqst| >= Dist(n, e)
    requires n != e && !Pending(rqst[0], TxObj(e))
    ensures |rqst[1..]| >= Dist(n, Inc(e))
    ensures Skipped(n, e, rqst) == 1 + Skipped(n, Inc(e), rqst[1..])
  {
    DistStep(n, e);
    var k := Dist(n, e);
    ClearStep(rqst, e, k);
    FirstFalseStep(Clear(rqst, e, k), Clear(rqst[1..], Inc(e), k - 1));
  }

  /** A leading true value adds one to the run. */
  lemma FirstFalseStep(c: seq<bool>, c1: seq<bool>)
    requires |c| > 0 && c[0]
    requires c[1..] == c1
    ensures FirstFalse(c) == 1 + FirstFalse(c1)
  {
  }

  /** The RAM with the s transmit objects from counter value e on invalidated, in ring order. */
  function InvalidatedFrom(r: Ram, e: U32, s: nat): Ram
    decreases s
  {
    if s == 0 then r
    else
      var o := TxObj(e);
      InvalidatedFrom(r[o - 1 := Invalidated(r[o - 1])], Inc(e), s - 1)
  }

  /**
   * One invalidation, then the rest from the next counter value, stated for
   * a RAM value a reached through b and an object o already named.
   */
  lemma InvalidatedFromStep(a: Ram, b: Ram, r: Ram, r0: Ram, o: ObjNo, e: U32, s1: nat, s: nat)
    requires a == b
    requires b == InvalidatedFrom(r0, Inc(e), s1)
    requires o == TxObj(e)
    requires r0 == r[o - 1 := Invalidated(r[o - 1])]
    requires s == 1 + s1
    ensures a == InvalidatedFrom(r, e, s)
  {
  }

  /** The RAM indices of the objects the first s turns from e visit. */
  function Visited(e: U32, s: nat): set<int>
  {
    set i | 0 <= i < s :: TxObj(Adv(e, i)) - 1
  }

  /**
   * Exactly the visited objects are invalidated, whatever the order and
   * however often the ring comes round (invalidation is idempotent), and
   * every other object, among them all receive objects, is kept.
   */
  lemma {:induction false} InvalidatedFromVisited(r: Ram, e: U32, s: nat)
    ensures forall k :: 0 <= k < 32 ==>
              InvalidatedFrom(r, e, s)[k] == if k in Visited(e, s) then Invalidated(r[k]) else r[k]
    decreases s
  {
    if s > 0 {
      var o := TxObj(e);
      var r1 := r[o - 1 := Invalidated(r[o - 1])];
      InvalidatedFromVisited(r1, Inc(e), s - 1);
      VisitedStep(e, s);
    }
  }

  /** The receive objects 1..16 are never visited, so the scan keeps them. */
  lemma InvalidatedFromKeepsRx(r: Ram, e: U32, s: nat)
    ensures forall k :: 0 <= k < TX_FIRST - 1 ==> InvalidatedFrom(r, e, s)[k] == r[k]
  {
    InvalidatedFromVisited(r, e, s);
  }

  /** The first turn visits TxObj(e); the others are the turns from the next counter value. */
  lemma VisitedStep(e: U32, s: nat)
    requires s > 0
    ensures Visited(e, s) == {TxObj(e) - 1} + Visited(Inc(e), s - 1)
  {
    forall k | k in Visited(e, s)
      ensures k in {TxObj(e) - 1} + Visited(Inc(e), s - 1)
    {
      var i :| 0 <= i < s && k == TxObj(Adv(e, i)) - 1;
      if i > 0 {
        assert k == TxObj(Adv(Inc(e), i - 1)) - 1;
      }
    }
    forall k | k in Visited(Inc(e), s - 1)
      ensures k in Visited(e, s)
    {
      var i :| 0 <= i < s - 1 && k == TxObj(Adv(Inc(e), i)) - 1;
      assert k == TxObj(Adv(e, i + 1)) - 1;
    }
  }

  /** Invalidation keeps the ring counters and the semaphore. */
  lemma InvalKeepsCounters(d: Dev, o: ObjNo)
    ensures InvalMsgObject(d, o).txNext == d.txNext
    ensures InvalMsgObject(d, o).sem == d.sem
  {
  }

  /** Invalidation stores the cleared object and nothing else into the RAM. */
  lemma InvalRam(d: Dev, o: ObjNo)
    ensures InvalMsgObject(d, o).ram == d.ram[o - 1 := Invalidated(d.ram[o - 1])]
  {
    InvalMsgObjectClears(d, o);
  }

  /** Invalidation changes only the banks and the RAM. */
  lemma InvalFrame(d: Dev, o: ObjNo)
    ensures OnlyObjects(d, InvalMsgObject(d, o))
  {
    InvalMsgObjectClears(d, o);
  }

  /** Where the loop stops, it records tx_echo and releases the semaphore iff an object is still requesting. */
  lemma ScanStop(d: Dev, echo: U32, rqst: seq<bv32>)
    requires |rqst| >= Dist(d.txNext, echo)
    requires d.txNext == echo || Pending(rqst[0], TxObj(echo))
    ensures Scan(d, echo, rqst) ==
            d.(txEcho := echo, sem := if d.txNext == echo then d.sem else SemUp(d.sem))
  {
  }

  /** Past an object that has gone out, the loop goes on from the invalidated snapshot. */
  lemma ScanNext(d: Dev, echo: U32, rqst: seq<bv32>)
    requires |rqst| >= Dist(d.txNext, echo)
    requires d.txNext != echo && !Pending(rqst[0], TxObj(echo))
    ensures InvalMsgObject(d, TxObj(echo)).txNext == d.txNext
    ensures |rqst[1..]| >= Dist(d.txNext, Inc(echo))
    ensures Scan(d, echo, rqst) == Scan(InvalMsgObject(d, TxObj(echo)).(txEcho := Inc(echo)), Inc(echo), rqst[1..])
  {
    DistStep(d.txNext, echo);
    InvalKeepsCounters(d, TxObj(echo));
  }

  /** One increment more, taken first. */
  lemma AdvStep(e: U32, i: nat)
    ensures Adv(e, 1 + i) == Adv(Inc(e), i)
  {
  }

  /** The loop leaves tx_echo moved on by the reference count. */
  lemma {:induction false} ScanEcho(d: Dev, echo: U32, rqst: seq<bv32>)
    requires |rqst| >= Dist(d.txNext, echo)
    ensures Scan(d, echo, rqst).txEcho == Adv(echo, Skipped(d.txNext, echo, rqst))
    decreases Dist(d.txNext, echo)
  {
    if d.txNext != echo && !Pending(rqst[0], TxObj(echo)) {
      var r1 := rqst[1..];
      SkippedNext(d.txNext, echo, rqst);
      ScanNext(d, echo, rqst);
      ScanEcho(InvalMsgObject(d, TxObj(echo)).(txEcho := Inc(echo)), Inc(echo), r1);
      AdvStep(echo, Skipped(d.txNext, Inc(echo), r1));
    } else {
      SkippedStop(d.txNext, echo, rqst);
      ScanStop(d, echo, rqst);
    }
  }

  /** The loop releases the semaphore once exactly when it stops short of tx_next. */
  lemma {:induction false} ScanSem(d: Dev, echo: U32, rqst: seq<bv32>)
    requires |rqst| >= Dist(d.txNext, echo)
    ensures Scan(d, echo, rqst).sem ==
            if Skipped(d.txNext, echo, rqst) < Dist(d.txNext, echo) then SemUp(d.sem) else d.sem
    decreases Dist(d.txNext, echo)
  {
    if d.txNext != echo && !Pending(rqst[0], TxObj(echo)) {
      SkippedNext(d.txNext, echo, rqst);
      ScanNext(d, echo, rqst);
      InvalKeepsCounters(d, TxObj(echo));
      ScanSem(InvalMsgObject(d, TxObj(echo)).(txEcho := Inc(echo)), Inc(echo), rqst[1..]);
    } else {
      SkippedStop(d.txNext, echo, rqst);
      ScanStop(d, echo, rqst);
      DistZero(d.txNext, echo);
    }
  }

  /** The loop invalidates exactly the objects it moved tx_echo past. */
  lemma {:induction false} ScanRam(d: Dev, echo: U32, rqst: seq<bv32>)
    requires |rqst| >= Dist(d.txNext, echo)
    ensures Scan(d, echo, rqst).ram == InvalidatedFrom(d.ram, echo, Skipped(d.txNext, echo, rqst))
    decreases Dist(d.txNext, echo)
  {
    if d.txNext != echo && !Pending(rqst[0], TxObj(echo)) {
      var o := TxObj(echo);
      var r1 := rqst[1..];
      SkippedNext(d.txNext, echo, rqst);
      ScanNext(d, echo, rqst);
      var d0 := InvalMsgObject(d, o).(txEcho := Inc(echo));
      var s1 := Skipped(d.txNext, Inc(echo), r1);
      InvalRam(d, o);
      ScanRam(d0, Inc(echo), r1);
      InvalidatedFromStep(Scan(d, echo, rqst).ram, Scan(d0, Inc(echo), r1).ram, d.ram, d0.ram, o, echo, s1,
                          Skipped(d.txNext, echo, rqst));
    } else {
      SkippedStop(d.txNext, echo, rqst);
      ScanStop(d, echo, rqst);
    }
  }

  /** Besides tx_echo and the semaphore, the loop changes only the banks and the RAM. */
  lemma {:induction false} ScanFrame(d: Dev, echo: U32, rqst: seq<bv32>)
    requires |rqst| >= Dist(d.txNext, echo)
    ensures OnlyObjects(d, Scan(d, echo, rqst).(txEcho := d.txEcho, sem := d.sem))
    decreases Dist(d.txNext, echo)
  {
    if d.txNext != echo && !Pending(rqst[0], TxObj(echo)) {
      var o := TxObj(echo);
      var d0 := InvalMsgObject(d, o).(txEcho := Inc(echo));
      SkippedNext(d.txNext, echo, rqst);
      ScanNext(d, echo, rqst);
      InvalFrame(d, o);
      ScanFrame(d0, Inc(echo), rqst[1..]);
      OnlyObjectsTrans(d, d0.(txEcho := d.txEcho, sem := d.sem),
                       Scan(d0, Inc(echo), rqst[1..]).(txEcho := d.txEcho, sem := d.sem));
    } else {
      ScanStop(d, echo, rqst);
    }
  }

  /** The loop never carries tx_echo past tx_next: what is left outstanding is the distance less the count. */
  lemma {:induction false} DistAdv(n: U32, e: U32, s: nat)
    requires s <= Dist(n, e)
    ensures Dist(n, Adv(e, s)) == Dist(n, e) - s
    decreases s
  {
    if s > 0 {
      DistZero(n, e);
      DistStep(n, e);
      DistAdv(n, Inc(e), s - 1);
    }
  }

  /**
   * c_can_do_tx as a whole: tx_echo moves on by the reference count and
   * never past tx_next, the objects it moves past are invalidated, the
   * semaphore is released once when the loop stalls on a requesting object
   * and once more when tx_next does not sit at object 17 or tx_echo does,
   * and the rest of the snapshot is kept apart from the banks.
   */
  lemma DoTxResult(d: Dev, rqst: seq<bv32>)
    requires |rqst| >= Dist(d.txNext, d.txEcho)
    ensures var s := Skipped(d.txNext, d.txEcho, rqst);
            var e := Adv(d.txEcho, s);
            var d1 := DoTx(d, rqst);
            d1.txEcho == e &&
            Dist(d.txNext, e) == Dist(d.txNext, d.txEcho) - s &&
            d1.ram == InvalidatedFrom(d.ram, d.txEcho, s) &&
            d1.sem == d.sem.(count := d.sem.count +
                                      (if s < Dist(d.txNext, d.txEcho) then 1 else 0) +
                                      (if d.txNext % TX_NUM != 0 || e % TX_NUM == 0 then 1 else 0)) &&
            OnlyObjects(d, d1.(txEcho := d.txEcho, sem := d.sem))
  {
    var s := Skipped(d.txNext, d.txEcho, rqst);
    ScanEcho(d, d.txEcho, rqst);
    ScanSem(d, d.txEcho, rqst);
    ScanRam(d, d.txEcho, rqst);
    ScanFrame(d, d.txEcho, rqst);
    DistAdv(d.txNext, d.txEcho, s);
  }
}
