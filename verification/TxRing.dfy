/** The E1000 transmit ring: `net_send` and the device as two parties that
    interleave at every access to shared memory (section 3.4 of the Intel 8254x
    Software Developer's Manual: the device owns descriptors from head to tail). */
module TxRing {
  import opened Words
  import opened Ring

  /** Where net_send stands. */
  datatype Pc = Ready | Spinning(packet: Frame) | Writing(packet: Frame) | Copied(packet: Frame) | Described(packet: Frame)

  /** Ring, registers and driver index; `submitted` and `wire` record the frames
      handed to net_send and the frames that left. */
  datatype Tx = Tx(desc: seq<Desc>, bufs: seq<seq<u8>>, tdh: nat, tdt: nat, index: nat, pc: Pc,
                   submitted: seq<Frame>, wire: seq<Frame>)

  /** Descriptors handed over and not yet completed. */
  function Outstanding(s: Tx): nat { Distance(s.tdh, s.tdt) }

  predicate Shape(s: Tx) {
    && |s.desc| == RING && |s.bufs| == RING && s.tdh < RING && s.tdt < RING && s.index < RING
    && (forall i | 0 <= i < RING :: |s.bufs[i]| == BUFFER && s.desc[i].length <= BUFFER)
  }

  predicate PacketOk(p: Frame) { 0 < |p| <= BUFFER }

  // --- Steps -----------------------------------------------------------------

  /** The device transmits the descriptor at its head. */
  function DeviceStep(s: Tx): Tx
    requires Shape(s)
  {
    if s.tdh == s.tdt then s
    else s.(desc := s.desc[s.tdh := s.desc[s.tdh].(dd := true)], tdh := Slot(s.tdh, 1),
            wire := s.wire + [s.bufs[s.tdh][..s.desc[s.tdh].length]])
  }

  /** The next access of net_send: test DD, copy, fill the descriptor, move TDT. */
  function DriverStep(s: Tx): Tx
    requires Shape(s) && (s.pc != Ready ==> PacketOk(s.pc.packet))
  {
    match s.pc
    case Ready => s
    case Spinning(p) => if s.desc[s.index].dd then s.(pc := Writing(p)) else s
    case Writing(p) => s.(bufs := s.bufs[s.index := p + s.bufs[s.index][|p|..]], pc := Copied(p))
    case Copied(p) => s.(desc := s.desc[s.index := Desc(|p|, false)], pc := Described(p))
    case Described(p) =>
      s.(tdt := Slot(s.index, 1), index := Slot(s.index, 1), pc := Ready, submitted := s.submitted + [p])
  }

  datatype Action = Submit(packet: Frame) | Driver | Device

  /** net_send is entered when the driver is idle. */
  predicate Enabled(s: Tx, a: Action) {
    a.Submit? ==> s.pc == Ready && PacketOk(a.packet)
  }

  /** The ring can take one more descriptor besides the one that separates tail
      from head. */
  predicate Room(s: Tx) { Outstanding(s) < RING - 1 }

  /** The action moves TDT. */
  predicate MovesTail(s: Tx, a: Action) { a.Driver? && s.pc.Described? }

  function Next(s: Tx, a: Action): Tx
    requires Shape(s) && Enabled(s, a) && (s.pc != Ready ==> PacketOk(s.pc.packet))
  {
    match a
    case Submit(p) => s.(pc := Spinning(p))
    case Driver => DriverStep(s)
    case Device => DeviceStep(s)
  }

  // --- Invariant -------------------------------------------------------------

  /** DD is clear exactly on [TDH, TDT), and on the descriptor being filled. */
  ghost predicate DdOk(s: Tx)
    requires Shape(s)
  {
    forall j | 0 <= j < RING :: s.desc[Slot(s.tdh, j)].dd <==> j > Outstanding(s) || (j == Outstanding(s) && !s.pc.Described?)
  }

  /** The frame in a descriptor's buffer. */
  function FrameAt(s: Tx, i: nat): Frame
    requires Shape(s) && i < RING
  {
    s.bufs[i][..s.desc[i].length]
  }

  /** Device-owned buffers hold the submitted frames that have not left, in order. */
  ghost predicate QueueOk(s: Tx)
    requires Shape(s)
  {
    && |s.submitted| == |s.wire| + Outstanding(s)
    && s.wire == s.submitted[..|s.wire|]
    && forall j | 0 <= j < Outstanding(s) :: FrameAt(s, Slot(s.tdh, j)) == s.submitted[|s.wire| + j]
  }

  ghost predicate DriverOk(s: Tx)
    requires Shape(s)
  {
    && s.index == s.tdt
    && (s.pc != Ready ==> PacketOk(s.pc.packet))
    && (s.pc.Copied? || s.pc.Described? ==> s.bufs[s.index][..|s.pc.packet|] == s.pc.packet)
    && (s.pc.Described? ==> s.desc[s.index].length == |s.pc.packet|)
  }

  ghost predicate TxOk(s: Tx) {
    Shape(s) && DdOk(s) && QueueOk(s) && DriverOk(s)
  }

  lemma DeviceKeepsDd(s: Tx)
    requires TxOk(s) && s.tdh != s.tdt
    ensures Shape(DeviceStep(s)) && Outstanding(DeviceStep(s)) == Outstanding(s) - 1 && DdOk(DeviceStep(s))
  {
    var s1 := DeviceStep(s);
    AdvanceCounts(s.tdh, s.tdt);
    forall j | 0 <= j < RING
      ensures s1.desc[Slot(s1.tdh, j)].dd <==> j > Outstanding(s1) || (j == Outstanding(s1) && !s1.pc.Described?)
    {
      SlotShift(s.tdh, j);
      if j < RING - 1 {
        SlotDistinct(s.tdh, j + 1, 0);
      }
      assert s.tdh == Slot(s.tdh, 0);
    }
  }

  lemma DeviceKeepsQueue(s: Tx)
    requires TxOk(s) && s.tdh != s.tdt
    requires Shape(DeviceStep(s)) && Outstanding(DeviceStep(s)) == Outstanding(s) - 1
    ensures QueueOk(DeviceStep(s))
  {
    var s1 := DeviceStep(s);
    assert s.tdh == Slot(s.tdh, 0);
    assert FrameAt(s, s.tdh) == s.submitted[|s.wire|];
    assert s1.wire == s.submitted[..|s.wire| + 1];
    forall j | 0 <= j < Outstanding(s1) ensures FrameAt(s1, Slot(s1.tdh, j)) == s1.submitted[|s1.wire| + j] {
      SlotShift(s.tdh, j);
      assert FrameAt(s, Slot(s.tdh, j + 1)) == s.submitted[|s.wire| + (j + 1)];
    }
  }

  /** The device completes the oldest frame and touches nothing of the driver's. */
  lemma DeviceKeeps(s: Tx)
    requires TxOk(s)
    ensures TxOk(DeviceStep(s))
  {
    if s.tdh != s.tdt {
      DeviceKeepsDd(s);
      DeviceKeepsQueue(s);
      SlotDistance(s.tdh, s.tdt);
      assert s.tdh == Slot(s.tdh, 0);
    }
  }

  /** The slot net_send writes is outside the device's range. */
  lemma IndexNotOwned(s: Tx, j: nat)
    requires TxOk(s) && j < Outstanding(s)
    ensures Slot(s.tdh, j) != s.index
  {
    SlotDistance(s.tdh, s.tdt);
    SlotDistinct(s.tdh, j, Outstanding(s));
  }

  lemma CopyKeeps(s: Tx)
    requires TxOk(s) && s.pc.Writing?
    ensures TxOk(DriverStep(s))
  {
    var s1 := DriverStep(s);
    forall j | 0 <= j < Outstanding(s1) ensures FrameAt(s1, Slot(s1.tdh, j)) == s1.submitted[|s1.wire| + j] {
      IndexNotOwned(s, j);
    }
  }

  lemma DescribeKeeps(s: Tx)
    requires TxOk(s) && s.pc.Copied?
    ensures TxOk(DriverStep(s))
  {
    var s1 := DriverStep(s);
    SlotDistance(s.tdh, s.tdt);
    forall j | 0 <= j < Outstanding(s1) ensures FrameAt(s1, Slot(s1.tdh, j)) == s1.submitted[|s1.wire| + j] {
      IndexNotOwned(s, j);
    }
    forall j | 0 <= j < RING
      ensures s1.desc[Slot(s1.tdh, j)].dd <==> j > Outstanding(s1)
    {
      if j != Outstanding(s) {
        SlotDistinct(s.tdh, j, Outstanding(s));
      }
    }
  }

  lemma TailKeeps(s: Tx)
    requires TxOk(s) && s.pc.Described? && Room(s)
    ensures TxOk(DriverStep(s))
  {
    var s1 := DriverStep(s);
    AdvanceCounts(s.tdh, s.tdt);
    SlotDistance(s.tdh, s.tdt);
    forall j | 0 <= j < Outstanding(s1) ensures FrameAt(s1, Slot(s1.tdh, j)) == s1.submitted[|s1.wire| + j] {
      if j < Outstanding(s) {
        assert FrameAt(s, Slot(s.tdh, j)) == s.submitted[|s.wire| + j];
      }
    }
  }

  /** Every interleaving keeps the invariant, as long as TDT moves into a ring
      with room. */
  lemma NextKeeps(s: Tx, a: Action)
    requires TxOk(s) && Enabled(s, a) && (MovesTail(s, a) ==> Room(s))
    ensures TxOk(Next(s, a))
  {
    match a
    case Submit(_) =>
    case Device => DeviceKeeps(s);
    case Driver =>
      match s.pc
      case Ready =>
      case Spinning(_) =>
      case Writing(_) => CopyKeeps(s);
      case Copied(_) => DescribeKeeps(s);
      case Described(_) => TailKeeps(s);
  }

  /** e1000_tx_init: all descriptors done, head and tail at 0. */
  function TxInit(bufs: seq<seq<u8>>): Tx {
    Tx(seq(RING, _ => Desc(0, true)), bufs, 0, 0, 0, Ready, [], [])
  }

  ghost predicate Run(ss: seq<Tx>, acts: seq<Action>) {
    && |ss| == |acts| + 1
    && (forall i | 0 <= i < |acts| :: Shape(ss[i]) && Enabled(ss[i], acts[i]) && (ss[i].pc != Ready ==> PacketOk(ss[i].pc.packet)))
    && (forall i | 0 <= i < |acts| :: ss[i + 1] == Next(ss[i], acts[i]))
  }

  /** Whenever TDT is moved there is room. */
  ghost predicate TailRoom(ss: seq<Tx>, acts: seq<Action>) {
    |ss| == |acts| + 1 && forall i | 0 <= i < |acts| :: MovesTail(ss[i], acts[i]) ==> Room(ss[i])
  }

  /** Over every interleaving in which TDT is moved with fewer than 15 descriptors
      outstanding: tx_index is TDT, DD is clear exactly on [TDH, TDT) between
      calls, and frames leave in submission order, once. */
  lemma {:induction false} FramesInOrder(ss: seq<Tx>, acts: seq<Action>, n: nat, bufs: seq<seq<u8>>)
    requires Run(ss, acts) && n < |ss| && ss[0] == TxInit(bufs) && TailRoom(ss, acts)
    requires |bufs| == RING && forall i | 0 <= i < RING :: |bufs[i]| == BUFFER
    ensures TxOk(ss[n]) && ss[n].wire <= ss[n].submitted && ss[n].index == ss[n].tdt
  {
    if n > 0 {
      FramesInOrder(ss, acts, n - 1, bufs);
      NextKeeps(ss[n - 1], acts[n - 1]);
    }
  }

  /** The device only makes room, and so does every access but the last. */
  lemma RoomStays(s: Tx, a: Action)
    requires Shape(s) && Enabled(s, a) && (s.pc != Ready ==> PacketOk(s.pc.packet)) && !MovesTail(s, a)
    ensures Outstanding(Next(s, a)) <= Outstanding(s)
  {
    if a.Device? {
      AdvanceCounts(s.tdh, s.tdt);
    }
  }

  /** It is enough that net_send starts with fewer than 15 outstanding. */
  lemma {:induction false} RoomAtStart(ss: seq<Tx>, acts: seq<Action>, n: nat)
    requires Run(ss, acts) && n < |ss| && ss[0].pc == Ready
    requires forall i | 0 <= i < |acts| && acts[i].Submit? :: Room(ss[i])
    ensures ss[n].pc != Ready ==> Room(ss[n])
  {
    if n > 0 {
      RoomAtStart(ss, acts, n - 1);
      if !MovesTail(ss[n - 1], acts[n - 1]) {
        RoomStays(ss[n - 1], acts[n - 1]);
      }
    }
  }

  lemma StartedWithRoom(ss: seq<Tx>, acts: seq<Action>)
    requires Run(ss, acts) && ss[0].pc == Ready
    requires forall i | 0 <= i < |acts| && acts[i].Submit? :: Room(ss[i])
    ensures TailRoom(ss, acts)
  {
    forall i | 0 <= i < |acts| && MovesTail(ss[i], acts[i]) ensures Room(ss[i]) {
      RoomAtStart(ss, acts, i);
    }
  }

  /** No step of the driver writes a buffer the device owns. */
  lemma DeviceBuffersStable(s: Tx, j: nat)
    requires TxOk(s) && j < Outstanding(s)
    ensures DriverStep(s).bufs[Slot(s.tdh, j)] == s.bufs[Slot(s.tdh, j)]
  {
    IndexNotOwned(s, j);
  }

  // --- The bound is exact ----------------------------------------------------

  /** Head has caught up with tail without the descriptor there being done: the
      device sees an empty ring and net_send spins. */
  predicate Stuck(s: Tx) {
    && Shape(s) && s.tdh == s.tdt == s.index && !s.desc[s.index].dd
    && (s.pc == Ready || (s.pc.Spinning? && PacketOk(s.pc.packet)))
  }

  /** The write of TDT keeps the invariant if and only if fewer than 15
      descriptors are outstanding at that moment; otherwise the ring is stuck with
      16 frames that have not left. */
  lemma BoundIsExact(s: Tx)
    requires TxOk(s) && s.pc.Described?
    ensures TxOk(DriverStep(s)) <==> Room(s)
    ensures !Room(s) ==> Stuck(DriverStep(s)) && |DriverStep(s).submitted| == |s.wire| + RING
  {
    AdvanceCounts(s.tdh, s.tdt);
    SlotDistance(s.tdh, s.tdt);
    if Room(s) {
      TailKeeps(s);
    } else {
      var t := DriverStep(s);
      assert t.tdh == t.tdt && t.index == Slot(s.tdh, 0) && !s.desc[Slot(s.tdh, 0)].dd;
    }
  }

  lemma StuckStays(s: Tx, a: Action)
    requires Stuck(s) && Enabled(s, a)
    ensures Stuck(Next(s, a)) && Next(s, a).wire == s.wire && Next(s, a).submitted == s.submitted
  {
  }

  /** From then on, whatever is called and however long the device runs, nothing
      leaves and no net_send returns. */
  lemma {:induction false} StuckForever(ss: seq<Tx>, acts: seq<Action>, n: nat, m: nat)
    requires Run(ss, acts) && n <= m < |ss| && Stuck(ss[n])
    ensures Stuck(ss[m]) && ss[m].wire == ss[n].wire && ss[m].submitted == ss[n].submitted
    decreases m
  {
    if n < m {
      StuckForever(ss, acts, n, m - 1);
      StuckStays(ss[m - 1], acts[m - 1]);
    }
  }

  // --- A full ring is reachable ----------------------------------------------

  /** net_send on `p` just before it moves TDT, the device doing nothing meanwhile. */
  function Prepared(s: Tx, p: Frame): Tx
    requires TxOk(s) && s.pc == Ready && PacketOk(p)
  {
    var b := s.bufs[s.index := p + s.bufs[s.index][|p|..]];
    s.(bufs := b, desc := s.desc[s.index := Desc(|p|, false)], pc := Described(p))
  }

  lemma PreparedSteps(s: Tx, p: Frame)
    requires TxOk(s) && s.pc == Ready && PacketOk(p)
    ensures Prepared(s, p) == DriverStep(DriverStep(DriverStep(Next(s, Submit(p)))))
    ensures TxOk(Prepared(s, p)) && Outstanding(Prepared(s, p)) == Outstanding(s)
  {
    SlotDistance(s.tdh, s.tdt);
    var a := Next(s, Submit(p));
    var b := DriverStep(a);
    var c := DriverStep(b);
    assert b.pc == Writing(p) && TxOk(b);
    CopyKeeps(b);
    DescribeKeeps(c);
  }

  /** The ring after `n` calls of net_send on `p` without a completion. */
  function Burst(bufs: seq<seq<u8>>, p: Frame, n: nat): (t: Tx)
    requires |bufs| == RING && (forall i | 0 <= i < RING :: |bufs[i]| == BUFFER) && PacketOk(p) && n < RING
    ensures TxOk(t) && t.pc == Ready && Outstanding(t) == n
    decreases n
  {
    if n == 0 then TxInit(bufs)
    else
      PreparedSteps(Burst(bufs, p, n - 1), p);
      var s := Prepared(Burst(bufs, p, n - 1), p);
      AdvanceCounts(s.tdh, s.tdt);
      TailKeeps(s);
      DriverStep(s)
  }

  /** Fifteen calls in a row fill the ring, and the sixteenth gets it stuck. */
  lemma SixteenthSend(bufs: seq<seq<u8>>, p: Frame, n: nat)
    requires |bufs| == RING && (forall i | 0 <= i < RING :: |bufs[i]| == BUFFER) && PacketOk(p) && n == RING - 1
    ensures Stuck(DriverStep(Prepared(Burst(bufs, p, n), p)))
  {
    PreparedSteps(Burst(bufs, p, n), p);
    BoundIsExact(Prepared(Burst(bufs, p, n), p));
  }
}
