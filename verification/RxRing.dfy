/** The E1000 receive ring: `net_recv` and the device as two interleaving parties
    (section 3.2.6 of the Intel 8254x Software Developer's Manual: the device
    fills descriptors from head up to, not including, tail). */
module RxRing {
  import opened Words
  import opened Ring

  /** Where net_recv stands. */
  datatype Pc = Ready | Reading | Copied(frame: Frame) | Cleared(frame: Frame)

  /** `accepted` and `returned` record the frames the device stored and the
      frames net_recv handed to its callers. */
  datatype Rx = Rx(desc: seq<Desc>, bufs: seq<seq<u8>>, rdh: nat, rdt: nat, index: nat, pc: Pc,
                   accepted: seq<Frame>, returned: seq<Frame>)

  /** Descriptors the device may still fill. */
  function DeviceOwned(s: Rx): nat { Distance(s.rdh, s.rdt) }

  /** Descriptors filled and not yet given back. */
  function Filled(s: Rx): nat { Distance(s.index, s.rdh) }

  predicate Shape(s: Rx) {
    && |s.desc| == RING && |s.bufs| == RING && s.rdh < RING && s.rdt < RING && s.index < RING
    && (forall i | 0 <= i < RING :: |s.bufs[i]| == BUFFER && s.desc[i].length <= BUFFER)
  }

  // --- Steps -----------------------------------------------------------------

  datatype Action =
    | Fill(frame: Frame)                 // the device stores a frame and sets DD
    | Scribble(offset: nat, bytes: seq<u8>)  // the device writes into a buffer it owns
    | Driver                             // the next access of net_recv

  predicate Enabled(s: Rx, a: Action) {
    match a
    case Fill(f) => s.rdh != s.rdt && |f| <= BUFFER
    case Scribble(j, b) => j < DeviceOwned(s) && |b| == BUFFER
    case Driver => true
  }

  function DriverStep(s: Rx): Rx
    requires Shape(s)
  {
    match s.pc
    case Ready => if s.desc[s.index].dd then s.(pc := Reading) else s
    case Reading => s.(pc := Copied(s.bufs[s.index][..s.desc[s.index].length]))
    case Copied(f) => s.(desc := s.desc[s.index := Desc(0, false)], pc := Cleared(f))
    case Cleared(f) => s.(rdt := s.index, index := Slot(s.index, 1), pc := Ready, returned := s.returned + [f])
  }

  function Next(s: Rx, a: Action): Rx
    requires Shape(s) && Enabled(s, a)
  {
    match a
    case Fill(f) =>
      s.(bufs := s.bufs[s.rdh := f + s.bufs[s.rdh][|f|..]], desc := s.desc[s.rdh := Desc(|f|, true)],
         rdh := Slot(s.rdh, 1), accepted := s.accepted + [f])
    case Scribble(j, b) => s.(bufs := s.bufs[Slot(s.rdh, j) := b])
    case Driver => DriverStep(s)
  }

  // --- Invariant -------------------------------------------------------------

  function FrameAt(s: Rx, i: nat): Frame
    requires Shape(s) && i < RING
  {
    s.bufs[i][..s.desc[i].length]
  }

  /** DD is set exactly on [rx_index, RDH), except on a descriptor just cleared. */
  ghost predicate DdOk(s: Rx)
    requires Shape(s)
  {
    forall j | 0 <= j < RING :: s.desc[Slot(s.index, j)].dd <==> j < Filled(s) && !(j == 0 && s.pc.Cleared?)
  }

  /** The filled buffers hold the accepted frames not yet returned, in order. */
  ghost predicate QueueOk(s: Rx)
    requires Shape(s)
  {
    && |s.accepted| == |s.returned| + Filled(s)
    && s.returned == s.accepted[..|s.returned|]
    && forall j | 0 <= j < Filled(s) && !(j == 0 && s.pc.Cleared?) ::
         FrameAt(s, Slot(s.index, j)) == s.accepted[|s.returned| + j]
  }

  ghost predicate DriverOk(s: Rx)
    requires Shape(s)
  {
    && s.rdt == Slot(s.index, RING - 1)
    && (s.pc != Ready ==> Filled(s) > 0)
    && (s.pc.Copied? || s.pc.Cleared? ==> |s.returned| < |s.accepted| && s.pc.frame == s.accepted[|s.returned|])
  }

  ghost predicate RxOk(s: Rx) {
    Shape(s) && DriverOk(s) && DdOk(s) && QueueOk(s)
  }

  // --- Ring arithmetic -------------------------------------------------------

  /** RDT = rx_index - 1, so filled and device-owned descriptors total 15. */
  lemma Fifteen(s: Rx)
    requires Shape(s) && s.rdt == Slot(s.index, RING - 1)
    ensures Filled(s) + DeviceOwned(s) == RING - 1
    ensures s.rdt == (s.index - 1) % RING
    ensures Slot(s.index, Filled(s)) == s.rdh
  {
    SlotDistance(s.index, s.rdh);
    DistanceIs(s.index, s.rdh);
    DistanceIs(s.rdh, s.rdt);
    assert s.rdt == if s.index == 0 then RING - 1 else s.index - 1;
  }

  /** A descriptor the device owns is not one of the filled ones. */
  lemma OwnedIsNotFilled(s: Rx, j: nat, d: nat)
    requires Shape(s) && s.rdt == Slot(s.index, RING - 1) && j < Filled(s) && d < DeviceOwned(s)
    ensures Slot(s.index, j) != Slot(s.rdh, d)
  {
    Fifteen(s);
    SlotAdd(s.index, Filled(s), d);
    SlotDistinct(s.index, j, Filled(s) + d);
  }

  lemma HeadNotFilled(s: Rx, j: nat)
    requires Shape(s) && s.rdt == Slot(s.index, RING - 1) && j < Filled(s)
    ensures Slot(s.index, j) != s.rdh
  {
    Fifteen(s);
    SlotDistinct(s.index, j, Filled(s));
  }

  // --- Every step keeps the invariant ----------------------------------------

  lemma FillCounts(s: Rx, f: Frame)
    requires RxOk(s) && Enabled(s, Fill(f))
    ensures Shape(Next(s, Fill(f))) && Filled(Next(s, Fill(f))) == Filled(s) + 1
    ensures Slot(s.index, Filled(s)) == s.rdh && 0 < DeviceOwned(s) && Filled(s) < RING - 1
  {
    Fifteen(s);
    AdvanceCounts(s.index, s.rdh);
  }

  lemma FillKeepsDd(s: Rx, f: Frame)
    requires RxOk(s) && Enabled(s, Fill(f)) && Shape(Next(s, Fill(f)))
    ensures DdOk(Next(s, Fill(f)))
  {
    var s1 := Next(s, Fill(f));
    FillCounts(s, f);
    forall j | 0 <= j < RING
      ensures s1.desc[Slot(s1.index, j)].dd <==> j < Filled(s1) && !(j == 0 && s1.pc.Cleared?)
    {
      if j != Filled(s) {
        SlotDistinct(s.index, j, Filled(s));
      }
    }
  }

  lemma FillKeepsQueue(s: Rx, f: Frame)
    requires RxOk(s) && Enabled(s, Fill(f)) && Shape(Next(s, Fill(f)))
    ensures QueueOk(Next(s, Fill(f)))
  {
    var s1 := Next(s, Fill(f));
    FillCounts(s, f);
    assert FrameAt(s1, s.rdh) == f;
    forall j | 0 <= j < Filled(s1) && !(j == 0 && s1.pc.Cleared?)
      ensures FrameAt(s1, Slot(s1.index, j)) == s1.accepted[|s1.returned| + j]
    {
      if j < Filled(s) {
        FillFrames(s, f, j);
      }
    }
  }

  /** Filling does not touch a filled buffer. */
  lemma FillFrames(s: Rx, f: Frame, j: nat)
    requires RxOk(s) && Enabled(s, Fill(f)) && Shape(Next(s, Fill(f))) && j < Filled(s)
    ensures FrameAt(Next(s, Fill(f)), Slot(s.index, j)) == FrameAt(s, Slot(s.index, j))
  {
    HeadNotFilled(s, j);
  }

  lemma FillKeeps(s: Rx, f: Frame)
    requires RxOk(s) && Enabled(s, Fill(f))
    ensures RxOk(Next(s, Fill(f)))
  {
    FillCounts(s, f);
    FillKeepsDd(s, f);
    FillKeepsQueue(s, f);
  }

  lemma ScribbleKeeps(s: Rx, j: nat, b: seq<u8>)
    requires RxOk(s) && Enabled(s, Scribble(j, b))
    ensures RxOk(Next(s, Scribble(j, b)))
  {
    var s1 := Next(s, Scribble(j, b));
    forall i | 0 <= i < Filled(s1) && !(i == 0 && s1.pc.Cleared?)
      ensures FrameAt(s1, Slot(s1.index, i)) == s1.accepted[|s1.returned| + i]
    {
      OwnedIsNotFilled(s, i, j);
    }
  }

  lemma ReadKeeps(s: Rx)
    requires RxOk(s) && (s.pc.Ready? || s.pc.Reading?)
    ensures RxOk(DriverStep(s))
  {
    assert s.index == Slot(s.index, 0);
    if s.pc.Reading? {
      assert FrameAt(s, Slot(s.index, 0)) == s.accepted[|s.returned| + 0];
    }
  }

  lemma ClearKeeps(s: Rx)
    requires RxOk(s) && s.pc.Copied?
    ensures RxOk(DriverStep(s))
  {
    var s1 := DriverStep(s);
    assert s.index == Slot(s.index, 0);
    forall j | 0 < j < RING ensures Slot(s.index, j) != s.index {
      SlotDistinct(s.index, j, 0);
    }
  }

  lemma TailKeeps(s: Rx)
    requires RxOk(s) && s.pc.Cleared?
    ensures RxOk(DriverStep(s))
  {
    var s1 := DriverStep(s);
    AdvanceCounts(s.index, s.rdh);
    assert Filled(s1) == Filled(s) - 1;
    SlotShift(s.index, RING - 1);
    assert s1.returned == s.accepted[..|s.returned| + 1];
    forall j | 0 <= j < RING ensures s1.desc[Slot(s1.index, j)].dd <==> j < Filled(s1) {
      SlotShift(s.index, j);
    }
    forall j | 0 <= j < Filled(s1) ensures FrameAt(s1, Slot(s1.index, j)) == s1.accepted[|s1.returned| + j] {
      SlotShift(s.index, j);
      assert FrameAt(s, Slot(s.index, j + 1)) == s.accepted[|s.returned| + (j + 1)];
    }
  }

  lemma NextKeeps(s: Rx, a: Action)
    requires RxOk(s) && Enabled(s, a)
    ensures RxOk(Next(s, a))
  {
    match a
    case Fill(f) => FillKeeps(s, f);
    case Scribble(j, b) => ScribbleKeeps(s, j, b);
    case Driver =>
      match s.pc
      case Ready => ReadKeeps(s);
      case Reading => ReadKeeps(s);
      case Copied(_) => ClearKeeps(s);
      case Cleared(_) => TailKeeps(s);
  }

  // --- Runs ------------------------------------------------------------------

  /** e1000_rx_init: 15 descriptors for the device. */
  function RxInit(bufs: seq<seq<u8>>): Rx {
    Rx(seq(RING, _ => Desc(0, false)), bufs, 0, RING - 1, 0, Ready, [], [])
  }

  ghost predicate Run(ss: seq<Rx>, acts: seq<Action>) {
    && |ss| == |acts| + 1
    && (forall i | 0 <= i < |acts| :: Shape(ss[i]) && Enabled(ss[i], acts[i]))
    && (forall i | 0 <= i < |acts| :: ss[i + 1] == Next(ss[i], acts[i]))
  }

  /** Over every interleaving: RDT = rx_index - 1, filled and device-owned
      descriptors total 15, and the frames returned are the accepted frames, in
      order, each once. */
  lemma {:induction false} FramesInOrder(ss: seq<Rx>, acts: seq<Action>, n: nat, bufs: seq<seq<u8>>)
    requires Run(ss, acts) && n < |ss| && ss[0] == RxInit(bufs)
    requires |bufs| == RING && forall i | 0 <= i < RING :: |bufs[i]| == BUFFER
    ensures RxOk(ss[n])
    ensures ss[n].rdt == (ss[n].index - 1) % RING && Filled(ss[n]) + DeviceOwned(ss[n]) == RING - 1
    ensures ss[n].returned <= ss[n].accepted && |ss[n].accepted| == |ss[n].returned| + Filled(ss[n])
  {
    if n > 0 {
      FramesInOrder(ss, acts, n - 1, bufs);
      NextKeeps(ss[n - 1], acts[n - 1]);
    }
    Fifteen(ss[n]);
  }

  /** No device write reaches a buffer that has not been read. */
  lemma UnreadStable(s: Rx, a: Action, j: nat)
    requires RxOk(s) && Enabled(s, a) && !a.Driver? && j < Filled(s)
    ensures Next(s, a).bufs[Slot(s.index, j)] == s.bufs[Slot(s.index, j)]
  {
    match a
    case Fill(_) => HeadNotFilled(s, j);
    case Scribble(d, _) => OwnedIsNotFilled(s, j, d);
  }
}
