/** Index arithmetic shared by the two descriptor rings. */
module Ring {
  import opened Words

  const RING := 16          // E1000_TX_RING_SIZE, E1000_RX_RING_SIZE
  const BUFFER := 2048      // E1000_TX_BUF_SIZE, E1000_RX_BUF_SIZE

  type Frame = seq<u8>

  /** The fields of a descriptor that matter: length, and DD in its status. */
  datatype Desc = Desc(length: nat, dd: bool)

  /** The index `j` steps on: (base + j) % RING, written without division for the
      indices that occur. */
  function Slot(base: nat, j: nat): nat {
    var i := base + j;
    if i < RING then i else if i < 2 * RING then i - RING else i % RING
  }

  /** Steps forward from one index to another: (to - from) % RING. */
  function Distance(from: nat, to: nat): nat {
    if from <= to < from + RING then to - from
    else if to < from <= to + RING then RING + to - from
    else (to - from) % RING
  }

  lemma SlotIs(base: nat, j: nat)
    ensures Slot(base, j) == (base + j) % RING
  {
  }

  lemma SlotDistinct(base: nat, i: nat, j: nat)
    requires base < RING && i < RING && j < RING && i != j
    ensures Slot(base, i) != Slot(base, j)
  {
  }

  lemma SlotAdd(base: nat, a: nat, b: nat)
    requires base < RING && a + b < RING
    ensures Slot(Slot(base, a), b) == Slot(base, a + b)
  {
  }

  lemma DistanceIs(from: nat, to: nat)
    requires from < RING && to < RING
    ensures Distance(from, to) == if from <= to then to - from else RING + to - from
    ensures Distance(from, to) == (to - from) % RING
  {
  }

  lemma SlotDistance(from: nat, to: nat)
    requires from < RING && to < RING
    ensures Slot(from, Distance(from, to)) == to && Distance(from, to) < RING
  {
    DistanceIs(from, to);
  }

  /** Seen from the next index, every slot is one closer. */
  lemma SlotShift(i: nat, j: nat)
    requires i < RING && j < RING
    ensures j < RING - 1 ==> Slot(Slot(i, 1), j) == Slot(i, j + 1)
    ensures j == RING - 1 ==> Slot(Slot(i, 1), j) == i == Slot(i, 0)
  {
  }

  /** The distance when either end advances. */
  lemma AdvanceCounts(from: nat, to: nat)
    requires from < RING && to < RING
    ensures from != to ==> Distance(Slot(from, 1), to) == Distance(from, to) - 1
    ensures Distance(from, to) < RING - 1 ==> Distance(from, Slot(to, 1)) == Distance(from, to) + 1
    ensures Distance(from, to) == RING - 1 ==> Slot(to, 1) == from
    ensures Distance(from, to) == 0 <==> from == to
  {
    DistanceIs(from, to);
    DistanceIs(Slot(from, 1), to);
    DistanceIs(from, Slot(to, 1));
  }
}
