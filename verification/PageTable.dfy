/** Sv32 page tables (sections 4.3.1 and 4.3.2 of the RISC-V privileged
    specification): bit-packed entries in physical pages, and who owns a page. */
module PageTable {
  import opened Words
  import opened Bits

  const PAGES := 1024                 // APPS_PAGES_CNT
  const ENTRIES := 1024
  const BASE := 0x8040_0000           // APPS_PAGES_BASE
  const RAM_END := 0x8080_0000
  const MAX_NPROCESS := 16
  const LEAF_FLAG := 0xdf             // V R W X U A D

  // --- Entries ---------------------------------------------------------------

  /** The address of allocatable page `p`. */
  function Addr(p: nat): nat { BASE + p * 4096 }

  /** The page a word in the allocatable range belongs to. */
  function PageOf(pa: nat): int { (pa - BASE) / 4096 }

  /** `(ppn << 10) | FLAG_NEXT_LEVEL`. */
  function TableEntry(pa: nat): nat { Or(Shl(pa / 4096, 1024), 1) }

  /** `(pa >> 2) | flag`. */
  function LeafEntry(pa: nat, flag: nat): nat { Or(pa / 4, flag) }

  function Leaf(pa: nat): nat { LeafEntry(pa, LEAF_FLAG) }

  /** `(pte << 2) & ~0xfff`. */
  function Target(pte: nat): nat { And(Shl(pte, 4), 0xffff_f000) }

  predicate Valid(pte: nat) { And(pte, 1) != 0 }

  /** Bit `k` of a word. */
  predicate BitSet(w: nat, k: nat)
    decreases w
  {
    w > 0 && if k == 0 then w % 2 == 1 else BitSet(w / 2, k - 1)
  }

  lemma BitZero(m: nat, b: nat)
    requires b < 2
    ensures BitSet(2 * m + b, 0) <==> b == 1
  {
  }

  lemma BitAbove(m: nat, b: nat, k: nat)
    requires b < 2
    ensures BitSet(2 * m + b, k + 1) <==> BitSet(m, k)
  {
    assert (2 * m + b) / 2 == m;
  }

  // The bits of an entry, section 4.3.1.
  const V := 0
  const R := 1
  const W := 2
  const X := 3
  const U := 4
  const A := 6
  const D := 7

  datatype Access = Load | Store | Fetch

  /** Section 4.3.2: a last-level entry translates a user-mode access if V, U and A
      are set, it is a leaf that is not the reserved W without R, and R, W with D, or
      X is set for the access. */
  predicate Permits(w: nat, access: Access) {
    && BitSet(w, V) && BitSet(w, U) && BitSet(w, A)
    && (BitSet(w, R) || BitSet(w, X)) && (BitSet(w, W) ==> BitSet(w, R))
    && match access
       case Load => BitSet(w, R)
       case Store => BitSet(w, W) && BitSet(w, D)
       case Fetch => BitSet(w, X)
  }

  /** Translates every user-mode access. */
  predicate Usable(w: nat) { Permits(w, Load) && Permits(w, Store) && Permits(w, Fetch) }

  predicate PageAligned(pa: nat) { pa % 4096 == 0 && pa < 0x1_0000_0000 }

  /** Both kinds of entry are a page number in bits 10 and up and ten flag bits. */
  lemma {:induction false} EntryFields(n: nat)
    requires n < 0x10_0000
    ensures TableEntry(n * 4096) == n * 1024 + 1 && Leaf(n * 4096) == n * 1024 + 0xdf
  {
    assert n * 4096 / 4096 == n && n * 4096 / 4 == n * 1024;
    assert Shl(n, 1024) == n * 1024;
    OrFlags(n, 1);
    OrFlags(n, LEAF_FLAG);
  }

  lemma ShlFits(x: nat, p: nat)
    requires x * p < 0x1_0000_0000
    ensures Shl(x, p) == x * p
  {
  }

  lemma PageStart(x: nat, n: nat, r: nat)
    requires x == n * 4096 + r && r < 4096
    ensures x - x % 4096 == n * 4096
  {
  }

  /** The target of any entry is a page. */
  lemma {:induction false} TargetAligned(pte: nat)
    ensures Target(pte) % 4096 == 0
  {
    AndPageMask(Shl(pte, 4));
  }

  lemma {:induction false} TargetOfFields(n: nat, f: nat)
    requires n < 0x10_0000 && f < 1024
    ensures Target(n * 1024 + f) == n * 4096
  {
    var x := n * 4096 + 4 * f;
    ShlFits(n * 1024 + f, 4);
    AndPageMask(x);
    PageStart(x, n, 4 * f);
  }

  lemma {:induction false} ValidFields(n: nat, f: nat)
    requires f % 2 == 1
    ensures Valid(n * 1024 + f)
  {
    AndOne(n * 1024 + f);
    assert (n * 1024 + f) % 2 == 1;
  }

  /** The four low bits of a word, and the ones above. */
  lemma LowBits(m: nat, b0: nat, b1: nat, b2: nat, b3: nat, k: nat)
    requires b0 < 2 && b1 < 2 && b2 < 2 && b3 < 2
    ensures var w := 2 * (2 * (2 * (2 * m + b3) + b2) + b1) + b0;
            && (BitSet(w, 0) <==> b0 == 1) && (BitSet(w, 1) <==> b1 == 1) && (BitSet(w, 2) <==> b2 == 1)
            && (BitSet(w, 3) <==> b3 == 1) && (BitSet(w, k + 4) <==> BitSet(m, k))
  {
    var w3 := 2 * m + b3;
    var w2 := 2 * w3 + b2;
    var w1 := 2 * w2 + b1;
    BitZero(w1, b0);
    BitAbove(w1, b0, 0);
    BitZero(w2, b1);
    BitAbove(w1, b0, 1);
    BitAbove(w2, b1, 0);
    BitZero(w3, b2);
    BitAbove(w1, b0, 2);
    BitAbove(w2, b1, 1);
    BitAbove(w3, b2, 0);
    BitZero(m, b3);
    BitAbove(w1, b0, k + 3);
    BitAbove(w2, b1, k + 2);
    BitAbove(w3, b2, k + 1);
    BitAbove(m, b3, k);
  }

  /** The bits of a leaf, one by one: 0xdf is 1101 1111. */
  lemma {:induction false} LeafBits(n: nat)
    ensures Usable(n * 1024 + 0xdf)
  {
    var m := n * 64 + 13;
    LowBits(m, 1, 1, 1, 1, 0);
    LowBits(m, 1, 1, 1, 1, 2);
    LowBits(m, 1, 1, 1, 1, 3);
    LowBits(n * 4, 1, 0, 1, 1, 0);
  }

  /** The bits of an entry that points to a table. */
  lemma {:induction false} PointerBits(n: nat)
    ensures var w := n * 1024 + 1; BitSet(w, V) && !BitSet(w, R) && !BitSet(w, W) && !BitSet(w, X)
  {
    LowBits(n * 64, 1, 0, 0, 0, 0);
  }

  /** The root entry of an allocatable page sends the walk on. */
  lemma PointerEntry(p: nat)
    requires p < PAGES
    ensures var w := TableEntry(Addr(p)); BitSet(w, V) && !BitSet(w, R) && !BitSet(w, W) && !BitSet(w, X)
  {
    var n := 0x8_0400 + p;
    assert Addr(p) == n * 4096;
    EntryFields(n);
    PointerBits(n);
  }

  /** What is written for the first allocatable page: its number and the flags V,
      R, W, X, U, A and D. */
  lemma FirstWord()
    ensures Leaf(Addr(0)) == 0x2010_00df
  {
    EntryFields(0x8_0400);
  }

  /** Decoding undoes encoding, for every page of the address space, and what is
      written for a page translates every access. */
  lemma {:induction false} EntryRoundTrip(pa: nat)
    requires PageAligned(pa)
    ensures Target(TableEntry(pa)) == pa && Valid(TableEntry(pa)) && TableEntry(pa) != 0
    ensures Target(Leaf(pa)) == pa && Valid(Leaf(pa)) && Leaf(pa) != 0 && Usable(Leaf(pa))
  {
    var n := pa / 4096;
    assert pa == n * 4096;
    EntryFields(n);
    TargetOfFields(n, 1);
    TargetOfFields(n, LEAF_FLAG);
    ValidFields(n, 1);
    ValidFields(n, LEAF_FLAG);
    LeafBits(n);
  }

  lemma ZeroEntry()
    ensures !Valid(0) && !Permits(0, Load)
  {
  }

  /** Page numbers and addresses of allocatable pages. */
  lemma AddrFacts(p: nat)
    requires p < PAGES
    ensures PageAligned(Addr(p)) && BASE <= Addr(p) < RAM_END && PageOf(Addr(p)) == p && Addr(p) != 0
  {
  }

  // --- Memory and the walk ---------------------------------------------------

  type Mem = seq<seq<nat>>

  /** The virtual address of entry (i, j): `(l1 << 22) | (l2 << 12)`. */
  function Va(i: nat, j: nat): nat { i * 0x40_0000 + j * 4096 }

  predicate MemOk(mem: Mem) {
    |mem| == PAGES && forall p | 0 <= p < PAGES :: |mem[p]| == ENTRIES
  }

  /** The state: physical pages, and the root address of each pid (0 is NULL). */
  datatype Vm = Vm(mem: Mem, roots: seq<nat>, free: set<nat>)

  predicate Shape(v: Vm) {
    && MemOk(v.mem) && |v.roots| == MAX_NPROCESS + 1
    && forall q | 0 <= q <= MAX_NPROCESS && v.roots[q] != 0 :: 0 <= PageOf(v.roots[q]) < PAGES
  }

  /** The L1 entry that covers virtual page `vpn`. */
  function L1(v: Vm, pid: nat, i: nat): nat
    requires Shape(v) && pid <= MAX_NPROCESS && i < ENTRIES
  {
    if v.roots[pid] == 0 then 0 else v.mem[PageOf(v.roots[pid])][i]
  }

  /** The L2 entry (i, j) of a pid, 0 when there is no table for it. */
  function L2(v: Vm, pid: nat, i: nat, j: nat): nat
    requires Shape(v) && pid <= MAX_NPROCESS && i < ENTRIES && j < ENTRIES
  {
    var e := L1(v, pid, i);
    if e == 0 || !(0 <= PageOf(Target(e)) < PAGES) then 0 else v.mem[PageOf(Target(e))][j]
  }

  /** The page behind a last-level entry that can be read. */
  function Walk(v: Vm, pid: nat, i: nat, j: nat): Option<nat>
    requires Shape(v) && pid <= MAX_NPROCESS && i < ENTRIES && j < ENTRIES
  {
    var e := L2(v, pid, i, j);
    if Permits(e, Load) then Some(Target(e)) else None
  }

  /** The Sv32 walk of section 4.3.2 for a user-mode access to page (i, j). */
  function Sv32(v: Vm, pid: nat, i: nat, j: nat, access: Access): Option<nat>
    requires Shape(v) && pid <= MAX_NPROCESS && i < ENTRIES && j < ENTRIES
  {
    var e := L1(v, pid, i);
    if !BitSet(e, V) || (BitSet(e, W) && !BitSet(e, R)) then None        // invalid
    else if BitSet(e, R) || BitSet(e, X) then                               // a superpage
      if Permits(e, access) && e / 1024 % 1024 == 0 then Some(Target(e) + j * 4096) else None
    else if !(0 <= PageOf(Target(e)) < PAGES) then None                           // no such memory
    else
      var w := v.mem[PageOf(Target(e))][j];
      if Permits(w, access) then Some(Target(w)) else None
  }

  // --- Ownership -------------------------------------------------------------

  /** What an allocated page is used for. */
  datatype Owner = Root(pid: nat) | Table(pid: nat, i: nat) | Data(pid: nat, i: nat, j: nat) | Loose

  type Own = map<nat, Owner>

  /** Allocated and free pages partition the pool. */
  ghost predicate PoolOk(v: Vm, own: Own) {
    forall p: nat :: (p in own || p in v.free <==> p < PAGES) && !(p in own && p in v.free)
  }

  ghost predicate RootsOk(v: Vm, own: Own)
    requires Shape(v)
  {
    && (forall q | 0 <= q <= MAX_NPROCESS && v.roots[q] != 0 ::
          var p := PageOf(v.roots[q]); v.roots[q] == Addr(p) && p in own && own[p] == Root(q))
    && (forall p | p in own && own[p].Root? :: own[p].pid <= MAX_NPROCESS && v.roots[own[p].pid] == Addr(p))
  }

  ghost predicate TablesOk(v: Vm, own: Own)
    requires Shape(v)
  {
    && (forall q, i | 0 <= q <= MAX_NPROCESS && 0 <= i < ENTRIES && L1(v, q, i) != 0 ::
          var p := PageOf(Target(L1(v, q, i)));
          0 <= p < PAGES && L1(v, q, i) == TableEntry(Addr(p)) && p in own && own[p] == Table(q, i))
    && (forall p | p in own && own[p].Table? ::
          own[p].pid <= MAX_NPROCESS && own[p].i < ENTRIES && L1(v, own[p].pid, own[p].i) == TableEntry(Addr(p)))
  }

  /** A leaf maps its own address, or an owned data page. */
  ghost predicate LeafOk(own: Own, q: nat, i: nat, j: nat, e: nat) {
    e == 0 || e == Leaf(Va(i, j))
    || (var p := PageOf(Target(e)); 0 <= p < PAGES && e == Leaf(Addr(p)) && p in own && own[p] == Data(q, i, j))
  }

  ghost predicate LeavesOk(v: Vm, own: Own)
    requires Shape(v)
  {
    && (forall q, i, j | 0 <= q <= MAX_NPROCESS && 0 <= i < ENTRIES && 0 <= j < ENTRIES :: LeafOk(own, q, i, j, L2(v, q, i, j)))
    && (forall p | p in own && own[p].Data? ::
          own[p].pid <= MAX_NPROCESS && own[p].i < ENTRIES && own[p].j < ENTRIES
          && L2(v, own[p].pid, own[p].i, own[p].j) == Leaf(Addr(p)))
  }

  /** Roots and tables are owned, and every L2 entry is empty or grants all access. */
  ghost predicate Fit(v: Vm, own: Own) {
    && Shape(v) && PoolOk(v, own) && RootsOk(v, own) && TablesOk(v, own)
    && (forall q, i, j | 0 <= q <= MAX_NPROCESS && 0 <= i < ENTRIES && 0 <= j < ENTRIES ::
          L2(v, q, i, j) == 0 || (Valid(L2(v, q, i, j)) && Usable(L2(v, q, i, j))))
  }

  /** In addition, every data page is mapped once. */
  ghost predicate VmOk(v: Vm, own: Own) {
    Fit(v, own) && LeavesOk(v, own)
  }

  /** A step that keeps the tables fit, and single mappings single. */
  ghost predicate Keeps(v: Vm, own: Own, w: Vm, own1: Own) {
    Fit(w, own1) && (VmOk(v, own) ==> VmOk(w, own1))
  }

  /** All pages of one pid. */
  ghost predicate Belongs(o: Owner, pid: nat) {
    !o.Loose? && o.pid == pid
  }

  // --- Elementary updates ----------------------------------------------------

  function ZeroPage(): (z: seq<nat>)
    ensures |z| == ENTRIES && forall i | 0 <= i < ENTRIES :: z[i] == 0
  {
    seq(ENTRIES, _ => 0)
  }

  /** pmalloc(1): a page of the pool, cleared. */
  function Take(v: Vm, p: nat): Vm
    requires |v.mem| == PAGES && p < PAGES
  {
    v.(mem := v.mem[p := ZeroPage()], free := v.free - {p})
  }

  /** Taking a free page changes no entry of any table. */
  lemma TakeKeepsEntries(v: Vm, own: Own, p: nat)
    requires Fit(v, own) && p in v.free && p < PAGES
    ensures Shape(Take(v, p))
    ensures forall q, i | 0 <= q <= MAX_NPROCESS && 0 <= i < ENTRIES :: L1(Take(v, p), q, i) == L1(v, q, i)
    ensures forall q, i, j | 0 <= q <= MAX_NPROCESS && 0 <= i < ENTRIES && 0 <= j < ENTRIES ::
              L2(Take(v, p), q, i, j) == L2(v, q, i, j)
  {
    var w := Take(v, p);
    forall q, i | 0 <= q <= MAX_NPROCESS && 0 <= i < ENTRIES ensures L1(w, q, i) == L1(v, q, i) {
      if v.roots[q] != 0 {
        assert PageOf(v.roots[q]) in own;
      }
    }
    forall q, i, j | 0 <= q <= MAX_NPROCESS && 0 <= i < ENTRIES && 0 <= j < ENTRIES ensures L2(w, q, i, j) == L2(v, q, i, j) {
      if L1(v, q, i) != 0 {
        assert PageOf(Target(L1(v, q, i))) in own;
      }
    }
  }

  /** mmu_alloc: a page for data, not mapped yet. */
  lemma TakeLoose(v: Vm, own: Own, p: nat)
    requires Fit(v, own) && p in v.free && p < PAGES
    ensures Keeps(v, own, Take(v, p), own[p := Loose])
    ensures forall q, i, j | 0 <= q <= MAX_NPROCESS && 0 <= i < ENTRIES && 0 <= j < ENTRIES ::
              Walk(Take(v, p), q, i, j) == Walk(v, q, i, j)
  {
    TakeKeepsEntries(v, own, p);
  }

  /** A new root for a pid that has none. */
  function NewRoot(v: Vm, pid: nat, p: nat): Vm
    requires |v.mem| == PAGES && p < PAGES && pid < |v.roots|
  {
    var w := Take(v, p);
    w.(roots := w.roots[pid := Addr(p)])
  }

  lemma RootEntries(v: Vm, own: Own, pid: nat, p: nat)
    requires Fit(v, own) && p in v.free && p < PAGES && 0 < pid <= MAX_NPROCESS && v.roots[pid] == 0
    ensures Shape(NewRoot(v, pid, p))
    ensures forall q, i | 0 <= q <= MAX_NPROCESS && 0 <= i < ENTRIES :: L1(NewRoot(v, pid, p), q, i) == L1(v, q, i)
    ensures forall q, i, j | 0 <= q <= MAX_NPROCESS && 0 <= i < ENTRIES && 0 <= j < ENTRIES ::
              L2(NewRoot(v, pid, p), q, i, j) == L2(v, q, i, j)
  {
    AddrFacts(p);
    TakeKeepsEntries(v, own, p);
  }

  lemma RootKeeps(v: Vm, own: Own, pid: nat, p: nat)
    requires Fit(v, own) && p in v.free && p < PAGES && 0 < pid <= MAX_NPROCESS && v.roots[pid] == 0
    ensures Keeps(v, own, NewRoot(v, pid, p), own[p := Root(pid)])
  {
    AddrFacts(p);
    RootEntries(v, own, pid, p);
  }

  /** A new L2 table under an empty L1 entry. */
  function NewTable(v: Vm, pid: nat, i: nat, t: nat): Vm
    requires Shape(v) && t < PAGES && 0 < pid <= MAX_NPROCESS && v.roots[pid] != 0 && i < ENTRIES
  {
    var w, r := Take(v, t), PageOf(v.roots[pid]);
    var row: seq<nat> := w.mem[r][i := TableEntry(Addr(t))];
    w.(mem := w.mem[r := row])
  }

  ghost predicate CanTable(v: Vm, own: Own, pid: nat, i: nat, t: nat) {
    && Fit(v, own) && t in v.free && t < PAGES && 0 < pid <= MAX_NPROCESS && i < ENTRIES
    && v.roots[pid] != 0 && L1(v, pid, i) == 0
  }

  lemma TableL1(v: Vm, own: Own, pid: nat, i: nat, t: nat)
    requires CanTable(v, own, pid, i, t)
    ensures Shape(NewTable(v, pid, i, t))
    ensures forall q, a | 0 <= q <= MAX_NPROCESS && 0 <= a < ENTRIES ::
              L1(NewTable(v, pid, i, t), q, a) == if q == pid && a == i then TableEntry(Addr(t)) else L1(v, q, a)
  {
    var w, r := NewTable(v, pid, i, t), PageOf(v.roots[pid]);
    assert r in own && r != t;
    forall q, a | 0 <= q <= MAX_NPROCESS && 0 <= a < ENTRIES
      ensures L1(w, q, a) == if q == pid && a == i then TableEntry(Addr(t)) else L1(v, q, a)
    {
      if v.roots[q] != 0 {
        assert PageOf(v.roots[q]) in own && own[PageOf(v.roots[q])] == Root(q);
      }
    }
  }

  lemma TableL2(v: Vm, own: Own, pid: nat, i: nat, t: nat)
    requires CanTable(v, own, pid, i, t) && Shape(NewTable(v, pid, i, t))
    ensures forall q, a, b | 0 <= q <= MAX_NPROCESS && 0 <= a < ENTRIES && 0 <= b < ENTRIES ::
              L2(NewTable(v, pid, i, t), q, a, b) == L2(v, q, a, b)
  {
    var w, r := NewTable(v, pid, i, t), PageOf(v.roots[pid]);
    TableL1(v, own, pid, i, t);
    AddrFacts(t);
    EntryRoundTrip(Addr(t));
    assert r in own && own[r] == Root(pid);
    forall q, a, b | 0 <= q <= MAX_NPROCESS && 0 <= a < ENTRIES && 0 <= b < ENTRIES
      ensures L2(w, q, a, b) == L2(v, q, a, b)
    {
      if !(q == pid && a == i) && L1(v, q, a) != 0 {
        assert own[PageOf(Target(L1(v, q, a)))] == Table(q, a);
      }
    }
  }

  lemma TableKeeps(v: Vm, own: Own, pid: nat, i: nat, t: nat)
    requires CanTable(v, own, pid, i, t)
    ensures Keeps(v, own, NewTable(v, pid, i, t), own[t := Table(pid, i)])
    ensures forall q, a, b | 0 <= q <= MAX_NPROCESS && 0 <= a < ENTRIES && 0 <= b < ENTRIES ::
              L2(NewTable(v, pid, i, t), q, a, b) == L2(v, q, a, b)
  {
    TableL1(v, own, pid, i, t);
    TableL2(v, own, pid, i, t);
    TableOwned(v, own, pid, i, t);
  }

  lemma TableOwned(v: Vm, own: Own, pid: nat, i: nat, t: nat)
    requires CanTable(v, own, pid, i, t) && Shape(NewTable(v, pid, i, t))
    ensures RootsOk(NewTable(v, pid, i, t), own[t := Table(pid, i)]) && TablesOk(NewTable(v, pid, i, t), own[t := Table(pid, i)])
  {
    TableL1(v, own, pid, i, t);
    AddrFacts(t);
    EntryRoundTrip(Addr(t));
  }

  /** Write one L2 entry. */
  function SetLeaf(v: Vm, pid: nat, i: nat, j: nat, e: nat): Vm
    requires Shape(v) && pid <= MAX_NPROCESS && i < ENTRIES && j < ENTRIES
    requires 0 <= PageOf(Target(L1(v, pid, i))) < PAGES
  {
    var t := PageOf(Target(L1(v, pid, i)));
    var row: seq<nat> := v.mem[t][j := e];
    v.(mem := v.mem[t := row])
  }

  ghost predicate CanLeaf(v: Vm, own: Own, pid: nat, i: nat, j: nat) {
    && Fit(v, own) && 0 < pid <= MAX_NPROCESS && i < ENTRIES && j < ENTRIES
    && L1(v, pid, i) != 0 && L2(v, pid, i, j) == 0 && 0 <= PageOf(Target(L1(v, pid, i))) < PAGES
  }

  /** One entry changes, everywhere else the tables read as before: no page is a
      root and a table, or a table of two entries. */
  lemma LeafEntries(v: Vm, own: Own, pid: nat, i: nat, j: nat, e: nat)
    requires CanLeaf(v, own, pid, i, j)
    ensures Shape(SetLeaf(v, pid, i, j, e))
    ensures forall q, a | 0 <= q <= MAX_NPROCESS && 0 <= a < ENTRIES :: L1(SetLeaf(v, pid, i, j, e), q, a) == L1(v, q, a)
    ensures forall q, a, b | 0 <= q <= MAX_NPROCESS && 0 <= a < ENTRIES && 0 <= b < ENTRIES ::
              L2(SetLeaf(v, pid, i, j, e), q, a, b) == if q == pid && a == i && b == j then e else L2(v, q, a, b)
  {
    var w, t := SetLeaf(v, pid, i, j, e), PageOf(Target(L1(v, pid, i)));
    assert t in own && own[t] == Table(pid, i);
    forall q, a | 0 <= q <= MAX_NPROCESS && 0 <= a < ENTRIES ensures L1(w, q, a) == L1(v, q, a) {
      if v.roots[q] != 0 {
        assert own[PageOf(v.roots[q])] == Root(q);
      }
    }
    forall q, a, b | 0 <= q <= MAX_NPROCESS && 0 <= a < ENTRIES && 0 <= b < ENTRIES
      ensures L2(w, q, a, b) == if q == pid && a == i && b == j then e else L2(v, q, a, b)
    {
      if L1(v, q, a) != 0 {
        assert own[PageOf(Target(L1(v, q, a)))] == Table(q, a);
      }
    }
  }

  /** Entry (i, j) maps any page: the tables stay fit. */
  lemma AliasKeeps(v: Vm, own: Own, pid: nat, i: nat, j: nat, pa: nat)
    requires CanLeaf(v, own, pid, i, j) && PageAligned(pa)
    ensures Fit(SetLeaf(v, pid, i, j, Leaf(pa)), own)
  {
    EntryRoundTrip(pa);
    LeafEntries(v, own, pid, i, j, Leaf(pa));
  }

  /** Entry (i, j) maps its own address. */
  lemma IdentityKeeps(v: Vm, own: Own, pid: nat, i: nat, j: nat)
    requires CanLeaf(v, own, pid, i, j)
    ensures Keeps(v, own, SetLeaf(v, pid, i, j, Leaf(Va(i, j))), own)
  {
    VaAligned(i, j);
    AliasKeeps(v, own, pid, i, j, Va(i, j));
    if VmOk(v, own) {
      LeafEntries(v, own, pid, i, j, Leaf(Va(i, j)));
      LeafPages(v, own, SetLeaf(v, pid, i, j, Leaf(Va(i, j))), pid, i, j);
    }
  }

  /** Data pages are mapped at entries that are not empty. */
  lemma LeafPages(v: Vm, own: Own, w: Vm, pid: nat, i: nat, j: nat)
    requires CanLeaf(v, own, pid, i, j) && LeavesOk(v, own) && Shape(w)
    requires forall q, a, b | 0 <= q <= MAX_NPROCESS && 0 <= a < ENTRIES && 0 <= b < ENTRIES && !(q == pid && a == i && b == j) ::
               L2(w, q, a, b) == L2(v, q, a, b)
    ensures forall p | p in own && own[p].Data? :: own[p].pid <= MAX_NPROCESS && own[p].i < ENTRIES && own[p].j < ENTRIES
              && L2(w, own[p].pid, own[p].i, own[p].j) == Leaf(Addr(p))
  {
    forall p | p in own && own[p].Data?
      ensures own[p].pid <= MAX_NPROCESS && own[p].i < ENTRIES && own[p].j < ENTRIES
              && L2(w, own[p].pid, own[p].i, own[p].j) == Leaf(Addr(p))
    {
      AddrFacts(p);
      EntryRoundTrip(Addr(p));
    }
  }

  /** Entry (i, j) maps a loose page, which becomes data of the pid. */
  lemma DataKeeps(v: Vm, own: Own, pid: nat, i: nat, j: nat, p: nat)
    requires CanLeaf(v, own, pid, i, j) && p in own && own[p] == Loose && p < PAGES
    ensures Keeps(v, own, SetLeaf(v, pid, i, j, Leaf(Addr(p))), own[p := Data(pid, i, j)])
  {
    AddrFacts(p);
    AliasKeeps(v, own, pid, i, j, Addr(p));
    DataFits(SetLeaf(v, pid, i, j, Leaf(Addr(p))), own, pid, i, j, p);
    if VmOk(v, own) {
      DataLeaves(v, own, pid, i, j, p);
    }
  }

  lemma DataFits(w: Vm, own: Own, pid: nat, i: nat, j: nat, p: nat)
    requires Fit(w, own) && p in own && own[p] == Loose
    ensures Fit(w, own[p := Data(pid, i, j)])
  {
  }

  lemma DataLeaves(v: Vm, own: Own, pid: nat, i: nat, j: nat, p: nat)
    requires CanLeaf(v, own, pid, i, j) && LeavesOk(v, own) && p in own && own[p] == Loose && p < PAGES
    ensures Shape(SetLeaf(v, pid, i, j, Leaf(Addr(p))))
    ensures LeavesOk(SetLeaf(v, pid, i, j, Leaf(Addr(p))), own[p := Data(pid, i, j)])
  {
    var w := SetLeaf(v, pid, i, j, Leaf(Addr(p)));
    AddrFacts(p);
    EntryRoundTrip(Addr(p));
    LeafEntries(v, own, pid, i, j, Leaf(Addr(p)));
    LeafPages(v, own, w, pid, i, j);
  }

  // --- Freeing ---------------------------------------------------------------

  /** The test of page_table_free on an entry. */
  predicate FreesEntry(i: nat, j: nat, e: nat) {
    Valid(e) && Target(e) != Va(i, j) && BASE <= Target(e) < RAM_END
  }

  /** With the invariant, the test finds exactly the data pages that are not
      mapped at their own address. */
  lemma FreesExactly(v: Vm, own: Own, pid: nat, i: nat, j: nat)
    requires VmOk(v, own) && pid <= MAX_NPROCESS && i < ENTRIES && j < ENTRIES
    ensures var e := L2(v, pid, i, j);
            FreesEntry(i, j, e) ==> var p := PageOf(Target(e));
              0 <= p < PAGES && p in own && own[p] == Data(pid, i, j) && Addr(p) != Va(i, j)
    ensures forall p | p in own && own[p] == Data(pid, i, j) && Addr(p) != Va(i, j) ::
              FreesEntry(i, j, L2(v, pid, i, j)) && PageOf(Target(L2(v, pid, i, j))) == p
  {
    assert LeafOk(own, pid, i, j, L2(v, pid, i, j));
    VaAligned(i, j);
    EntryRoundTrip(Va(i, j));
    forall p | p in own && own[p].Data? ensures Target(Leaf(Addr(p))) == Addr(p) && Valid(Leaf(Addr(p))) && PageOf(Addr(p)) == p && BASE <= Addr(p) < RAM_END {
      AddrFacts(p);
      EntryRoundTrip(Addr(p));
    }
  }

  lemma VaAligned(i: nat, j: nat)
    requires i < ENTRIES && j < ENTRIES
    ensures PageAligned(Va(i, j))
  {
  }

  /** No data page is mapped at its own address. */
  ghost predicate NoSelfMap(own: Own, pid: nat) {
    forall p | p in own && own[p].Data? && own[p].pid == pid :: Addr(p) != Va(own[p].i, own[p].j)
  }

  /** The share of a pid: root, L2 tables and data pages. */
  ghost function Share(own: Own, pid: nat): set<nat> {
    set p | p in own && Belongs(own[p], pid)
  }

  /** The pages page_table_free returns. */
  ghost function Returned(own: Own, pid: nat): set<nat> {
    set p | p in own && Belongs(own[p], pid) && !(own[p].Data? && Addr(p) == Va(own[p].i, own[p].j))
  }

  lemma ReturnedIsShare(own: Own, pid: nat)
    ensures Returned(own, pid) == Share(own, pid) <==> NoSelfMap(own, pid)
  {
    if !NoSelfMap(own, pid) {
      var p :| p in own && own[p].Data? && own[p].pid == pid && Addr(p) == Va(own[p].i, own[p].j);
      assert p in Share(own, pid) && p !in Returned(own, pid);
    }
  }

  /** The ownership left after a free; leaked pages stay allocated, unmapped. */
  ghost function OwnAfterFree(own: Own, pid: nat): Own {
    map p | p in own && p !in Returned(own, pid) :: if Belongs(own[p], pid) then Loose else own[p]
  }

  function FreedVm(v: Vm, pid: nat, pages: set<nat>): Vm
    requires pid < |v.roots|
  {
    v.(roots := v.roots[pid := 0], free := v.free + pages)
  }

  lemma FreeEntries(v: Vm, own: Own, pid: nat)
    requires VmOk(v, own) && 0 < pid <= MAX_NPROCESS
    ensures var w := FreedVm(v, pid, Returned(own, pid));
            && Shape(w)
            && (forall q, i | 0 <= q <= MAX_NPROCESS && 0 <= i < ENTRIES ::
                  L1(w, q, i) == if q == pid then 0 else L1(v, q, i))
            && (forall q, i, j | 0 <= q <= MAX_NPROCESS && 0 <= i < ENTRIES && 0 <= j < ENTRIES ::
                  L2(w, q, i, j) == if q == pid then 0 else L2(v, q, i, j))
  {
  }

  lemma FreePool(v: Vm, own: Own, pid: nat)
    requires VmOk(v, own) && 0 < pid <= MAX_NPROCESS
    ensures PoolOk(FreedVm(v, pid, Returned(own, pid)), OwnAfterFree(own, pid))
  {
  }

  lemma OwnAfterFreeIs(own: Own, pid: nat, p: nat)
    ensures var own1 := OwnAfterFree(own, pid);
            && (p in own1 && !own1[p].Loose? ==> p in own && own1[p] == own[p] && own[p].pid != pid)
            && (p in own && !own[p].Loose? && own[p].pid != pid ==> p in own1 && own1[p] == own[p])
  {
  }

  lemma FreeTables(v: Vm, own: Own, pid: nat)
    requires VmOk(v, own) && 0 < pid <= MAX_NPROCESS
    requires Shape(FreedVm(v, pid, Returned(own, pid)))
    ensures var w, own1 := FreedVm(v, pid, Returned(own, pid)), OwnAfterFree(own, pid);
            RootsOk(w, own1) && TablesOk(w, own1)
  {
    FreeEntries(v, own, pid);
    forall p: nat {
      OwnAfterFreeIs(own, pid, p);
    }
  }

  lemma FreeLeaves(v: Vm, own: Own, pid: nat)
    requires VmOk(v, own) && 0 < pid <= MAX_NPROCESS
    requires Shape(FreedVm(v, pid, Returned(own, pid)))
    ensures LeavesOk(FreedVm(v, pid, Returned(own, pid)), OwnAfterFree(own, pid))
  {
    FreeEntries(v, own, pid);
    forall p: nat {
      OwnAfterFreeIs(own, pid, p);
    }
  }

  /** Freeing keeps the invariant and every other pid's translations. */
  lemma FreeKeeps(v: Vm, own: Own, pid: nat)
    requires VmOk(v, own) && 0 < pid <= MAX_NPROCESS
    ensures var w := FreedVm(v, pid, Returned(own, pid));
            && VmOk(w, OwnAfterFree(own, pid))
            && forall q, i, j | 0 <= q <= MAX_NPROCESS && 0 <= i < ENTRIES && 0 <= j < ENTRIES ::
                 L2(w, q, i, j) == if q == pid then 0 else L2(v, q, i, j)
  {
    FreeEntries(v, own, pid);
    FreePool(v, own, pid);
    FreeTables(v, own, pid);
    FreeLeaves(v, own, pid);
  }
}
