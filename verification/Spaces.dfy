/** The abstract address spaces the page tables implement: one finite map from
    virtual pages to physical addresses per pid. */
module Spaces {
  import opened Words
  import opened PageTable
  import opened Platform

  const VPNS := 0x10_0000             // virtual pages of a 32-bit address space

  /** The abstract map of one pid under the Sv32 walk. */
  ghost function Translation(v: Vm, pid: nat): map<nat, nat>
    requires Shape(v) && pid <= MAX_NPROCESS
  {
    map n: nat | n < VPNS && Walk(v, pid, n / 1024, n % 1024).Some? :: Walk(v, pid, n / 1024, n % 1024).value
  }

  /** None for a pid without a page table. */
  ghost function SpaceOf(v: Vm, pid: nat): Option<map<nat, nat>>
    requires Shape(v) && pid <= MAX_NPROCESS
  {
    if v.roots[pid] == 0 then None else Some(Translation(v, pid))
  }

  ghost function AllSpaces(v: Vm): seq<Option<map<nat, nat>>>
    requires Shape(v)
  {
    seq(MAX_NPROCESS + 1, q requires 0 <= q <= MAX_NPROCESS => SpaceOf(v, q))
  }

  /** No process has a page table. */
  function NoSpaces(): seq<Option<map<nat, nat>>> {
    seq(MAX_NPROCESS + 1, _ => None)
  }

  // --- The predefined regions ------------------------------------------------

  /** First virtual page and number of pages. */
  datatype Region = Region(page: nat, count: nat)

  const SHELL_WORK_DIR := Region(0x8_0302, 1)

  /** The regions page_table_map sets up for a pid. */
  function Regions(pid: nat): seq<Region> {
    if pid < USER_PID_START then
      [Region(0x8_0000, 512),    // RAM_START
       Region(0x8_0400, 1024),   // APPS_PAGES_BASE
       Region(0x0_2000, 16),     // CLINT_BASE
       Region(0x1_0000, 1),      // UART_BASE
       Region(0x4_0000, 1),      // SDHCI_BASE
       Region(0x4_1000, 32),     // ETH_CTL_BASE
       Region(0x2_2000, 1024),   // FLASH_ROM_BASE
       SHELL_WORK_DIR]
    else [SHELL_WORK_DIR]
  }

  predicate Inside(r: Region, n: nat) { r.page <= n < r.page + r.count }

  /** Each region lies in the address space and in one L2 table. */
  predicate RegionFits(r: Region) {
    r.page % 1024 + r.count <= 1024 && r.page + r.count <= VPNS && r.count <= 1024
  }

  /** The predefined regions are pairwise disjoint and each fits one L2 table. */
  lemma RegionsFitAndAreDisjoint(pid: nat)
    ensures AllFit(Regions(pid)) && Disjoint(Regions(pid))
  {
  }

  /** The identity-mapped addresses, in bytes. */
  lemma RegionAddresses(pid: nat, n: nat)
    ensures var a := n * 4096;
            InRegions(Regions(pid), n) <==>
              || 0x8030_2000 <= a < 0x8030_3000
              || (pid < 6 && (|| 0x8000_0000 <= a < 0x8020_0000 || 0x8040_0000 <= a < 0x8080_0000
                              || 0x0200_0000 <= a < 0x0201_0000 || 0x1000_0000 <= a < 0x1000_1000
                              || 0x4000_0000 <= a < 0x4000_1000 || 0x4100_0000 <= a < 0x4102_0000
                              || 0x2200_0000 <= a < 0x2240_0000))
  {
    var rs := Regions(pid);
    if pid < 6 {
      assert InRegions(rs, n) <==> Inside(rs[0], n) || Inside(rs[1], n) || Inside(rs[2], n) || Inside(rs[3], n)
                                   || Inside(rs[4], n) || Inside(rs[5], n) || Inside(rs[6], n) || Inside(rs[7], n);
    } else {
      assert InRegions(rs, n) <==> Inside(rs[0], n);
    }
  }

  predicate InRegions(rs: seq<Region>, n: nat) {
    exists a | 0 <= a < |rs| :: Inside(rs[a], n)
  }

  /** Every page of the regions at its own address. */
  function IdentityMap(rs: seq<Region>): map<nat, nat> {
    map n: nat | n < VPNS && InRegions(rs, n) :: n * 4096
  }

  /** The space a new mapping of `pid` is added to. */
  function BaseSpace(s: Option<map<nat, nat>>, pid: nat): map<nat, nat> {
    match s case None => IdentityMap(Regions(pid)) case Some(m) => m
  }

  // --- Abstract operations ---------------------------------------------------

  /** The arguments of page_table_map. */
  datatype Mapping = Mapping(pid: nat, vpage: u32, ppage: u32)

  /** The virtual page of `vpage_no * PAGE_SIZE` in 32 bits. */
  function Vpn(vpage: u32): (n: nat)
    ensures n < VPNS
  {
    vpage % VPNS
  }

  /** `ppage_id * PAGE_SIZE + APPS_PAGES_BASE` in 32 bits. */
  function Phys(ppage: u32): (pa: nat)
    ensures PageAligned(pa) && (ppage < PAGES ==> pa == Addr(ppage))
  {
    var n := (ppage + BASE / 4096) % VPNS;
    PageNumber(n);
    n * 4096
  }

  lemma PageNumber(n: nat)
    requires n < VPNS
    ensures PageAligned(n * 4096)
  {
  }

  lemma WrapPages(n: nat)
    ensures n * 4096 % 0x1_0000_0000 == n % VPNS * 4096
  {
    var q, r := n / VPNS, n % VPNS;
    assert n == q * VPNS + r;
    assert n * 4096 == q * 0x1_0000_0000 + r * 4096;
    WrapOnce(q, r * 4096);
  }

  lemma WrapOnce(q: nat, r: nat)
    requires r < 0x1_0000_0000
    ensures (q * 0x1_0000_0000 + r) % 0x1_0000_0000 == r
  {
  }

  /** The two functions are the 32-bit arithmetic of the source. */
  lemma MapArithmetic(vpage: u32, ppage: u32)
    ensures Vpn(vpage) * 4096 == vpage as int * 4096 % 0x1_0000_0000
    ensures Phys(ppage) == (ppage as int * 4096 + BASE) % 0x1_0000_0000
  {
    WrapPages(vpage);
    WrapPages(ppage + BASE / 4096);
  }

  /** What page_table_map does to the address spaces. */
  function Map(ss: seq<Option<map<nat, nat>>>, m: Mapping): seq<Option<map<nat, nat>>>
    requires m.pid < |ss|
  {
    ss[m.pid := Some(BaseSpace(ss[m.pid], m.pid)[Vpn(m.vpage) := Phys(m.ppage)])]
  }

  function MapAll(ss: seq<Option<map<nat, nat>>>, ms: seq<Mapping>): (r: seq<Option<map<nat, nat>>>)
    requires forall a | 0 <= a < |ms| :: ms[a].pid < |ss|
    ensures |r| == |ss|
    decreases |ms|
  {
    if ms == [] then ss else Map(MapAll(ss, ms[..|ms| - 1]), ms[|ms| - 1])
  }

  // --- From entries to maps --------------------------------------------------

  /** Equal entries give equal translations. */
  lemma SameTranslation(v: Vm, w: Vm, q: nat)
    requires Shape(v) && Shape(w) && q <= MAX_NPROCESS
    requires forall i, j | 0 <= i < ENTRIES && 0 <= j < ENTRIES :: L2(w, q, i, j) == L2(v, q, i, j)
    ensures Translation(w, q) == Translation(v, q)
  {
    forall n: nat | n < VPNS ensures Walk(w, q, n / 1024, n % 1024) == Walk(v, q, n / 1024, n % 1024) {
      assert L2(w, q, n / 1024, n % 1024) == L2(v, q, n / 1024, n % 1024);
    }
  }

  /** What the walk finds behind an empty entry and behind a leaf. */
  lemma WalkOfEntry(v: Vm, pid: nat, i: nat, j: nat, pa: nat)
    requires Shape(v) && pid <= MAX_NPROCESS && i < ENTRIES && j < ENTRIES && PageAligned(pa)
    ensures L2(v, pid, i, j) == 0 ==> Walk(v, pid, i, j) == None
    ensures L2(v, pid, i, j) == Leaf(pa) ==> Walk(v, pid, i, j) == Some(pa)
  {
    ZeroEntry();
    EntryRoundTrip(pa);
  }

  lemma WalkAfterLeaf(v: Vm, w: Vm, pid: nat, m: nat, pa: nat, n: nat)
    requires Shape(v) && Shape(w) && pid <= MAX_NPROCESS && m < VPNS && n < VPNS && PageAligned(pa)
    requires LeafAdded(v, w, pid, m / 1024, m % 1024, pa)
    ensures Walk(w, pid, n / 1024, n % 1024) == if n == m then Some(pa) else Walk(v, pid, n / 1024, n % 1024)
  {
    WalkOfEntry(w, pid, m / 1024, m % 1024, pa);
    assert L2(w, pid, n / 1024, n % 1024)
        == if n / 1024 == m / 1024 && n % 1024 == m % 1024 then Leaf(pa) else L2(v, pid, n / 1024, n % 1024);
  }

  /** One entry of `pid` was empty and is a leaf for `pa`; the others are as before. */
  ghost predicate LeafAdded(v: Vm, w: Vm, pid: nat, i: nat, j: nat, pa: nat)
    requires Shape(v) && Shape(w) && pid <= MAX_NPROCESS && i < ENTRIES && j < ENTRIES
  {
    && L2(v, pid, i, j) == 0
    && forall a, b | 0 <= a < ENTRIES && 0 <= b < ENTRIES ::
         L2(w, pid, a, b) == if a == i && b == j then Leaf(pa) else L2(v, pid, a, b)
  }

  /** Writing a leaf into an empty entry adds one pair to the map. */
  lemma LeafTranslation(v: Vm, w: Vm, pid: nat, m: nat, pa: nat)
    requires Shape(v) && Shape(w) && pid <= MAX_NPROCESS && m < VPNS && PageAligned(pa)
    requires LeafAdded(v, w, pid, m / 1024, m % 1024, pa)
    ensures m !in Translation(v, pid) && Translation(w, pid) == Translation(v, pid)[m := pa]
  {
    WalkOfEntry(v, pid, m / 1024, m % 1024, pa);
    var a, b := Translation(w, pid), Translation(v, pid)[m := pa];
    forall n: nat | n < VPNS ensures n in a <==> n in b {
      WalkAfterLeaf(v, w, pid, m, pa, n);
    }
    assert a.Keys == b.Keys;
    forall n | n in a ensures a[n] == b[n] {
      WalkAfterLeaf(v, w, pid, m, pa, n);
    }
  }

  lemma VaOfPage(m: nat)
    ensures Va(m / 1024, m % 1024) == m * 4096
  {
    assert m == m / 1024 * 1024 + m % 1024;
  }

  /** An empty entry is one the map does not have. */
  lemma EmptyPage(v: Vm, own: Own, pid: nat, m: nat)
    requires Fit(v, own) && pid <= MAX_NPROCESS && m < VPNS
    ensures L2(v, pid, m / 1024, m % 1024) == 0 <==> m !in Translation(v, pid)
  {
    ZeroEntry();
    assert L2(v, pid, m / 1024, m % 1024) == 0 || Usable(L2(v, pid, m / 1024, m % 1024));
  }

  /** A table entry of the root sends the walk on to the L2 entry. */
  lemma Sv32Entry(v: Vm, own: Own, pid: nat, i: nat, j: nat, access: Access)
    requires Fit(v, own) && pid <= MAX_NPROCESS && i < ENTRIES && j < ENTRIES
    ensures Sv32(v, pid, i, j, access) == if Permits(L2(v, pid, i, j), access) then Some(Target(L2(v, pid, i, j))) else None
  {
    var e := L1(v, pid, i);
    if e != 0 {
      PointerEntry(PageOf(Target(e)));
    }
  }

  /** The tables implement the map: for every page and every kind of user-mode
      access the Sv32 walk yields what the map says, and faults where it says
      nothing. */
  lemma Sv32Refines(v: Vm, own: Own, pid: nat, n: nat, access: Access)
    requires Fit(v, own) && pid <= MAX_NPROCESS && n < VPNS
    ensures Sv32(v, pid, n / 1024, n % 1024, access)
         == if n in Translation(v, pid) then Some(Translation(v, pid)[n]) else None
  {
    Sv32Entry(v, own, pid, n / 1024, n % 1024, access);
    assert L2(v, pid, n / 1024, n % 1024) == 0 || Usable(L2(v, pid, n / 1024, n % 1024));
  }

  lemma FreshTranslation(v: Vm, pid: nat)
    requires Shape(v) && pid <= MAX_NPROCESS
    requires forall i, j | 0 <= i < ENTRIES && 0 <= j < ENTRIES :: L2(v, pid, i, j) == 0
    ensures Translation(v, pid) == map[]
  {
    ZeroEntry();
    forall n: nat | n < VPNS ensures Walk(v, pid, n / 1024, n % 1024) == None {
      assert L2(v, pid, n / 1024, n % 1024) == 0;
    }
  }

  // --- Effect of the elementary updates on the maps --------------------------

  /** From `v` to `w` only the space of `pid` changed; it is now `t`. */
  ghost predicate Update(v: Vm, w: Vm, pid: nat, t: map<nat, nat>) {
    && Shape(v) && Shape(w) && pid <= MAX_NPROCESS
    && (forall q | 0 <= q <= MAX_NPROCESS && q != pid :: w.roots[q] == v.roots[q] && Translation(w, q) == Translation(v, q))
    && Translation(w, pid) == t
  }

  /** Allocated pages keep their owners. */
  ghost predicate Extends(own: Own, own1: Own) {
    forall p | p in own :: p in own1 && own1[p] == own[p]
  }

  lemma RootUpdate(v: Vm, own: Own, pid: nat, p: nat)
    requires Fit(v, own) && p in v.free && p < PAGES && 0 < pid <= MAX_NPROCESS && v.roots[pid] == 0
    ensures Update(v, NewRoot(v, pid, p), pid, map[])
  {
    var w := NewRoot(v, pid, p);
    RootEntries(v, own, pid, p);
    forall q | 0 <= q <= MAX_NPROCESS ensures Translation(w, q) == Translation(v, q) {
      SameTranslation(v, w, q);
    }
    FreshTranslation(w, pid);
  }

  lemma TableUpdate(v: Vm, own: Own, pid: nat, i: nat, t: nat)
    requires CanTable(v, own, pid, i, t)
    ensures Update(v, NewTable(v, pid, i, t), pid, Translation(v, pid))
  {
    var w := NewTable(v, pid, i, t);
    TableL1(v, own, pid, i, t);
    TableL2(v, own, pid, i, t);
    forall q | 0 <= q <= MAX_NPROCESS ensures Translation(w, q) == Translation(v, q) {
      SameTranslation(v, w, q);
    }
  }

  lemma LeafUpdate(v: Vm, own: Own, pid: nat, m: nat, pa: nat)
    requires m < VPNS && CanLeaf(v, own, pid, m / 1024, m % 1024) && PageAligned(pa)
    ensures m !in Translation(v, pid)
    ensures Update(v, SetLeaf(v, pid, m / 1024, m % 1024, Leaf(pa)), pid, Translation(v, pid)[m := pa])
  {
    var w := SetLeaf(v, pid, m / 1024, m % 1024, Leaf(pa));
    LeafEntries(v, own, pid, m / 1024, m % 1024, Leaf(pa));
    LeafTranslation(v, w, pid, m, pa);
    forall q | 0 <= q <= MAX_NPROCESS && q != pid ensures Translation(w, q) == Translation(v, q) {
      SameTranslation(v, w, q);
    }
  }

  /** Mapping page `m` at its own address. */
  lemma IdentityUpdate(v: Vm, own: Own, pid: nat, m: nat)
    requires m < VPNS && CanLeaf(v, own, pid, m / 1024, m % 1024)
    ensures var w := SetLeaf(v, pid, m / 1024, m % 1024, Leaf(m * 4096));
            && Keeps(v, own, w, own) && L1(w, pid, m / 1024) == L1(v, pid, m / 1024) && w.roots == v.roots
            && Update(v, w, pid, Translation(v, pid)[m := m * 4096])
  {
    var i, j := m / 1024, m % 1024;
    VaOfPage(m);
    PageNumber(m);
    IdentityKeeps(v, own, pid, i, j);
    LeafUpdate(v, own, pid, m, m * 4096);
    LeafEntries(v, own, pid, i, j, Leaf(m * 4096));
  }

  /** Mapping page `m` to the loose page `p`. */
  lemma DataUpdate(v: Vm, own: Own, pid: nat, m: nat, p: nat)
    requires m < VPNS && CanLeaf(v, own, pid, m / 1024, m % 1024) && p in own && own[p] == Loose && p < PAGES
    ensures var w := SetLeaf(v, pid, m / 1024, m % 1024, Leaf(Addr(p)));
            && Keeps(v, own, w, own[p := Data(pid, m / 1024, m % 1024)]) && w.roots == v.roots
            && Update(v, w, pid, Translation(v, pid)[m := Addr(p)])
  {
    AddrFacts(p);
    DataKeeps(v, own, pid, m / 1024, m % 1024, p);
    LeafUpdate(v, own, pid, m, Addr(p));
  }

  /** Mapping page `m` to any page. */
  lemma AliasUpdate(v: Vm, own: Own, pid: nat, m: nat, pa: nat)
    requires m < VPNS && CanLeaf(v, own, pid, m / 1024, m % 1024) && PageAligned(pa)
    ensures var w := SetLeaf(v, pid, m / 1024, m % 1024, Leaf(pa));
            Fit(w, own) && w.roots == v.roots && Update(v, w, pid, Translation(v, pid)[m := pa])
  {
    AliasKeeps(v, own, pid, m / 1024, m % 1024, pa);
    LeafUpdate(v, own, pid, m, pa);
  }

  lemma UpdateTrans(u: Vm, v: Vm, w: Vm, pid: nat, t: map<nat, nat>, t1: map<nat, nat>)
    requires Update(u, v, pid, t) && Update(v, w, pid, t1)
    ensures Update(u, w, pid, t1)
  {
  }

  /** The abstract map with a region added. */
  function AddRegion(t: map<nat, nat>, r: Region): map<nat, nat> {
    map n | n in t.Keys + (set m: nat | m < r.page + r.count && Inside(r, m)) :: if Inside(r, n) then n * 4096 else t[n]
  }

  lemma AddRegionStep(t: map<nat, nat>, page: nat, k: nat)
    ensures AddRegion(t, Region(page, k))[page + k := (page + k) * 4096] == AddRegion(t, Region(page, k + 1))
  {
  }

  lemma AddRegionNone(t: map<nat, nat>, page: nat)
    ensures AddRegion(t, Region(page, 0)) == t
  {
  }

  lemma IdentityStep(rs: seq<Region>, k: nat)
    requires k < |rs| && AllFit(rs)
    ensures AddRegion(IdentityMap(rs[..k]), rs[k]) == IdentityMap(rs[..k + 1])
  {
    var a, b := AddRegion(IdentityMap(rs[..k]), rs[k]), IdentityMap(rs[..k + 1]);
    forall n: nat | n < VPNS ensures InRegions(rs[..k + 1], n) <==> InRegions(rs[..k], n) || Inside(rs[k], n) {
      if InRegions(rs[..k], n) {
        var x :| 0 <= x < k && Inside(rs[..k][x], n);
        assert rs[..k + 1][x] == rs[x];
      }
      if Inside(rs[k], n) {
        assert rs[..k + 1][k] == rs[k];
      }
      if InRegions(rs[..k + 1], n) && !Inside(rs[k], n) {
        var x :| 0 <= x < k + 1 && Inside(rs[..k + 1][x], n);
        assert rs[..k][x] == rs[x];
      }
    }
    assert a.Keys == b.Keys;
  }

  predicate AllFit(rs: seq<Region>) {
    forall a | 0 <= a < |rs| :: RegionFits(rs[a]) && rs[a].page < VPNS
  }

  ghost predicate Disjoint(rs: seq<Region>) {
    forall a, b, n | 0 <= a < b < |rs| && Inside(rs[a], n) :: !Inside(rs[b], n)
  }

  /** Disjoint regions: none of them meets the ones before it. */
  lemma NextRegionFree(rs: seq<Region>, k: nat, n: nat)
    requires Disjoint(rs) && k < |rs| && Inside(rs[k], n)
    ensures n !in IdentityMap(rs[..k])
  {
    forall x | 0 <= x < k ensures !Inside(rs[..k][x], n) {
      assert rs[..k][x] == rs[x];
    }
  }

  /** An update in terms of the sequence of spaces. */
  lemma SpacesAfter(v: Vm, w: Vm, pid: nat, t: map<nat, nat>)
    requires Update(v, w, pid, t) && w.roots[pid] != 0
    ensures AllSpaces(w) == AllSpaces(v)[pid := Some(t)]
  {
  }
}
