/** The memory-management unit code of `mem_vm.c`: page-table words are written
    into physical pages, refining the abstract spaces and conserving pages. */
module VirtualMemory {
  import opened Words
  import opened Bits
  import opened PageTable
  import opened Spaces

  class Mmu {
    var mem: Mem
    var roots: seq<nat>
    var free: set<nat>
    ghost var own: Own

    ghost function Value(): Vm
      reads this
    {
      Vm(mem, roots, free)
    }

    /** The tables are in order. */
    ghost predicate Ok()
      reads this
    {
      Fit(Value(), own)
    }

    /** And every data page is mapped once, so pages are conserved. */
    ghost predicate Conserved()
      reads this
    {
      VmOk(Value(), own)
    }

    /** All pages free, no page tables. */
    constructor ()
      ensures Conserved() && free == AllPages() && own == map[] && AllSpaces(Value()) == NoSpaces()
    {
      mem := seq(PAGES, _ => ZeroPage());
      roots := seq(MAX_NPROCESS + 1, _ => 0);
      free := AllPages();
      own := map[];
    }

    /** mmu_alloc: a page for data. */
    method AllocData() returns (r: Option<nat>)
      requires Ok()
      modifies this
      ensures Ok() && (old(Conserved()) ==> Conserved()) && roots == old(roots)
      ensures r.None? ==> free == {} && Value() == old(Value()) && own == old(own)
      ensures r.Some? ==> r.value < PAGES && r.value !in old(own) && own == old(own)[r.value := Loose] && |free| + 1 == old(|free|)
      ensures AllSpaces(Value()) == old(AllSpaces(Value()))
    {
      if free == {} {
        return None;
      }
      var p :| p in free;
      ghost var v := Value();
      assert p < PAGES;
      TakeLoose(v, own, p);
      TakeKeepsEntries(v, own, p);
      mem, free := mem[p := ZeroPage()], free - {p};
      own := own[p := Loose];
      forall q | 0 <= q <= MAX_NPROCESS ensures Translation(Value(), q) == Translation(v, q) {
        SameTranslation(v, Value(), q);
      }
      return Some(p);
    }

    /** A root page for a process that has none. */
    method NewRootPage(pid: nat) returns (ok: bool)
      requires Ok() && 0 < pid <= MAX_NPROCESS && roots[pid] == 0
      modifies this
      ensures Ok() && (old(Conserved()) ==> Conserved()) && Extends(old(own), own) && |free| + 1 >= old(|free|)
      ensures !ok ==> free == {} && Value() == old(Value())
      ensures ok ==> roots[pid] != 0 && Update(old(Value()), Value(), pid, map[])
    {
      if free == {} {
        return false;
      }
      var p :| p in free;
      ghost var v := Value();
      assert p < PAGES;
      RootKeeps(v, own, pid, p);
      RootUpdate(v, own, pid, p);
      mem, free := mem[p := ZeroPage()], free - {p};
      roots := roots[pid := Addr(p)];
      own := own[p := Root(pid)];
      assert Value() == NewRoot(v, pid, p);
      AddrFacts(p);
      return true;
    }

    /** walk with alloc: make sure L1 entry `i` has a table. */
    method WalkAlloc(pid: nat, i: nat) returns (ok: bool)
      requires Ok() && 0 < pid <= MAX_NPROCESS && roots[pid] != 0 && i < ENTRIES
      modifies this
      ensures Ok() && (old(Conserved()) ==> Conserved()) && Extends(old(own), own) && roots == old(roots) && |free| + 1 >= old(|free|)
      ensures Update(old(Value()), Value(), pid, Translation(old(Value()), pid))
      ensures if ok then L1(Value(), pid, i) != 0 else free == {}
    {
      var root := PageOf(roots[pid]);
      if mem[root][i] != 0 {
        return true;
      }
      if free == {} {
        return false;
      }
      var t :| t in free;
      ghost var v := Value();
      assert t < PAGES;
      TableKeeps(v, own, pid, i, t);
      TableUpdate(v, own, pid, i, t);
      TableL1(v, own, pid, i, t);
      mem, free := mem[t := ZeroPage()], free - {t};
      var row: seq<nat> := mem[root][i := TableEntry(Addr(t))];
      mem := mem[root := row];
      own := own[t := Table(pid, i)];
      assert Value() == NewTable(v, pid, i, t);
      AddrFacts(t);
      EntryRoundTrip(Addr(t));
      return true;
    }

    /** The word at the address `walk` returns: entry (i, j) of an existing table. */
    method ReadEntry(pid: nat, i: nat, j: nat) returns (e: nat)
      requires Ok() && 0 < pid <= MAX_NPROCESS && i < ENTRIES && j < ENTRIES && roots[pid] != 0 && L1(Value(), pid, i) != 0
      ensures e == L2(Value(), pid, i, j) && 0 <= PageOf(Target(L1(Value(), pid, i))) < PAGES
    {
      var l1 := mem[PageOf(roots[pid])][i];
      assert l1 == L1(Value(), pid, i);
      e := mem[PageOf(Target(l1))][j];
    }

    method WriteEntry(pid: nat, i: nat, j: nat, e: nat)
      requires Ok() && 0 < pid <= MAX_NPROCESS && i < ENTRIES && j < ENTRIES && roots[pid] != 0 && L1(Value(), pid, i) != 0
      requires 0 <= PageOf(Target(L1(Value(), pid, i))) < PAGES
      modifies this`mem
      ensures Value() == SetLeaf(old(Value()), pid, i, j, e)
    {
      var t := PageOf(Target(mem[PageOf(roots[pid])][i]));
      var row: seq<nat> := mem[t][j := e];
      mem := mem[t := row];
    }

    /** One page of setup_identity_region's loop. */
    method IdentityPage(pid: nat, m: nat) returns (ok: bool)
      requires Ok() && 0 < pid <= MAX_NPROCESS && m < VPNS && roots[pid] != 0 && L1(Value(), pid, m / 1024) != 0
      modifies this`mem
      ensures Ok() && (old(Conserved()) ==> Conserved()) && L1(Value(), pid, m / 1024) != 0
      ensures !ok ==> Value() == old(Value()) && m in Translation(Value(), pid)
      ensures ok ==> Update(old(Value()), Value(), pid, Translation(old(Value()), pid)[m := m * 4096])
    {
      ghost var v := Value();
      var e := ReadEntry(pid, m / 1024, m % 1024);
      EmptyPage(v, own, pid, m);
      if e != 0 {
        return false;
      }
      IdentityUpdate(v, own, pid, m);
      WriteEntry(pid, m / 1024, m % 1024, Leaf(m * 4096));
      return true;
    }

    /** The loop of setup_identity_region over `count` pages of one table. */
    method IdentityPages(pid: nat, page: nat, count: nat) returns (ok: bool)
      requires Ok() && 0 < pid <= MAX_NPROCESS && roots[pid] != 0 && page < VPNS && RegionFits(Region(page, count))
      requires L1(Value(), pid, page / 1024) != 0
      modifies this`mem
      ensures Ok() && (old(Conserved()) ==> Conserved())
      ensures ok ==> Update(old(Value()), Value(), pid, AddRegion(Translation(old(Value()), pid), Region(page, count)))
      ensures !ok ==> exists n | Inside(Region(page, count), n) :: n in Translation(old(Value()), pid)
    {
      ghost var v, t := Value(), Translation(Value(), pid);
      AddRegionNone(t, page);
      for k := 0 to count
        invariant Ok() && (old(Conserved()) ==> Conserved()) && L1(Value(), pid, page / 1024) != 0
        invariant Update(v, Value(), pid, AddRegion(t, Region(page, k)))
      {
        var m := page + k;
        SameTable(page, k);
        ghost var u := Value();
        ok := IdentityPage(pid, m);
        if !ok {
          assert Inside(Region(page, count), m) && m in t;
          return;
        }
        RegionStep(v, u, Value(), pid, t, page, k);
      }
      ok := true;
    }

    /** setup_identity_region. It fails on an entry in use or an exhausted pool. */
    method SetupIdentityRegion(pid: nat, r: Region) returns (ok: bool)
      requires Ok() && 0 < pid <= MAX_NPROCESS && roots[pid] != 0 && RegionFits(r) && r.page < VPNS
      modifies this
      ensures Ok() && (old(Conserved()) ==> Conserved()) && Extends(old(own), own) && roots == old(roots) && |free| + 1 >= old(|free|)
      ensures ok ==> Update(old(Value()), Value(), pid, AddRegion(Translation(old(Value()), pid), r))
      ensures !ok ==> free == {} || exists n | Inside(r, n) :: n in Translation(old(Value()), pid)
    {
      ghost var v, t := Value(), Translation(Value(), pid);
      ok := WalkAlloc(pid, r.page / 1024);
      if ok {
        ghost var u := Value();
        ok := IdentityPages(pid, r.page, r.count);
        if ok {
          UpdateTrans(v, u, Value(), pid, t, AddRegion(t, r));
        }
      }
    }

    /** The regions of a new page table, one call of setup_identity_region each. */
    method SetupRegions(pid: nat, rs: seq<Region>) returns (ok: bool)
      requires Ok() && 0 < pid <= MAX_NPROCESS && roots[pid] != 0 && Translation(Value(), pid) == map[]
      requires AllFit(rs) && Disjoint(rs)
      modifies this
      ensures Ok() && (old(Conserved()) ==> Conserved()) && Extends(old(own), own) && roots == old(roots) && |free| + |rs| >= old(|free|)
      ensures ok ==> Update(old(Value()), Value(), pid, IdentityMap(rs))
      ensures !ok ==> free == {}
    {
      ghost var v := Value();
      assert IdentityMap(rs[..0]) == map[];
      for k := 0 to |rs|
        invariant Ok() && (old(Conserved()) ==> Conserved()) && Extends(old(own), own) && roots == old(roots) && |free| + k >= old(|free|)
        invariant Update(v, Value(), pid, IdentityMap(rs[..k]))
      {
        ghost var u := Value();
        forall n | Inside(rs[k], n) ensures n !in IdentityMap(rs[..k]) {
          NextRegionFree(rs, k, n);
        }
        ok := SetupIdentityRegion(pid, rs[k]);
        if !ok {
          return;
        }
        IdentityStep(rs, k);
        UpdateTrans(v, u, Value(), pid, IdentityMap(rs[..k]), IdentityMap(rs[..k + 1]));
      }
      assert rs[..|rs|] == rs;
      ok := true;
    }

    /** The page table a mapping goes into, created with its regions if absent. */
    method EnsureTable(pid: nat) returns (ok: bool)
      requires Ok() && 0 < pid <= MAX_NPROCESS
      modifies this
      ensures Ok() && (old(Conserved()) ==> Conserved()) && Extends(old(own), own) && |free| + 9 >= old(|free|)
      ensures ok ==> roots[pid] != 0
                     && Update(old(Value()), Value(), pid, BaseSpace(SpaceOf(old(Value()), pid), pid))
      ensures !ok ==> free == {}
    {
      ok := true;
      ghost var v := Value();
      if roots[pid] == 0 {
        ok := NewRootPage(pid);
        if ok {
          ghost var u := Value();
          RegionsFitAndAreDisjoint(pid);
          ok := SetupRegions(pid, Regions(pid));
          if ok {
            UpdateTrans(v, u, Value(), pid, map[], IdentityMap(Regions(pid)));
          }
        }
      }
    }

    /** page_table_map: refines the abstract `Map` for every page and every number.
        It fails on an illegal pid, a page already mapped, or an exhausted pool,
        where the source stops the machine; it needs at most ten new pages. An
        allocated page that is mapped for the first time becomes data of the pid. */
    method PageTableMap(pid: nat, vpage: u32, ppage: u32) returns (ok: bool)
      requires Ok()
      modifies this
      ensures Ok() && |free| + 10 >= old(|free|)
      ensures var space := if pid <= MAX_NPROCESS then BaseSpace(SpaceOf(old(Value()), pid), pid) else map[];
              && (ok ==> 0 < pid <= MAX_NPROCESS && Vpn(vpage) !in space)
              && (!ok ==> !(0 < pid <= MAX_NPROCESS) || free == {} || Vpn(vpage) in space)
      ensures ok ==> AllSpaces(Value()) == Map(AllSpaces(old(Value())), Mapping(pid, vpage, ppage))
      ensures Owned(old(own), own, ok, pid, Vpn(vpage), ppage)
      ensures old(Conserved()) && (!ok || IsLoose(old(own), ppage)) ==> Conserved()
    {
      ok := false;
      if !(0 < pid <= MAX_NPROCESS) {
        return;
      }
      ghost var v := Value();
      ok := EnsureTable(pid);
      if !ok {
        return;
      }
      ghost var u, t := Value(), Translation(Value(), pid);
      ok := MapEntry(pid, Vpn(vpage), ppage);
      if ok {
        UpdateTrans(v, u, Value(), pid, t, t[Vpn(vpage) := Phys(ppage)]);
        SpacesAfter(v, Value(), pid, t[Vpn(vpage) := Phys(ppage)]);
      }
    }

    /** `walk` with alloc, and the store at the address it returns. */
    method MapEntry(pid: nat, vpn: nat, ppage: u32) returns (ok: bool)
      requires Ok() && 0 < pid <= MAX_NPROCESS && roots[pid] != 0 && vpn < VPNS
      modifies this
      ensures Ok() && roots == old(roots) && |free| + 1 >= old(|free|)
      ensures ok ==> vpn !in Translation(old(Value()), pid)
                     && Update(old(Value()), Value(), pid, Translation(old(Value()), pid)[vpn := Phys(ppage)])
      ensures !ok ==> free == {} || vpn in Translation(old(Value()), pid)
      ensures Owned(old(own), own, ok, pid, vpn, ppage)
      ensures old(Conserved()) && (!ok || IsLoose(old(own), ppage)) ==> Conserved()
    {
      ghost var v, t := Value(), Translation(Value(), pid);
      ok := WalkAlloc(pid, vpn / 1024);
      if !ok {
        return;
      }
      ghost var w := Value();
      ok := StoreEntry(pid, vpn, ppage);
      if ok {
        UpdateTrans(v, w, Value(), pid, t, t[vpn := Phys(ppage)]);
      }
    }

    /** The store, once the table exists. */
    method StoreEntry(pid: nat, vpn: nat, ppage: u32) returns (ok: bool)
      requires Ok() && 0 < pid <= MAX_NPROCESS && vpn < VPNS && L1(Value(), pid, vpn / 1024) != 0
      modifies this`mem, this`own
      ensures Ok() && (ok <==> vpn !in Translation(old(Value()), pid))
      ensures ok ==> Update(old(Value()), Value(), pid, Translation(old(Value()), pid)[vpn := Phys(ppage)])
      ensures own == if ok && IsLoose(old(own), ppage) then old(own)[ppage := Data(pid, vpn / 1024, vpn % 1024)] else old(own)
      ensures old(Conserved()) && (!ok || IsLoose(old(own), ppage)) ==> Conserved()
    {
      var e := ReadEntry(pid, vpn / 1024, vpn % 1024);
      EmptyPage(Value(), own, pid, vpn);
      ok := e == 0;
      if ok {
        if IsLoose(own, ppage) {
          DataUpdate(Value(), own, pid, vpn, ppage);
        } else {
          AliasUpdate(Value(), own, pid, vpn, Phys(ppage));
        }
        WriteEntry(pid, vpn / 1024, vpn % 1024, Leaf(Phys(ppage)));
        own := if IsLoose(own, ppage) then own[ppage := Data(pid, vpn / 1024, vpn % 1024)] else own;
      }
    }

    /** Any sequence of page_table_map calls refines the same sequence of abstract
        mappings; it stops at the first call that fails. */
    method MapMany(ms: seq<Mapping>) returns (done: nat)
      requires Ok()
      modifies this
      ensures Ok() && done <= |ms| && PidsLegal(ms, done)
      ensures done == |ms| ==> AllSpaces(Value()) == MapAll(AllSpaces(old(Value())), ms)
      ensures old(Conserved()) && MappedOnce(old(own), ms) ==> Conserved()
    {
      ghost var once := Conserved() && MappedOnce(own, ms);
      assert ms[..0] == [];
      done := MapRest(ms, 0, AllSpaces(Value()), once);
      assert ms[..|ms|] == ms;
    }

    /** The calls from the k-th on. */
    method MapRest(ms: seq<Mapping>, k: nat, ghost ss: seq<Option<map<nat, nat>>>, ghost once: bool) returns (done: nat)
      requires Ok() && k <= |ms| && |ss| == MAX_NPROCESS + 1 && PidsLegal(ms, k)
      requires AllSpaces(Value()) == MapAll(ss, ms[..k])
      requires once ==> LooseFrom(own, ms, k) && Distinct(ms) && Conserved()
      modifies this
      ensures Ok() && (once ==> Conserved()) && k <= done <= |ms| && PidsLegal(ms, done)
      ensures done == |ms| ==> AllSpaces(Value()) == MapAll(ss, ms[..|ms|])
      decreases |ms| - k
    {
      done := k;
      if k < |ms| {
        var ok := MapNext(ms, k, ss, once);
        if ok {
          done := MapRest(ms, k + 1, ss, once);
        }
      }
    }

    /** One call of such a sequence. */
    method MapNext(ms: seq<Mapping>, k: nat, ghost ss: seq<Option<map<nat, nat>>>, ghost once: bool) returns (ok: bool)
      requires Ok() && k < |ms| && |ss| == MAX_NPROCESS + 1 && PidsLegal(ms, k)
      requires AllSpaces(Value()) == MapAll(ss, ms[..k])
      requires once ==> LooseFrom(own, ms, k) && Distinct(ms) && Conserved()
      modifies this
      ensures Ok() && (once ==> Conserved())
      ensures ok ==> PidsLegal(ms, k + 1) && AllSpaces(Value()) == MapAll(ss, ms[..k + 1])
      ensures ok && once ==> LooseFrom(own, ms, k + 1)
    {
      ok := PageTableMap(ms[k].pid, ms[k].vpage, ms[k].ppage);
      if ok {
        MapAllStep(ss, ms, k);
        if once {
          StillLoose(old(own), own, ms, k);
        }
      }
    }

    /** page_table_translate: the mapped page plus the offset, for every address. */
    method PageTableTranslate(pid: nat, va: u32) returns (r: Option<nat>)
      requires Ok()
      ensures r == if 0 < pid <= MAX_NPROCESS && SpaceOf(Value(), pid).Some? && va / 4096 in SpaceOf(Value(), pid).value
                   then Some(SpaceOf(Value(), pid).value[va / 4096] + va % 4096) else None
    {
      if !(0 < pid <= MAX_NPROCESS) || roots[pid] == 0 {
        return None;
      }
      Indices(va);
      var i, j := va / 0x40_0000, And(va / 4096, 0x3ff);
      TranslateIs(Value(), own, pid, va / 4096, i, j);
      var e := WalkRead(pid, i, j);
      PhysicalIs(e, va);
      return if PageTable.Valid(e) then Some(Physical(e, va)) else None;
    }

    /** `walk` without alloc, dereferenced; 0 where the source stops. */
    method WalkRead(pid: nat, i: nat, j: nat) returns (e: nat)
      requires Ok() && 0 < pid <= MAX_NPROCESS && roots[pid] != 0 && i < ENTRIES && j < ENTRIES
      ensures e == L2(Value(), pid, i, j)
    {
      if mem[PageOf(roots[pid])][i] == 0 {
        return 0;
      }
      e := ReadEntry(pid, i, j);
    }

    /** pfree: the page must be allocated, so no page is freed twice. */
    method Pfree(p: nat)
      requires p < PAGES && p !in free
      modifies this`free
      ensures free == old(free) + {p}
    {
      free := free + {p};
    }

    /** The inner loop of page_table_free: data pages of one table. */
    method FreeData(pid: nat, i: nat)
      requires VmOk(Vm(mem, roots, free - FreedBefore(own, pid, i, 0)), own) && FreedBefore(own, pid, i, 0) <= free
      requires 0 < pid <= MAX_NPROCESS && i < ENTRIES && roots[pid] != 0 && L1(Value(), pid, i) != 0
      modifies this`free
      ensures free == old(free) + FreedBefore(own, pid, i, ENTRIES)
    {
      ghost var v := Vm(mem, roots, free - FreedBefore(own, pid, i, 0));
      var l2 := PageOf(Target(mem[PageOf(roots[pid])][i]));
      assert L1(Value(), pid, i) == L1(v, pid, i);
      for j := 0 to ENTRIES
        invariant free == old(free) + FreedBefore(own, pid, i, j)
      {
        var e := mem[l2][j];
        assert e == L2(v, pid, i, j);
        FreesExactly(v, own, pid, i, j);
        FreedStep(own, pid, i, j);
        if FreesEntry(i, j, e) {
          NotYetFreed(v, own, pid, i, j, PageOf(Target(e)));
          Pfree(PageOf(Target(e)));
        }
      }
    }

    /** One turn of the outer loop of page_table_free. */
    method FreeTable(pid: nat, i: nat)
      requires VmOk(Vm(mem, roots, free - FreedBefore(own, pid, i, 0)), own) && FreedBefore(own, pid, i, 0) <= free
      requires 0 < pid <= MAX_NPROCESS && i < ENTRIES && roots[pid] != 0
      modifies this`free
      ensures free == old(free) + FreedBefore(own, pid, i + 1, 0)
    {
      ghost var v := Vm(mem, roots, free - FreedBefore(own, pid, i, 0));
      var l1 := mem[PageOf(roots[pid])][i];
      assert l1 == L1(v, pid, i) == L1(Value(), pid, i);
      NextTable(v, own, pid, i);
      if PageTable.Valid(l1) {
        FreeData(pid, i);
        Pfree(PageOf(Target(l1)));
      }
    }

    /** The outer loop. */
    method FreeTables(pid: nat)
      requires Conserved() && 0 < pid <= MAX_NPROCESS && roots[pid] != 0
      modifies this`free
      ensures free == old(free) + FreedBefore(own, pid, ENTRIES, 0)
    {
      ghost var v := Value();
      NothingFreed(own, pid);
      for i := 0 to ENTRIES
        invariant free == v.free + FreedBefore(own, pid, i, 0)
      {
        FreedFromAllocated(v, own, pid, i);
        FreeTable(pid, i);
      }
    }

    /** page_table_free: returns the pid's pages, each once, and changes no other
        address space. It returns the pid's whole share if and only if no data page
        of it is mapped at its own address; such pages are skipped. */
    method PageTableFree(pid: nat) returns (ok: bool)
      requires Conserved()
      modifies this
      ensures Conserved() && (ok <==> 0 < pid <= MAX_NPROCESS)
      ensures !ok ==> Value() == old(Value()) && own == old(own)
      ensures ok ==> AllSpaces(Value()) == AllSpaces(old(Value()))[pid := None]
      ensures ok && old(roots[pid]) != 0 ==> free == old(free) + Returned(old(own), pid) && own == OwnAfterFree(old(own), pid)
      ensures ok && old(roots[pid]) != 0 ==> (free == old(free) + Share(old(own), pid) <==> NoSelfMap(old(own), pid))
      ensures ok && old(roots[pid]) == 0 ==> Value() == old(Value()) && own == old(own)
    {
      if !(0 < pid <= MAX_NPROCESS) {
        return false;
      }
      if roots[pid] == 0 {
        return true;
      }
      ghost var v := Value();
      FreePages(pid);
      ClearRoot(pid, v);
      return true;
    }

    /** All pages of the pid, the root last. */
    method FreePages(pid: nat)
      requires Conserved() && 0 < pid <= MAX_NPROCESS && roots[pid] != 0
      modifies this`free
      ensures free == old(free) + Returned(own, pid)
    {
      AllFreed(Value(), own, pid);
      FreeTables(pid);
      Pfree(PageOf(roots[pid]));
    }

    /** The last statement; `v` is the state before the pages were returned. */
    method ClearRoot(pid: nat, ghost v: Vm)
      requires VmOk(v, own) && 0 < pid <= MAX_NPROCESS && Value() == v.(free := v.free + Returned(own, pid))
      modifies this`roots, this`own
      ensures Conserved() && AllSpaces(Value()) == AllSpaces(v)[pid := None] && own == OwnAfterFree(old(own), pid)
      ensures free == v.free + Share(old(own), pid) <==> NoSelfMap(old(own), pid)
    {
      FreeResult(v, own, pid);
      roots := roots[pid := 0];
      own := OwnAfterFree(own, pid);
      assert Value() == FreedVm(v, pid, Returned(old(own), pid));
    }
  }

  /** One turn of the loop of setup_identity_region. */
  lemma RegionStep(v: Vm, u: Vm, w: Vm, pid: nat, t: map<nat, nat>, page: nat, k: nat)
    requires Update(v, u, pid, AddRegion(t, Region(page, k)))
    requires Update(u, w, pid, Translation(u, pid)[page + k := (page + k) * 4096])
    ensures Update(v, w, pid, AddRegion(t, Region(page, k + 1)))
  {
    AddRegionStep(t, page, k);
    UpdateTrans(v, u, w, pid, AddRegion(t, Region(page, k)), AddRegion(t, Region(page, k + 1)));
  }

  /** An L1 entry is valid exactly when it has a table, which is the only one. */
  lemma TableOf(v: Vm, own: Own, pid: nat, i: nat)
    requires VmOk(v, own) && pid <= MAX_NPROCESS && i < ENTRIES
    ensures var l1 := L1(v, pid, i);
            && (PageTable.Valid(l1) <==> l1 != 0)
            && (l1 != 0 ==> var t := PageOf(Target(l1)); 0 <= t < PAGES && t in own && own[t] == Table(pid, i) && t !in v.free)
            && forall p | p in own && own[p] == Table(pid, i) :: l1 != 0 && PageOf(Target(l1)) == p
  {
    ZeroEntry();
    var l1 := L1(v, pid, i);
    if l1 != 0 {
      AddrFacts(PageOf(Target(l1)));
      EntryRoundTrip(Addr(PageOf(Target(l1))));
    }
    forall p | p in own && own[p] == Table(pid, i) ensures l1 != 0 && PageOf(Target(l1)) == p {
      AddrFacts(p);
      EntryRoundTrip(Addr(p));
    }
  }

  /** Data pages are under a table. */
  lemma DataUnderTable(v: Vm, own: Own, pid: nat, i: nat, p: nat)
    requires VmOk(v, own) && pid <= MAX_NPROCESS && i < ENTRIES && p in own && own[p].Data? && own[p].pid == pid && own[p].i == i
    ensures own[p].j < ENTRIES && L1(v, pid, i) != 0
  {
    AddrFacts(p);
    EntryRoundTrip(Addr(p));
  }

  /** Past table `i`: its data pages and the table itself, if there is one. */
  lemma NextTable(v: Vm, own: Own, pid: nat, i: nat)
    requires VmOk(v, own) && 0 < pid <= MAX_NPROCESS && i < ENTRIES && v.roots[pid] != 0
    ensures var l1 := L1(v, pid, i);
            if PageTable.Valid(l1) then
              l1 != 0 && 0 <= PageOf(Target(l1)) < PAGES && PageOf(Target(l1)) !in v.free
              && PageOf(Target(l1)) !in FreedBefore(own, pid, i, ENTRIES)
              && FreedBefore(own, pid, i + 1, 0) == FreedBefore(own, pid, i, ENTRIES) + {PageOf(Target(l1))}
            else FreedBefore(own, pid, i + 1, 0) == FreedBefore(own, pid, i, 0)
  {
    TableOf(v, own, pid, i);
    forall p | p in own && own[p].Data? && own[p].pid == pid && own[p].i == i ensures own[p].j < ENTRIES && L1(v, pid, i) != 0 {
      DataUnderTable(v, own, pid, i, p);
    }
  }

  lemma NothingFreed(own: Own, pid: nat)
    ensures FreedBefore(own, pid, 0, 0) == {}
  {
  }

  /** At the end everything but the root has been returned. */
  lemma AllFreed(v: Vm, own: Own, pid: nat)
    requires VmOk(v, own) && 0 < pid <= MAX_NPROCESS && v.roots[pid] != 0
    ensures var r := PageOf(v.roots[pid]);
            && 0 <= r < PAGES && r !in v.free && r !in FreedBefore(own, pid, ENTRIES, 0)
            && Returned(own, pid) == FreedBefore(own, pid, ENTRIES, 0) + {r}
  {
    var r := PageOf(v.roots[pid]);
    assert own[r] == Root(pid);
    forall p | p in Returned(own, pid) && p != r ensures Passed(own[p], ENTRIES, 0) {
      AddrFacts(p);
    }
  }

  /** The free pages tell whether the whole share was returned. */
  lemma ShareReturned(v: Vm, own: Own, pid: nat)
    requires VmOk(v, own)
    ensures v.free + Returned(own, pid) == v.free + Share(own, pid) <==> NoSelfMap(own, pid)
  {
    ReturnedIsShare(own, pid);
    forall p | p in Share(own, pid) ensures p !in v.free {
    }
    if v.free + Returned(own, pid) == v.free + Share(own, pid) {
      forall p | p in Share(own, pid) ensures p in Returned(own, pid) {
        assert p in v.free + Share(own, pid);
      }
      assert Returned(own, pid) <= Share(own, pid);
    }
  }

  /** The state page_table_free leaves. */
  lemma FreeResult(v: Vm, own: Own, pid: nat)
    requires VmOk(v, own) && 0 < pid <= MAX_NPROCESS
    ensures var w := FreedVm(v, pid, Returned(own, pid));
            && VmOk(w, OwnAfterFree(own, pid)) && AllSpaces(w) == AllSpaces(v)[pid := None]
            && (w.free == v.free + Share(own, pid) <==> NoSelfMap(own, pid))
  {
    ShareReturned(v, own, pid);
    FreeKeeps(v, own, pid);
    FreedSpaces(v, FreedVm(v, pid, Returned(own, pid)), pid);
  }

  lemma FreedFromAllocated(v: Vm, own: Own, pid: nat, i: nat)
    requires VmOk(v, own)
    ensures (v.free + FreedBefore(own, pid, i, 0)) - FreedBefore(own, pid, i, 0) == v.free
  {
  }

  lemma FreedSpaces(v: Vm, w: Vm, pid: nat)
    requires Shape(v) && Shape(w) && 0 < pid <= MAX_NPROCESS && w.roots == v.roots[pid := 0]
    requires forall q, i, j | 0 <= q <= MAX_NPROCESS && 0 <= i < ENTRIES && 0 <= j < ENTRIES && q != pid ::
               L2(w, q, i, j) == L2(v, q, i, j)
    ensures AllSpaces(w) == AllSpaces(v)[pid := None]
  {
    forall q | 0 <= q <= MAX_NPROCESS && q != pid ensures Translation(w, q) == Translation(v, q) {
      SameTranslation(v, w, q);
    }
  }

  /** The pages page_table_free has returned when it reaches entry (i, j). */
  ghost function FreedBefore(own: Own, pid: nat, i: nat, j: nat): set<nat> {
    set p | p in Returned(own, pid) && Passed(own[p], i, j)
  }

  predicate Passed(o: Owner, i: nat, j: nat) {
    match o
    case Table(_, a) => a < i
    case Data(_, a, b) => a < i || (a == i && b < j)
    case _ => false
  }

  /** Moving past entry (i, j) adds its data page, if it has one to be returned. */
  lemma FreedStep(own: Own, pid: nat, i: nat, j: nat)
    ensures FreedBefore(own, pid, i, j + 1)
         == FreedBefore(own, pid, i, j) + (set p | p in own && own[p] == Data(pid, i, j) && Addr(p) != Va(i, j))
  {
  }

  lemma NotYetFreed(v: Vm, own: Own, pid: nat, i: nat, j: nat, p: nat)
    requires VmOk(v, own) && p in own && own[p] == Data(pid, i, j)
    ensures p !in v.free && p !in FreedBefore(own, pid, i, j) && p < PAGES
  {
  }

  /** `va >> 22` and `(va >> 12) & 0x3FF` split the virtual page number. */
  lemma Indices(va: u32)
    ensures va / 0x40_0000 == va / 4096 / 1024 && And(va / 4096, 0x3ff) == va / 4096 % 1024
    ensures va / 4096 < VPNS && va / 4096 / 1024 < ENTRIES
  {
    Powers();
    var n := va / 4096;
    AndLow(n / 1024, n % 1024, 10);
    assert n / 1024 * 1024 + n % 1024 == n;
  }

  /** `pa_base | (va & 0xFFF)`. */
  function Physical(e: nat, va: u32): nat { Or(Target(e), And(va, 0xfff)) }

  lemma PhysicalIs(e: nat, va: u32)
    ensures Physical(e, va) == Target(e) + va % 4096
  {
    TargetAligned(e);
    AndOffset(va);
    OrOffset(Target(e) / 4096, va % 4096);
  }

  /** The words page_table_translate reads are the abstract map. */
  lemma TranslateIs(v: Vm, own: Own, pid: nat, n: nat, i: nat, j: nat)
    requires Fit(v, own) && pid <= MAX_NPROCESS && n < VPNS && i == n / 1024 && j == n % 1024
    ensures Valid(L2(v, pid, i, j)) <==> n in Translation(v, pid)
    ensures Valid(L2(v, pid, i, j)) ==> Translation(v, pid)[n] == Target(L2(v, pid, i, j))
  {
    ZeroEntry();
    assert L2(v, pid, i, j) == 0 || Usable(L2(v, pid, i, j));
  }

  lemma MapAllStep(ss: seq<Option<map<nat, nat>>>, ms: seq<Mapping>, k: nat)
    requires k < |ms| && forall a | 0 <= a <= k :: ms[a].pid < |ss|
    ensures MapAll(ss, ms[..k + 1]) == Map(MapAll(ss, ms[..k]), ms[k])
  {
    assert ms[..k + 1][..k] == ms[..k];
  }

  /** An allocated page that is not used yet. */
  ghost predicate IsLoose(own: Own, p: nat) { p in own && own[p] == Loose }

  /** Ownership after page_table_map: only a loose page changes its owner. */
  ghost predicate Owned(own: Own, own1: Own, ok: bool, pid: nat, vpn: nat, p: nat) {
    && (forall q | q in own && q != p :: q in own1 && own1[q] == own[q])
    && (p in own ==> p in own1 && own1[p] == if ok && IsLoose(own, p) then Data(pid, vpn / 1024, vpn % 1024) else own[p])
  }

  /** Each call maps an allocated page of its own. */
  ghost predicate MappedOnce(own: Own, ms: seq<Mapping>) {
    LooseFrom(own, ms, 0) && Distinct(ms)
  }

  predicate PidsLegal(ms: seq<Mapping>, k: nat) {
    forall a | 0 <= a < k && a < |ms| :: 0 < ms[a].pid <= MAX_NPROCESS
  }

  ghost predicate LooseFrom(own: Own, ms: seq<Mapping>, k: nat) {
    forall a | k <= a < |ms| :: IsLoose(own, ms[a].ppage)
  }

  predicate Distinct(ms: seq<Mapping>) {
    forall a, b | 0 <= a < b < |ms| :: ms[a].ppage != ms[b].ppage
  }

  lemma StillLoose(own: Own, own1: Own, ms: seq<Mapping>, k: nat)
    requires k < |ms| && LooseFrom(own, ms, k) && Distinct(ms)
    requires Owned(own, own1, true, ms[k].pid, Vpn(ms[k].vpage), ms[k].ppage)
    ensures LooseFrom(own1, ms, k + 1)
  {
  }

  predicate IsPage(p: nat) { p < PAGES }

  function AllPages(): (s: set<nat>)
    ensures forall p: nat :: p in s <==> p < PAGES
  {
    set p: nat | p < PAGES && IsPage(p)
  }

  lemma {:induction false} PagesBelow(s: set<nat>, n: nat)
    requires forall p: nat :: p in s <==> p < n
    ensures |s| == n
  {
    if n == 0 {
      assert s == {};
    } else {
      PagesBelow(s - {n - 1}, n - 1);
    }
  }

  /** A process maps an allocated page at its own address. */
  method MapAtOwnAddress(m: Mmu, page: nat)
    requires m.Conserved() && page < PAGES && IsLoose(m.own, page) && m.roots[6] == 0 && |m.free| > 10
    modifies m
    ensures m.Conserved() && page in m.own && m.own[page] == Data(6, (0x8_0400 + page) / 1024, (0x8_0400 + page) % 1024)
    ensures AllSpaces(m.Value())[6 := None] == old(AllSpaces(m.Value()))
  {
    NotInWorkDir(page);
    var ok := m.PageTableMap(6, 0x8_0400 + page, page);
  }

  /** Its page table is freed and the page is not returned. */
  method LeakedPage() returns (m: Mmu, page: nat)
    ensures fresh(m) && m.Conserved() && page < PAGES && page !in m.free
    ensures AllSpaces(m.Value()) == NoSpaces()
  {
    m := new Mmu();
    PagesBelow(m.free, PAGES);
    var r := m.AllocData();
    page := r.value;
    NoRoot(m.Value(), 6);
    MapAtOwnAddress(m, page);
    SelfMapped(m.own, page);
    var freed := m.PageTableFree(6);
  }

  lemma NoRoot(v: Vm, pid: nat)
    requires Shape(v) && pid <= MAX_NPROCESS && AllSpaces(v) == NoSpaces()
    ensures v.roots[pid] == 0
  {
    assert AllSpaces(v)[pid] == None;
  }

  lemma NotInWorkDir(page: nat)
    requires page < PAGES
    ensures Vpn(0x8_0400 + page) == 0x8_0400 + page && 0x8_0400 + page !in IdentityMap(Regions(6))
  {
  }

  lemma SelfMapped(own: Own, page: nat)
    requires page < PAGES && page in own && own[page] == Data(6, (0x8_0400 + page) / 1024, (0x8_0400 + page) % 1024)
    ensures page !in Returned(own, 6)
  {
    VaOfPage(0x8_0400 + page);
  }

  /** The pages of a region stay within one table. */
  lemma SameTable(page: nat, k: nat)
    requires page % 1024 + k < 1024
    ensures (page + k) / 1024 == page / 1024
  {
  }
}
