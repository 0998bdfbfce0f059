/**
 * The mm_rtt_fold_assigned_ns host test: 512 consecutive pages of host
 * memory mapped at unprotected IPAs fill one level 3 table; RTT_FOLD turns
 * that table into one level 2 block entry; reads after the fold see the
 * block entry one level up; RTT_CREATE of the level 3 table again gives
 * every page its own entry back.
 */
module RttFoldTest {
  import opened RmmTypes
  import opened Rtt
  import opened Monitor
  import opened Host
  import opened Checks

  /** Size and alignment of the host memory the test maps (ALIGNED_2MB). */
  const MAP_SIZE: int := L2_SIZE
  /** Offset of the mapped range inside the unprotected half (IPA_ALIGNED_2MB). */
  const IPA_ALIGNED_2MB: int := 0x80_0000
  /** First mapped IPA: 2^(s2sz - 1) + IPA_ALIGNED_2MB, for the default 40-bit IPA space. */
  const FOLD_IPA: int := L0_SIZE + IPA_ALIGNED_2MB
  /** Offset of the second IPA the test reads inside the block. */
  const PROBE_OFFSET: int := 0x8_0000
  /** Attributes of the host mappings: normal write-back memory. */
  const NS_ATTRS: set<MemAttr> := {NormalWb}

  /** IPA of page `j` of the mapped range. */
  function PageIpa(j: int): int
  {
    FOLD_IPA + j * PAGE_SIZE
  }

  /** The entry that maps page `j` of the host range starting at `phys`. */
  function NsPage(phys: int, j: int): Rtte
  {
    NsEntry(phys + j * PAGE_SIZE, NS_ATTRS)
  }

  /** The level 3 table of the mapped block after the first `i` pages are mapped. */
  function MapTable(phys: int, i: int): Table
  {
    seq(RTT_ENTRIES, j => if j < i then NsPage(phys, j) else UNASSIGNED_EMPTY)
  }

  /**
   * The first `i` pages of the range from `phys` are mapped: the walk for
   * every page of the block reaches level 3, and finds entry `j` of
   * MapTable(phys, i) for page `j`.
   */
  ghost predicate MappedPages(t: Tables, rd: int, phys: int, i: int)
  {
    forall j :: 0 <= j < RTT_ENTRIES ==> Leaf(t, rd, 0, PageIpa(j)) == Walked(RTT_MAX_LEVEL, MapTable(phys, i)[j])
  }

  // ---------------------------------------------------------------- layout

  /** Page `j` of the range lies in the level 2 block at FOLD_IPA, at position `j` of its level 3 table. */
  lemma PageInBlock(j: int)
    requires 0 <= j < RTT_ENTRIES
    ensures InIpaSpace(PageIpa(j)) && L0_SIZE <= PageIpa(j) < 2 * L0_SIZE
    ensures AlignDown(PageIpa(j), 2) == FOLD_IPA && TableBase(PageIpa(j), RTT_MAX_LEVEL) == FOLD_IPA
    ensures Index(PageIpa(j), RTT_MAX_LEVEL) == j
    ensures PageIpa(j) % PAGE_SIZE == 0 && AlignDown(PageIpa(j), RTT_MAX_LEVEL) == PageIpa(j)
  {
    var x := PageIpa(j);
    ModUnique(FOLD_IPA, 2, FOLD_IPA / L2_SIZE, 0);
    AlignOffset(FOLD_IPA, j * PAGE_SIZE, 2);
    ModUnique(x, 2, FOLD_IPA / L2_SIZE, j * PAGE_SIZE);
    assert x % LevelSize(2) / LevelSize(3) == j;
    ModUnique(x, RTT_MAX_LEVEL, FOLD_IPA / PAGE_SIZE + j, 0);
    AlignOffset(x, 0, RTT_MAX_LEVEL);
  }

  /** Page `j` of a host range aligned to 2MB is page aligned. */
  lemma HostPage(phys: int, j: int)
    requires phys % L2_SIZE == 0 && 0 <= j
    ensures (phys + j * PAGE_SIZE) % PAGE_SIZE == 0
  {
    ModUnique(phys + j * PAGE_SIZE, RTT_MAX_LEVEL, phys / L2_SIZE * RTT_ENTRIES + j, 0);
  }

  /**
   * The full table maps 512 consecutive pages from a 2MB-aligned address:
   * it is the 512 parts of one level 2 block entry, the one for page 0, so
   * RTT_FOLD accepts it.
   */
  lemma FullTableFoldable(phys: int)
    requires phys % L2_SIZE == 0
    ensures MapTable(phys, RTT_ENTRIES) == Children(NsPage(phys, 0), RTT_MAX_LEVEL)
    ensures Foldable(MapTable(phys, RTT_ENTRIES), RTT_MAX_LEVEL)
  {
    var tbl := MapTable(phys, RTT_ENTRIES);
    assert tbl[0] == NsPage(phys, 0);
    forall j | 0 <= j < RTT_ENTRIES
      ensures tbl[j] == Children(NsPage(phys, 0), RTT_MAX_LEVEL)[j]
    {
      assert Children(NsPage(phys, 0), RTT_MAX_LEVEL)[j] == ChildEntry(NsPage(phys, 0), j * LevelSize(RTT_MAX_LEVEL));
    }
  }

  /**
   * The first mapping of a realm without tables: the new level 3 table
   * holds the first page and 511 unassigned entries.
   */
  lemma FirstPage(t: Tables, t': Tables, rd: int, phys: int)
    requires forall id :: id in t ==> id.rd != rd
    requires Grows(t, t', rd, 0, FOLD_IPA, false)
    requires Leaf(t', rd, 0, FOLD_IPA) == Walked(RTT_MAX_LEVEL, NsPage(phys, 0))
    ensures MappedPages(t', rd, phys, 1)
  {
    PageInBlock(0);
    forall j | 0 <= j < RTT_ENTRIES
      ensures Leaf(t', rd, 0, PageIpa(j)) == Walked(RTT_MAX_LEVEL, MapTable(phys, 1)[j])
    {
      PageInBlock(j);
      var x := PageIpa(j);
      LeafSameTable(t', rd, 0, FOLD_IPA, x);
      if j > 0 {
        LeafWithoutTables(t, rd, 0, x);
        assert SameLeaf(Leaf(t, rd, 0, x).entry, Leaf(t', rd, 0, x).entry);
      }
    }
  }

  /** With every page mapped, the level 3 table of the block is MapTable(phys, 512). */
  lemma FullTable(t: Tables, rd: int, phys: int)
    requires MappedPages(t, rd, phys, RTT_ENTRIES)
    ensures Leaf(t, rd, 0, FOLD_IPA).level == RTT_MAX_LEVEL
    ensures Tbl(t, TableOf(rd, 0, RTT_MAX_LEVEL, FOLD_IPA)) == MapTable(phys, RTT_ENTRIES)
  {
    var tbl := Tbl(t, TableOf(rd, 0, RTT_MAX_LEVEL, FOLD_IPA));
    PageInBlock(0);
    assert Leaf(t, rd, 0, PageIpa(0)).level == RTT_MAX_LEVEL;
    forall j | 0 <= j < RTT_ENTRIES
      ensures tbl[j] == MapTable(phys, RTT_ENTRIES)[j]
    {
      PageInBlock(j);
      var x := PageIpa(j);
      assert Leaf(t, rd, 0, x) == Walked(RTT_MAX_LEVEL, MapTable(phys, RTT_ENTRIES)[j]);
      assert TableOf(rd, 0, RTT_MAX_LEVEL, x) == TableOf(rd, 0, RTT_MAX_LEVEL, FOLD_IPA);
      assert Leaf(t, rd, 0, x).entry == tbl[j];
    }
  }

  /** Every page of the block reads as the level 2 block entry that maps page 0. */
  ghost predicate BlockFolded(t: Tables, rd: int, phys: int)
  {
    forall j :: 0 <= j < RTT_ENTRIES ==> Leaf(t, rd, 0, PageIpa(j)) == Walked(2, NsPage(phys, 0))
  }

  /**
   * After RTT_FOLD of the full table, every page of the block reads as the
   * block entry at level 2, which is the entry that mapped page 0.
   */
  lemma LeafAfterFold(t: Tables, rd: int, phys: int, j: int)
    requires phys % L2_SIZE == 0 && MappedPages(t, rd, phys, RTT_ENTRIES) && 0 <= j < RTT_ENTRIES
    ensures Leaf(Fold(t, rd, 0, RTT_MAX_LEVEL, FOLD_IPA), rd, 0, PageIpa(j)) == Walked(2, NsPage(phys, 0))
  {
    FullTable(t, rd, phys);
    PageInBlock(0);
    PageInBlock(j);
    FullTableFoldable(phys);
    WalkExtends(t, rd, 0, FOLD_IPA, 0, 2, RTT_MAX_LEVEL);
    WalkAfterFold(t, rd, 0, RTT_MAX_LEVEL, FOLD_IPA, 0, PageIpa(j));
  }

  /** RTT_FOLD of the full table folds the whole block. */
  lemma FoldFoldsBlock(t: Tables, rd: int, phys: int)
    requires phys % L2_SIZE == 0 && MappedPages(t, rd, phys, RTT_ENTRIES)
    ensures BlockFolded(Fold(t, rd, 0, RTT_MAX_LEVEL, FOLD_IPA), rd, phys)
  {
    forall j | 0 <= j < RTT_ENTRIES
      ensures Leaf(Fold(t, rd, 0, RTT_MAX_LEVEL, FOLD_IPA), rd, 0, PageIpa(j)) == Walked(2, NsPage(phys, 0))
    {
      LeafAfterFold(t, rd, phys, j);
    }
  }

  /** In a folded block the walk to level 2 for FOLD_IPA ends at the block entry. */
  lemma FoldedParent(f: Tables, rd: int, phys: int)
    requires BlockFolded(f, rd, phys)
    ensures Walk(f, rd, 0, FOLD_IPA, 0, 2) == Walked(2, NsPage(phys, 0))
  {
    PageInBlock(0);
    assert Leaf(f, rd, 0, PageIpa(0)) == Walked(2, NsPage(phys, 0));
    LeafPrefix(f, rd, 0, FOLD_IPA, 2);
  }

  /**
   * RTT_CREATE of the level 3 table under the folded block, from any
   * delegated granule, gives page `j` its pre-fold entry back, at level 3.
   */
  lemma LeafAfterRecreate(f: Tables, rd: int, phys: int, rtt: int, j: int)
    requires BlockFolded(f, rd, phys) && 0 <= j < RTT_ENTRIES
    ensures Leaf(Unfold(f, rd, 0, RTT_MAX_LEVEL, FOLD_IPA, rtt), rd, 0, PageIpa(j)) == Walked(RTT_MAX_LEVEL, NsPage(phys, j))
  {
    PageInBlock(0);
    PageInBlock(j);
    FoldedParent(f, rd, phys);
    WalkAfterUnfold(f, rd, 0, RTT_MAX_LEVEL, FOLD_IPA, rtt, PageIpa(j));
    assert ChildEntry(NsPage(phys, 0), j * PAGE_SIZE) == NsPage(phys, j);
  }

  /** RTT_CREATE under the folded block maps the whole block page by page again. */
  lemma RecreateMapsBlock(f: Tables, rd: int, phys: int, rtt: int)
    requires BlockFolded(f, rd, phys)
    ensures MappedPages(Unfold(f, rd, 0, RTT_MAX_LEVEL, FOLD_IPA, rtt), rd, phys, RTT_ENTRIES)
  {
    forall j | 0 <= j < RTT_ENTRIES
      ensures Leaf(Unfold(f, rd, 0, RTT_MAX_LEVEL, FOLD_IPA, rtt), rd, 0, PageIpa(j)) == Walked(RTT_MAX_LEVEL, MapTable(phys, RTT_ENTRIES)[j])
    {
      LeafAfterRecreate(f, rd, phys, rtt, j);
    }
  }

  /** The IPAs of the mapped block lie in the unprotected half of a 40-bit realm. */
  lemma InUnprotectedHalf(r: Realm, x: int)
    requires r.params.s2sz == 40 && L0_SIZE <= x < 2 * L0_SIZE
    ensures InRealm(r, x) && Unprotected(r, x)
  {
    Ipa40(r);
  }

  // ---------------------------------------------------------------- the mapping loop

  /** The state of the mapping loop once `i` pages are mapped; with none mapped the realm has no tables. */
  ghost predicate MappedSoFar(s: State, rd: int, phys: int, i: int)
  {
    rd in s.realms && s.realms[rd].params == DEFAULT_REALM && phys % L2_SIZE == 0 && 0 <= i <= RTT_ENTRIES
    && (i == 0 ==> forall id :: id in s.rtts ==> id.rd != rd)
    && (i > 0 ==> MappedPages(s.rtts, rd, phys, i))
  }

  /** Page `i` can be mapped: its IPA is unprotected and aligned, its page aligned, its leaf unassigned. */
  lemma ReadyToMap(s: State, rd: int, phys: int, i: int)
    requires MappedSoFar(s, rd, phys, i) && i < RTT_ENTRIES
    ensures InIpaSpace(PageIpa(i)) && MapNsReady(s, rd, phys + i * PAGE_SIZE, PageIpa(i), NS_ATTRS)
    ensures i > 0 ==> LeafWalk(s, rd, 0, PageIpa(i)).level == RTT_MAX_LEVEL
  {
    PageInBlock(i);
    InUnprotectedHalf(s.realms[rd], PageIpa(i));
    HostPage(phys, i);
    if i > 0 {
      assert LeafWalk(s, rd, 0, PageIpa(i)) == Walked(RTT_MAX_LEVEL, MapTable(phys, i)[i]);
    } else {
      LeafWithoutTables(s.rtts, rd, 0, PageIpa(i));
    }
  }

  /** Writing the entry of page `i` into the table of the first `i` pages gives the table of `i + 1` pages. */
  lemma MappedOneMore(t: Tables, t': Tables, rd: int, phys: int, i: int)
    requires 0 < i < RTT_ENTRIES && MappedPages(t, rd, phys, i)
    requires InIpaSpace(PageIpa(i)) && Leaf(t', rd, 0, PageIpa(i)) == Walked(RTT_MAX_LEVEL, NsPage(phys, i))
    requires LeavesOffPathKept(t, t', rd, 0, PageIpa(i))
    ensures MappedPages(t', rd, phys, i + 1)
  {
    PageInBlock(i);
    forall j | 0 <= j < RTT_ENTRIES
      ensures Leaf(t', rd, 0, PageIpa(j)) == Walked(RTT_MAX_LEVEL, MapTable(phys, i + 1)[j])
    {
      PageInBlock(j);
      if j != i {
        assert Leaf(t, rd, 0, PageIpa(j)) == Walked(RTT_MAX_LEVEL, MapTable(phys, i)[j]);
      }
    }
  }

  /** Page `i` of the range, `i > 0`, goes into the level 3 table the first page created. */
  method MapInTable(s: State, rd: int, phys: int, i: int) returns (s': State)
    requires Valid(s) && Fresh(s) && MappedSoFar(s, rd, phys, i) && 0 < i < RTT_ENTRIES
    ensures Keeps(s, s') && s'.realms == s.realms && s'.recs == s.recs && s'.next == s.next
    ensures MappedSoFar(s', rd, phys, i + 1)
  {
    ReadyToMap(s, rd, phys, i);
    var ok;
    ok, s' := MapUnprotected(s, rd, phys + i * PAGE_SIZE, PageIpa(i), NS_ATTRS);
    MappedOneMore(s.rtts, s'.rtts, rd, phys, i);
  }

  /** Page 0 of the range: the tables down to level 3 are created on the way. */
  method MapFirst(s: State, rd: int, phys: int) returns (ok: bool, s': State)
    requires Valid(s) && Fresh(s) && MappedSoFar(s, rd, phys, 0)
    ensures Keeps(s, s') && s'.realms == s.realms && s'.recs == s.recs
    ensures ok ==> MappedSoFar(s', rd, phys, 1)
    ensures s'.next <= s.next + TABLES_COST && (Room(s) >= TABLES_COST ==> ok)
  {
    ReadyToMap(s, rd, phys, 0);
    ok, s' := MapUnprotected(s, rd, phys, FOLD_IPA, NS_ATTRS);
    if ok {
      FirstPage(s.rtts, s'.rtts, rd, phys);
    }
  }

  /** One round of the mapping loop: page `i` of the host range at PageIpa(i). Only the first round creates tables. */
  method MapNext(s: State, rd: int, phys: int, i: int) returns (ok: bool, s': State)
    requires Valid(s) && Fresh(s) && MappedSoFar(s, rd, phys, i) && i < RTT_ENTRIES
    ensures Keeps(s, s') && s'.realms == s.realms && s'.recs == s.recs
    ensures ok ==> MappedSoFar(s', rd, phys, i + 1)
    ensures i > 0 ==> ok && s'.next == s.next
    ensures i == 0 ==> s'.next <= s.next + TABLES_COST && (Room(s) >= TABLES_COST ==> ok)
  {
    if i > 0 {
      ok := true;
      s' := MapInTable(s, rd, phys, i);
    } else {
      ok, s' := MapFirst(s, rd, phys);
    }
  }

  /**
   * Point 3: the loop mapping page i of the host range from `phys` at
   * PageIpa(i), for i from 0 to 511; the first failure ends it.
   */
  method MapBlock(s: State, rd: int, phys: int) returns (ok: bool, s': State)
    requires Valid(s) && Fresh(s) && MappedSoFar(s, rd, phys, 0)
    ensures Keeps(s, s') && s'.next <= s.next + TABLES_COST
    ensures s'.realms == s.realms && s'.recs == s.recs
    ensures ok ==> MappedPages(s'.rtts, rd, phys, RTT_ENTRIES)
    ensures Room(s) >= TABLES_COST ==> ok
  {
    var i := 0;
    s', ok := s, true;
    while ok && i < MAP_SIZE / PAGE_SIZE
      invariant 0 <= i <= RTT_ENTRIES
      invariant Keeps(s, s') && s'.realms == s.realms && s'.recs == s.recs
      invariant ok ==> MappedSoFar(s', rd, phys, i)
      invariant s'.next <= s.next + TABLES_COST && (ok && i == 0 ==> s'.next == s.next)
      invariant Room(s) >= TABLES_COST ==> ok
      decreases RTT_ENTRIES - i, ok
    {
      var s1;
      ok, s1 := MapNext(s', rd, phys, i);
      KeepsTrans(s, s', s1);
      s' := s1;
      if ok {
        i := i + 1;
      }
    }
  }

  // ---------------------------------------------------------------- fold and unfold

  /** What RTT_READ_ENTRY at level 3 returns for page 0 while the table exists. */
  function PageRead(phys: int): EntryRead
  {
    EntryRead(RTT_MAX_LEVEL, AssignedNs, Desc(phys, NS_ATTRS), Empty)
  }

  /**
   * Points 4 to 7: RTT_READ_ENTRY of the level 2 entry for FOLD_IPA and of
   * its level 3 entry, RTT_FOLD at level 3, and the check that the fold
   * returns the granule the level 2 entry named. None of them fails.
   */
  method FoldBlock(s: State, rd: int, phys: int) returns (point: Option<int>, parent: EntryRead, before: EntryRead, s': State)
    requires Valid(s) && Fresh(s) && rd in s.realms && s.realms[rd].params == DEFAULT_REALM
    requires phys % L2_SIZE == 0 && MappedPages(s.rtts, rd, phys, RTT_ENTRIES)
    ensures point == None
    ensures parent.walkLevel == RTT_MAX_LEVEL - 1 && parent.state == Table
    ensures before == PageRead(phys)
    ensures Valid(s') && Fresh(s') && s'.platform == s.platform && s'.next == s.next
    ensures s'.realms == s.realms && s'.recs == s.recs
    ensures s'.rtts == Fold(s.rtts, rd, 0, RTT_MAX_LEVEL, FOLD_IPA) && BlockFolded(s'.rtts, rd, phys)
  {
    PageInBlock(0);
    InUnprotectedHalf(s.realms[rd], FOLD_IPA);
    FullTable(s.rtts, rd, phys);
    FullTableFoldable(phys);
    WalkExtends(s.rtts, rd, 0, FOLD_IPA, 0, 2, RTT_MAX_LEVEL);
    FoldFoldsBlock(s.rtts, rd, phys);
    point, s' := None, s;
    var ok, rtt;
    ok, parent := RttReadEntry(s, rd, FOLD_IPA, RTT_MAX_LEVEL - 1);
    var pRtteAddr := parent.desc.oa;
    before := PageRead(phys);
    if !ok {
      point := Some(4);
    } else {
      ok, before := RttReadEntry(s, rd, FOLD_IPA, RTT_MAX_LEVEL);
      if !ok {
        point := Some(5);
      } else {
        assert FoldOk(s, rd, FOLD_IPA, RTT_MAX_LEVEL);
        ok, rtt, s' := RttFold(s, rd, FOLD_IPA, RTT_MAX_LEVEL);
        if !ok {
          point := Some(6);
        } else if rtt != pRtteAddr {
          point := Some(7);
        }
      }
    }
  }

  /**
   * Points 11 to 14: after the fold, RTT_READ_ENTRY at level 3 for
   * FOLD_IPA and for FOLD_IPA + 0x80000 both give the pre-fold entry of
   * FOLD_IPA (state, descriptor and RIPAS) one level up. None of the
   * checks fails.
   */
  method ReadFolded(s: State, rd: int, phys: int, before: EntryRead) returns (point: Option<int>)
    requires Valid(s) && rd in s.realms && s.realms[rd].params == DEFAULT_REALM
    requires BlockFolded(s.rtts, rd, phys) && before == PageRead(phys)
    ensures point == None
  {
    var probe := FOLD_IPA + PROBE_OFFSET;
    assert probe == PageIpa(128) && FOLD_IPA == PageIpa(0);
    PageInBlock(0);
    PageInBlock(128);
    InUnprotectedHalf(s.realms[rd], FOLD_IPA);
    InUnprotectedHalf(s.realms[rd], probe);
    point := None;
    var ok, after := RttReadEntry(s, rd, FOLD_IPA, RTT_MAX_LEVEL);
    if !ok {
      point := Some(11);
    } else if before.state != after.state || before.desc != after.desc || before.ripas != after.ripas
              || before.walkLevel != after.walkLevel + 1 {
      point := Some(12);
    } else {
      ok, after := RttReadEntry(s, rd, probe, RTT_MAX_LEVEL);
      if !ok {
        point := Some(13);
      } else if before.state != after.state || before.ripas != after.ripas || before.desc != after.desc
                || before.walkLevel != after.walkLevel + 1 {
        point := Some(14);
      }
    }
  }

  /**
   * Point 15: the level 3 table created again, one level below the
   * parent's walk level, from a freshly delegated granule. Only the memory
   * for the granule can be missing; once the table is there every page of
   * the block has its pre-fold entry back.
   */
  method RecreateTable(s: State, rd: int, phys: int, parentLevel: int) returns (ok: bool, s': State)
    requires Valid(s) && Fresh(s) && rd in s.realms && s.realms[rd].params == DEFAULT_REALM
    requires BlockFolded(s.rtts, rd, phys) && parentLevel == RTT_MAX_LEVEL - 1
    ensures ok <==> Room(s) >= PAGE_SIZE
    ensures Valid(s') && Fresh(s') && s'.platform == s.platform && s'.realms == s.realms
    ensures ok ==> MappedPages(s'.rtts, rd, phys, RTT_ENTRIES)
  {
    PageInBlock(0);
    InUnprotectedHalf(s.realms[rd], FOLD_IPA);
    FoldedParent(s.rtts, rd, phys);
    var rtt, s1;
    ok, rtt, s1 := DelegatedGranule(s);
    s' := s1;
    if ok {
      assert RttCreateOk(s1, rd, 0, rtt, FOLD_IPA, parentLevel + 1);
      ok, s' := RttCreate(s1, rd, 0, rtt, FOLD_IPA, parentLevel + 1);
      RecreateMapsBlock(s1.rtts, rd, phys, rtt);
    }
  }

  /** A descriptor whose output address is `offset` bytes further on. */
  function DescPlus(d: Desc, offset: int): Desc
  {
    d.(oa := d.oa + offset)
  }

  /**
   * Points 16 to 19: RTT_READ_ENTRY at level 3 for FOLD_IPA, which must
   * equal the pre-fold entry, and for FOLD_IPA + 0x80000, which must be
   * that entry with its address 0x80000 further on. None of the checks
   * fails.
   */
  method ReadRecreated(s: State, rd: int, phys: int, before: EntryRead) returns (point: Option<int>)
    requires Valid(s) && rd in s.realms && s.realms[rd].params == DEFAULT_REALM
    requires MappedPages(s.rtts, rd, phys, RTT_ENTRIES) && before == PageRead(phys)
    ensures point == None
  {
    var probe := FOLD_IPA + PROBE_OFFSET;
    assert probe == PageIpa(128) && FOLD_IPA == PageIpa(0);
    PageInBlock(0);
    PageInBlock(128);
    InUnprotectedHalf(s.realms[rd], FOLD_IPA);
    InUnprotectedHalf(s.realms[rd], probe);
    point := None;
    var ok, unfold := RttReadEntry(s, rd, FOLD_IPA, RTT_MAX_LEVEL);
    if !ok {
      point := Some(16);
    } else if unfold != before {
      point := Some(17);
    } else {
      ok, unfold := RttReadEntry(s, rd, probe, RTT_MAX_LEVEL);
      if !ok {
        point := Some(18);
      } else if before.state != unfold.state || before.ripas != unfold.ripas
                || DescPlus(before.desc, PROBE_OFFSET) != unfold.desc || before.walkLevel != unfold.walkLevel {
        point := Some(19);
      }
    }
  }

  // ---------------------------------------------------------------- the test

  /**
   * Memory the test needs: the realm and its REC, 2MB of host memory and
   * up to 2MB more to align it, the tables for the first page and one
   * granule for the table created again.
   */
  function FoldCost(p: Platform): int
  {
    SetupCost(p, DEFAULT_REALM, 1) + 2 * L2_SIZE + TABLES_COST + PAGE_SIZE
  }

  /**
   * Points 1 to 3: a realm with one REC, not activated; 2MB of host memory
   * aligned to 2MB; the 512 unprotected mappings.
   */
  method Prepare(s: State) returns (point: Option<int>, rd: int, rec: int, phys: int, s': State)
    requires Valid(s) && Fresh(s)
    ensures Keeps(s, s')
    ensures point == None || point == Some(1) || point == Some(2) || point == Some(3)
    ensures point == Some(1) <==> Room(s) < SetupCost(s.platform, DEFAULT_REALM, 1)
    ensures Room(s) >= FoldCost(s.platform) ==> point == None && Room(s') >= PAGE_SIZE
    ensures point == None ==> rd in s'.realms && s'.realms[rd].params == DEFAULT_REALM && s'.realms[rd].state == RealmNew
    ensures point == None ==> rec in s'.recs && NewRec(s'.recs[rec], rd, 0, true)
    ensures point == None ==> phys % L2_SIZE == 0 && MappedPages(s'.rtts, rd, phys, RTT_ENTRIES)
  {
    var ok, recs, s1, s2;
    ok, rd, recs, s1 := RealmSetup(s, DEFAULT_REALM, 1, false);
    rec, phys, s' := 0, 0, s1;
    if !ok {
      point := Some(1);
    } else {
      rec := recs[0];
      ok, phys, s2 := Alloc(s1, MAP_SIZE, MAP_SIZE);
      KeptUnchanged(s1, s2);
      KeepsTrans(s, s1, s2);
      s' := s2;
      if !ok {
        point := Some(2);
      } else {
        ok, s' := MapBlock(s2, rd, phys);
        KeepsTrans(s, s2, s');
        point := if ok then None else Some(3);
      }
    }
  }

  /**
   * Points 8 to 10: REALM_ACTIVATE, then REC_ENTER of REC 0, whose exit
   * must be a host call. The realm's exit is an input: the realm side of
   * the test is not part of this model.
   */
  method RunRealm(s: State, rd: int, rec: int, exit: RecExit) returns (point: Option<int>, s': State)
    requires Valid(s) && Fresh(s) && rd in s.realms && s.realms[rd].state == RealmNew
    requires rec in s.recs && NewRec(s.recs[rec], rd, 0, true)
    ensures point == None || point == Some(10)
    ensures point == Some(10) <==> !exit.HostCallExit?
    ensures Valid(s') && Fresh(s') && s'.platform == s.platform && s'.next == s.next && s'.rtts == s.rtts
    ensures rd in s'.realms && s'.realms[rd].params == s.realms[rd].params
  {
    var ok, s1 := RealmActivate(s, rd);
    var r;
    r, s' := RecEnter(s1, rec, Exits(exit));
    if !ok {
      point := Some(8);
    } else if !r.Entered? {
      point := Some(9);
    } else if !r.exit.HostCallExit? {
      point := Some(10);
    } else {
      point := None;
    }
  }

  /**
   * The test. Every check after the mapping holds in the model; what can
   * end it early is a lack of memory (points 1, 2, 3 and 15) and an exit
   * other than a host call (point 10).
   */
  method RttFoldAssignedNsHost(s: State, exit: RecExit) returns (v: Verdict, s': State)
    requires Valid(s) && Fresh(s)
    ensures v == Pass || v == Fail(1) || v == Fail(2) || v == Fail(3) || v == Fail(10) || v == Fail(15)
    ensures v == Fail(1) <==> Room(s) < SetupCost(s.platform, DEFAULT_REALM, 1)
    ensures v == Pass ==> exit.HostCallExit?
    ensures v == Fail(10) ==> !exit.HostCallExit?
    ensures Room(s) >= FoldCost(s.platform) ==> (v == Pass <==> exit.HostCallExit?) && (v == Fail(10) <==> !exit.HostCallExit?)
  {
    var point, rd, rec, phys, s1 := Prepare(s);
    s' := s1;
    if point.Some? {
      return Fail(point.value), s';
    }
    var parent, before, s2, s3;
    point, parent, before, s2 := FoldBlock(s1, rd, phys);
    point, s3 := RunRealm(s2, rd, rec, exit);
    s' := s3;
    if point.Some? {
      return Fail(point.value), s';
    }
    point := ReadFolded(s3, rd, phys, before);
    var ok;
    ok, s' := RecreateTable(s3, rd, phys, parent.walkLevel);
    if ok {
      point := ReadRecreated(s', rd, phys, before);
    } else {
      point := Some(15);
    }
    v := if point.Some? then Fail(point.value) else Pass;
  }
}
