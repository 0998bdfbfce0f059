/**
 * The instruction abort test for a page whose RIPAS is DESTROYED, in a
 * realm with one auxiliary plane, host side. A page of protected data is
 * mapped at TEST_IPA and destroyed again, which leaves its RIPAS
 * DESTROYED; with a tree per plane the page is first unmapped from the
 * plane's tree, since the monitor refuses DATA_DESTROY while a plane's
 * tree still maps the page. The realm is then activated: REC 0 makes a
 * host call, is given TEST_IPA and PAGE_SIZE in `gprs[1..2]`, asks for an
 * S2AP change, and once the host has applied it, the plane's access to
 * TEST_IPA must end in an instruction abort at TEST_IPA.
 *
 * What the realm's code does each time the REC runs comes in as an input,
 * as does how far each RTT_SET_S2AP call gets.
 */
module PlanesIaRipasDestroyedTest {
  import opened RmmTypes
  import opened Rtt
  import opened Monitor
  import opened Host
  import opened Checks
  import SetS2apTest

  const TEST_IPA: int := 0x1000

  /** The leaf DATA_DESTROY leaves for a page that held RAM. */
  const UNASSIGNED_DESTROYED: Rtte := Rtte(Unassigned, Destroyed, NO_DESC)

  /** Memory the allocation and the mapping take at most: two pages, then tables in the primary tree and in the plane's tree. */
  const MAP_COST: int := 2 * PAGE_SIZE + 2 * TABLES_COST

  /**
   * The realm parameters of the test: the defaults with one auxiliary
   * plane and a tree per plane, unless the monitor supports a single
   * shared tree. Such a realm can be created exactly when the monitor
   * supports planes and one of the two tree modes the test may pick.
   */
  function PlaneParams(p: Platform): (params: RealmParams)
    ensures ParamsOk(params) && params.s2sz == 40 && params.numAux == 1
    ensures params.treePerPlane <==> !p.treeSingle
    ensures FeaturesOk(p, params) <==> p.planes && (p.treeSingle || p.treePerPlane)
  {
    DEFAULT_REALM.(numAux := 1, treePerPlane := !p.treeSingle)
  }

  /** val_host_realm_setup without activation: a new realm with the test's parameters and one runnable REC, and no tables yet. */
  method PlaneRealm(s: State) returns (ok: bool, rd: int, rec: int, s': State)
    requires Valid(s) && Fresh(s)
    ensures Keeps(s, s') && s'.next <= s.next + SetupCost(s.platform, PlaneParams(s.platform), 1)
    ensures ok <==> Room(s) >= SetupCost(s.platform, PlaneParams(s.platform), 1) && FeaturesOk(s.platform, PlaneParams(s.platform))
    ensures ok ==> rd in s'.realms && s'.realms[rd].params == PlaneParams(s.platform) && s'.realms[rd].state == RealmNew
    ensures ok ==> forall id :: id in s'.rtts ==> id.rd != rd
    ensures ok ==> rec in s'.recs && s'.recs[rec].owner == rd && s'.recs[rec].runnable && s'.recs[rec].psci == NoRequest
  {
    var recs;
    ok, rd, recs, s' := RealmSetup(s, PlaneParams(s.platform), 1, false);
    rec := 0;
    if ok {
      rec := recs[0];
    }
  }

  /** In a new 40-bit realm without tables, TEST_IPA is unmapped in every tree and can be given protected data. */
  lemma FreshPlaneRealm(s: State, rd: int)
    requires rd in s.realms && s.realms[rd].params.s2sz == 40 && s.realms[rd].state == RealmNew
    requires forall id :: id in s.rtts ==> id.rd != rd
    ensures RipasInitOk(s, rd, TEST_IPA)
    ensures forall tree: nat :: LeafWalk(s, rd, tree, TEST_IPA) == Walked(0, UNASSIGNED_EMPTY)
  {
    Ipa40(s.realms[rd]);
    forall tree: nat
      ensures LeafWalk(s, rd, tree, TEST_IPA) == Walked(0, UNASSIGNED_EMPTY)
    {
      LeafWithoutTables(s.rtts, rd, tree, TEST_IPA);
    }
  }

  /** The planes' trees `lo` to `hi` all reach level 3 for `ipa`, with a leaf in state `st`. */
  ghost predicate PlaneLeaves(s: State, rd: int, ipa: int, lo: nat, hi: nat, st: Hipas)
    requires InIpaSpace(ipa)
  {
    forall tree: nat :: lo <= tree <= hi ==>
      LeafWalk(s, rd, tree, ipa).level == RTT_MAX_LEVEL && LeafWalk(s, rd, tree, ipa).entry.state == st
  }

  /** The primary tree maps `ipa` to the protected data `data`, with RIPAS RAM. */
  ghost predicate MapsData(s: State, rd: int, ipa: int, data: int)
    requires InIpaSpace(ipa)
  {
    PageEntry(s, rd, ipa) == DataEntry(data) && LeafWalk(s, rd, 0, ipa) == Walked(RTT_MAX_LEVEL, DataEntry(data))
  }

  /** Changes confined to plane 1's tree keep the primary tree's mapping of `ipa`. */
  lemma MapsDataKept(s: State, s': State, rd: int, ipa: int, data: int)
    requires InIpaSpace(ipa) && MapsData(s, rd, ipa, data) && OnlyTreeChanged(s.rtts, s'.rtts, rd, 1)
    ensures MapsData(s', rd, ipa, data)
  {
    WalkOtherTree(s.rtts, s'.rtts, rd, 1, rd, 0, ipa);
    assert Tbl(s'.rtts, TableOf(rd, 0, RTT_MAX_LEVEL, ipa)) == Tbl(s.rtts, TableOf(rd, 0, RTT_MAX_LEVEL, ipa));
  }

  /** The tables of plane 1's tree down to the leaf for `ipa`; the leaf keeps its state. */
  method PlaneTables(s: State, rd: int, ipa: int, data: int) returns (ok: bool, s': State)
    requires Valid(s) && Fresh(s) && InIpaSpace(ipa) && MapsData(s, rd, ipa, data)
    ensures Keeps(s, s') && s'.realms == s.realms && s'.recs == s.recs && s'.next <= s.next + TABLES_COST
    ensures (rd in s.realms && TreeExists(s.realms[rd], 1) && InRealm(s.realms[rd], ipa) && Room(s) >= TABLES_COST) ==> ok
    ensures ok ==> LeafWalk(s', rd, 1, ipa).level == RTT_MAX_LEVEL && LeafWalk(s', rd, 1, ipa).entry.state == LeafWalk(s, rd, 1, ipa).entry.state
    ensures OnlyTreeChanged(s.rtts, s'.rtts, rd, 1) && MapsData(s', rd, ipa, data)
  {
    ok, s' := CreateTables(s, rd, 1, ipa);
    MapsDataKept(s, s', rd, ipa, data);
    if ok {
      assert SameLeaf(Leaf(s.rtts, rd, 1, ipa).entry, Leaf(s'.rtts, rd, 1, ipa).entry);
    }
  }

  /**
   * The mapping of `ipa` in plane 1's tree: its tables, then
   * RTT_AUX_MAP_PROTECTED, which copies the primary tree's leaf. Only
   * plane 1's tree changes.
   */
  method MirrorToPlane(s: State, rd: int, ipa: int, data: int) returns (ok: bool, s': State)
    requires Valid(s) && Fresh(s) && LeafIs(s, rd, 0, ipa, Assigned) && MapsData(s, rd, ipa, data)
    ensures Keeps(s, s') && s'.realms == s.realms && s'.recs == s.recs && s'.next <= s.next + TABLES_COST
    ensures (TreeExists(s.realms[rd], 1) && LeafWalk(s, rd, 1, ipa).entry.state == Unassigned && Room(s) >= TABLES_COST) ==> ok
    ensures ok ==> LeafWalk(s', rd, 1, ipa) == Walked(RTT_MAX_LEVEL, DataEntry(data))
    ensures OnlyTreeChanged(s.rtts, s'.rtts, rd, 1) && MapsData(s', rd, ipa, data)
  {
    var s1;
    ok, s1 := PlaneTables(s, rd, ipa, data);
    s' := s1;
    if !ok {
      return;
    }
    ok, s' := RttAuxMapProtected(s1, rd, ipa, 1);
    KeptUnchanged(s1, s');
    KeepsTrans(s, s1, s');
    if ok {
      SetGrows(s1.rtts, rd, 1, ipa, PageEntry(s1, rd, ipa));
      MapsDataKept(s1, s', rd, ipa, data);
    }
  }

  /**
   * The two-page allocation of point 2, source page first and target page
   * after it. TEST_IPA is still unmapped in every tree of the new realm.
   */
  method TwoPages(s: State, rd: int) returns (ok: bool, phys: int, s': State)
    requires Valid(s) && Fresh(s) && rd in s.realms && s.realms[rd].state == RealmNew
    requires s.realms[rd].params == PlaneParams(s.platform)
    requires forall id :: id in s.rtts ==> id.rd != rd
    ensures Keeps(s, s') && s'.realms == s.realms && s'.recs == s.recs && s'.next <= s.next + 2 * PAGE_SIZE
    ensures ok <==> Room(s) >= 2 * PAGE_SIZE
    ensures ok ==> phys == s.next && s'.next == phys + 2 * PAGE_SIZE
    ensures ok ==> ValidPa(s.platform, phys) && ValidPa(s.platform, phys + PAGE_SIZE)
    ensures ok ==> GranuleAt(s', phys) == Undelegated && GranuleAt(s', phys + PAGE_SIZE) == Undelegated
    ensures ok ==> RipasInitOk(s', rd, TEST_IPA) && LeafWalk(s', rd, 1, TEST_IPA) == Walked(0, UNASSIGNED_EMPTY)
  {
    ok, phys, s' := Alloc(s, 2 * PAGE_SIZE, PAGE_SIZE);
    KeptUnchanged(s, s');
    if ok {
      FreshPlaneRealm(s', rd);
    }
  }

  /**
   * The two-page allocation (point 2), then
   * val_host_map_protected_data_to_realm in the primary tree (point 3).
   */
  method PrimaryPage(s: State, rd: int) returns (point: Option<int>, data: int, s': State)
    requires Valid(s) && Fresh(s) && rd in s.realms && s.realms[rd].state == RealmNew
    requires s.realms[rd].params == PlaneParams(s.platform)
    requires forall id :: id in s.rtts ==> id.rd != rd
    ensures Keeps(s, s') && s'.realms == s.realms && s'.recs == s.recs && s'.next <= s.next + 2 * PAGE_SIZE + TABLES_COST
    ensures point == None || point == Some(2) || point == Some(3)
    ensures Room(s) >= 2 * PAGE_SIZE + TABLES_COST ==> point == None
    ensures point == None ==> LeafIs(s', rd, 0, TEST_IPA, Assigned) && MapsData(s', rd, TEST_IPA, data) && GranuleAt(s', data) == Data
    ensures point == None ==> LeafWalk(s', rd, 1, TEST_IPA).entry.state == Unassigned
  {
    var ok, phys, s1 := TwoPages(s, rd);
    data, s' := phys + PAGE_SIZE, s1;
    if !ok {
      return Some(2), data, s';
    }
    ok, s' := MapProtectedData(s, s1, rd, phys, data, TEST_IPA);
    if !ok {
      return Some(3), data, s';
    }
    WalkOtherTree(s1.rtts, s'.rtts, rd, 0, rd, 1, TEST_IPA);
    point := None;
  }

  /**
   * The page of protected data at TEST_IPA: the two-page allocation (point
   * 2, source page first, target page after it), then
   * val_host_map_protected_data_to_realm (point 3), which in a realm with
   * a tree per plane also maps the page in the plane's tree. That alias is
   * what makes DATA_DESTROY refuse the page until it is unmapped.
   */
  method ProtectedPage(s: State, rd: int) returns (point: Option<int>, data: int, s': State)
    requires Valid(s) && Fresh(s) && rd in s.realms && s.realms[rd].state == RealmNew
    requires s.realms[rd].params == PlaneParams(s.platform)
    requires forall id :: id in s.rtts ==> id.rd != rd
    ensures Keeps(s, s') && s'.realms == s.realms && s'.recs == s.recs
    ensures point == None || point == Some(2) || point == Some(3)
    ensures Room(s) >= MAP_COST ==> point == None
    ensures point == None ==> LeafIs(s', rd, 0, TEST_IPA, Assigned) && MapsData(s', rd, TEST_IPA, data) && GranuleAt(s', data) == Data
    ensures point == None && !s.platform.treeSingle ==> PlaneLeaves(s', rd, TEST_IPA, 1, 1, Assigned)
    ensures point == None && !s.platform.treeSingle ==> AuxLive(s', rd, TEST_IPA) && !DataDestroyOk(s', rd, TEST_IPA)
  {
    var s1;
    point, data, s1 := PrimaryPage(s, rd);
    s' := s1;
    if point.Some? || s.platform.treeSingle {
      return;
    }
    var ok, s2 := MirrorToPlane(s1, rd, TEST_IPA, data);
    KeepsTrans(s, s1, s2);
    s' := s2;
    if !ok {
      point := Some(3);
    }
  }

  /**
   * RTT_AUX_UNMAP_PROTECTED of `ipa` in plane tree `tree`: accepted when
   * that tree maps the page, which it then no longer does; no other tree
   * changes.
   */
  method UnmapPlane(s: State, rd: int, ipa: int, tree: nat) returns (ok: bool, s': State)
    requires Valid(s) && Fresh(s) && InIpaSpace(ipa)
    ensures Valid(s') && Fresh(s') && s'.platform == s.platform && s'.granules == s.granules && s'.mem == s.mem
    ensures s'.realms == s.realms && s'.recs == s.recs && s'.next == s.next
    ensures ok <==> AuxUnmapOk(s, rd, ipa, tree)
    ensures ok ==> LeafWalk(s', rd, tree, ipa).level == RTT_MAX_LEVEL && LeafWalk(s', rd, tree, ipa).entry.state == Unassigned
    ensures forall other: nat :: other != tree ==> LeafWalk(s', rd, other, ipa) == LeafWalk(s, rd, other, ipa)
    ensures PageEntry(s', rd, ipa) == PageEntry(s, rd, ipa) || tree == 0
  {
    ok, s' := RttAuxUnmapProtected(s, rd, ipa, tree);
    if ok {
      var e := Rtte(Unassigned, Entry(s.rtts, rd, tree, RTT_MAX_LEVEL, ipa).ripas, NO_DESC);
      SetGrows(s.rtts, rd, tree, ipa, e);
      forall other: nat | other != tree
        ensures LeafWalk(s', rd, other, ipa) == LeafWalk(s, rd, other, ipa)
      {
        WalkOtherTree(s.rtts, s'.rtts, rd, tree, rd, other, ipa);
      }
      assert tree != 0 ==> Tbl(s'.rtts, TableOf(rd, 0, RTT_MAX_LEVEL, ipa)) == Tbl(s.rtts, TableOf(rd, 0, RTT_MAX_LEVEL, ipa));
    }
  }

  /** `s'` differs from `s` at most in the plane trees of `rd` at `ipa`. */
  ghost predicate OnlyPlanesChanged(s: State, s': State, rd: int, ipa: int)
    requires InIpaSpace(ipa)
  {
    Valid(s') && Fresh(s') && s'.platform == s.platform && s'.granules == s.granules && s'.mem == s.mem
    && s'.realms == s.realms && s'.recs == s.recs && s'.next == s.next
    && LeafWalk(s', rd, 0, ipa) == LeafWalk(s, rd, 0, ipa) && PageEntry(s', rd, ipa) == PageEntry(s, rd, ipa)
  }

  /**
   * The loop of RTT_AUX_UNMAP_PROTECTED over the planes' trees 1 to
   * `numAux` (point 4 at the first refusal). When every plane's tree maps
   * `ipa`, no call is refused, and when none is refused no plane's tree
   * maps `ipa` afterwards; only the planes' trees change.
   */
  method UnmapPlanes(s: State, rd: int, ipa: int) returns (point: Option<int>, s': State)
    requires Valid(s) && Fresh(s) && rd in s.realms && InIpaSpace(ipa)
    ensures OnlyPlanesChanged(s, s', rd, ipa)
    ensures point == None || point == Some(4)
    ensures point == None ==> PlaneLeaves(s', rd, ipa, 1, s.realms[rd].params.numAux, Unassigned)
    ensures (s.realms[rd].params.treePerPlane && Protected(s.realms[rd], ipa) && ipa % PAGE_SIZE == 0
             && PlaneLeaves(s, rd, ipa, 1, s.realms[rd].params.numAux, Assigned)) ==> point == None
  {
    var n := s.realms[rd].params.numAux;
    ghost var all := s.realms[rd].params.treePerPlane && Protected(s.realms[rd], ipa) && ipa % PAGE_SIZE == 0
                     && PlaneLeaves(s, rd, ipa, 1, n, Assigned);
    var i := 0;
    point, s' := None, s;
    while i < n
      invariant 0 <= i <= n
      invariant OnlyPlanesChanged(s, s', rd, ipa)
      invariant PlaneLeaves(s', rd, ipa, 1, i, Unassigned)
      invariant all ==> PlaneLeaves(s', rd, ipa, i + 1, n, Assigned)
    {
      var ok, s1 := UnmapPlane(s', rd, ipa, i + 1);
      if !ok {
        return Some(4), s';
      }
      s' := s1;
      i := i + 1;
    }
  }

  /**
   * TEST_IPA after DATA_DESTROY: the primary tree's leaf is at level 3,
   * UNASSIGNED with RIPAS DESTROYED, so a fetch there aborts; with a tree
   * per plane, the plane's tree also reaches level 3 for it.
   */
  ghost predicate PageDestroyed(s: State, rd: int)
  {
    rd in s.realms && s.realms[rd].params == PlaneParams(s.platform)
    && LeafWalk(s, rd, 0, TEST_IPA) == Walked(RTT_MAX_LEVEL, UNASSIGNED_DESTROYED) && FetchAborts(s, rd, TEST_IPA)
    && (s.realms[rd].params.treePerPlane ==> LeafWalk(s, rd, 1, TEST_IPA).level == RTT_MAX_LEVEL)
  }

  /**
   * Unmapping TEST_IPA from the plane's tree when the realm has a tree per
   * plane (point 4). Given the mapping ProtectedPage leaves, no call is
   * refused and DATA_DESTROY of TEST_IPA is then allowed.
   */
  method ClearPlanes(s: State, rd: int, data: int) returns (point: Option<int>, s': State)
    requires Valid(s) && Fresh(s) && rd in s.realms && s.realms[rd].params == PlaneParams(s.platform)
    requires LeafIs(s, rd, 0, TEST_IPA, Assigned)
    requires !s.platform.treeSingle ==> PlaneLeaves(s, rd, TEST_IPA, 1, 1, Assigned)
    ensures OnlyPlanesChanged(s, s', rd, TEST_IPA)
    ensures point == None
    ensures DataDestroyOk(s', rd, TEST_IPA)
    ensures s.realms[rd].params.treePerPlane ==> LeafWalk(s', rd, 1, TEST_IPA).level == RTT_MAX_LEVEL
  {
    s', point := s, None;
    if s.realms[rd].params.treePerPlane && s.realms[rd].params.numAux > 0 {
      point, s' := UnmapPlanes(s, rd, TEST_IPA);
    }
  }

  /**
   * DATA_DESTROY of TEST_IPA (point 5) when it is allowed: the page is
   * left DESTROYED and its granule is returned delegated.
   */
  method DestroyPrimary(s: State, rd: int, data: int) returns (ok: bool, s': State)
    requires Valid(s) && Fresh(s) && rd in s.realms && s.realms[rd].params == PlaneParams(s.platform)
    requires DataDestroyOk(s, rd, TEST_IPA) && MapsData(s, rd, TEST_IPA, data) && GranuleAt(s, data) == Data
    requires s.realms[rd].params.treePerPlane ==> LeafWalk(s, rd, 1, TEST_IPA).level == RTT_MAX_LEVEL
    ensures Valid(s') && Fresh(s') && s'.platform == s.platform && s'.realms == s.realms && s'.recs == s.recs && s'.next == s.next
    ensures ok && PageDestroyed(s', rd) && GranuleAt(s', data) == Delegated
  {
    var oa, top;
    ok, oa, top, s' := DataDestroy(s, rd, TEST_IPA);
    SetGrows(s.rtts, rd, 0, TEST_IPA, UNASSIGNED_DESTROYED);
    WalkOtherTree(s.rtts, s'.rtts, rd, 0, rd, 1, TEST_IPA);
  }

  /**
   * The page made DESTROYED: ClearPlanes (point 4), then DestroyPrimary
   * (point 5). Neither point is reached.
   */
  method DestroyPage(s: State, rd: int, data: int) returns (point: Option<int>, s': State)
    requires Valid(s) && Fresh(s) && rd in s.realms && s.realms[rd].params == PlaneParams(s.platform)
    requires LeafIs(s, rd, 0, TEST_IPA, Assigned) && MapsData(s, rd, TEST_IPA, data) && GranuleAt(s, data) == Data
    requires !s.platform.treeSingle ==> PlaneLeaves(s, rd, TEST_IPA, 1, 1, Assigned)
    ensures Valid(s') && Fresh(s') && s'.platform == s.platform && s'.realms == s.realms && s'.recs == s.recs && s'.next == s.next
    ensures point == None
    ensures PageDestroyed(s', rd) && GranuleAt(s', data) == Delegated
  {
    var s1;
    point, s1 := ClearPlanes(s, rd, data);
    s' := s1;
    if point.Some? {
      return;
    }
    var ok;
    ok, s' := DestroyPrimary(s1, rd, data);
    if !ok {
      point := Some(5);
    }
  }

  /** A destroyed page stays so while the realm's parameters and the tables stay. */
  lemma PageDestroyedKept(s: State, s': State, rd: int)
    requires PageDestroyed(s, rd) && s'.platform == s.platform && s'.rtts == s.rtts
    requires rd in s'.realms && s'.realms[rd].params == s.realms[rd].params
    ensures PageDestroyed(s', rd)
  {
  }

  /** On a destroyed page an RTT_SET_S2AP call can start at TEST_IPA on every tree. */
  lemma PageReady(s: State, rd: int)
    requires PageDestroyed(s, rd)
    ensures SetS2apTest.RangeReady(s, rd, TEST_IPA, TEST_IPA + PAGE_SIZE)
  {
    forall x | TEST_IPA <= x < TEST_IPA + PAGE_SIZE && x % PAGE_SIZE == 0
      ensures SetS2apTest.ReadyAt(s, rd, x)
    {
      assert x == TEST_IPA;
      forall tree: nat | tree < TreeCount(s.realms[rd])
        ensures S2apBaseAligned(s, rd, tree, x)
      {
        assert tree == 0 || tree == 1;
      }
    }
  }

  /**
   * REALM_ACTIVATE (point 6) and REC 0's first REC_ENTER (point 7): the
   * new realm is always activated and its REC always runs.
   */
  method FirstRun(s: State, rd: int, rec: int, first: RealmStep) returns (exit: RecExit, s': State)
    requires Valid(s) && Fresh(s) && PageDestroyed(s, rd) && s.realms[rd].state == RealmNew
    requires rec in s.recs && s.recs[rec].owner == rd && s.recs[rec].runnable && s.recs[rec].psci == NoRequest
    ensures Valid(s') && Fresh(s') && s'.platform == s.platform && PageDestroyed(s', rd)
    ensures first.Exits? ==> exit == first.exit
    ensures exit == HostCallExit ==> EnterOk(s', rec) && s'.recs[rec].owner == rd
  {
    var ok, s1 := RealmActivate(s, rd);
    PageDestroyedKept(s, s1, rd);
    assert ok && EnterOk(s1, rec);
    var r;
    r, s' := RecEnter(s1, rec, first);
    PageDestroyedKept(s1, s', rd);
    exit := r.exit;
  }

  /**
   * REC 0's first two runs: FirstRun, whose exit must be a host call
   * (point 8), then, with TEST_IPA and PAGE_SIZE handed over in
   * `gprs[1..2]`, REC_ENTER again (point 9, never reached) whose exit must
   * be an S2AP change request (point 10), which the monitor records on
   * the REC.
   */
  method RequestS2ap(s: State, rd: int, rec: int, first: RealmStep, second: RealmStep)
    returns (point: Option<int>, gprs: (int, int), exits: seq<RecExit>, s': State)
    requires Valid(s) && Fresh(s) && PageDestroyed(s, rd) && s.realms[rd].state == RealmNew
    requires rec in s.recs && s.recs[rec].owner == rd && s.recs[rec].runnable && s.recs[rec].psci == NoRequest
    ensures Valid(s') && Fresh(s') && s'.platform == s.platform && PageDestroyed(s', rd)
    ensures point == None || point == Some(8) || point == Some(10)
    ensures |exits| == (if point == Some(8) then 1 else 2)
    ensures first.Exits? ==> exits[0] == first.exit
    ensures point == Some(8) <==> exits[0] != HostCallExit
    ensures point != Some(8) ==> gprs == (TEST_IPA, PAGE_SIZE)
    ensures point != Some(8) && second.Exits? ==> exits[1] == second.exit
    ensures point != Some(8) ==> (point == Some(10) <==> !exits[1].S2apChangeExit?)
    ensures point == None ==> EnterOk(s', rec) && s'.recs[rec].owner == rd
    ensures point == None ==> s'.recs[rec].s2ap == S2ap(exits[1].base, exits[1].top, 0)
  {
    var e, s2 := FirstRun(s, rd, rec, first);
    exits, s', gprs := [e], s2, (0, 0);
    if e != HostCallExit {
      return Some(8), gprs, exits, s';
    }
    gprs := (TEST_IPA, PAGE_SIZE);
    var r2, s3 := RecEnter(s2, rec, second);
    PageDestroyedKept(s2, s3, rd);
    exits, s' := exits + [r2.exit], s3;
    point := if r2.exit.S2apChangeExit? then None else Some(10);
  }

  /**
   * RTT_SET_S2AP from `base` until the monitor reports `top`: only the
   * RECs change, and a one-page request at TEST_IPA is carried out in full
   * and leaves REC 0 ready to run.
   */
  method S2apToTop(s: State, rd: int, rec: int, base: int, top: int, pages: nat -> Chunk) returns (ok: bool, s': State)
    requires Valid(s) && Fresh(s) && PageDestroyed(s, rd)
    requires EnterOk(s, rec) && s.recs[rec].owner == rd && s.recs[rec].s2ap == S2ap(base, top, 0)
    ensures Valid(s') && Fresh(s') && s'.platform == s.platform && PageDestroyed(s', rd)
    ensures base == TEST_IPA && top == TEST_IPA + PAGE_SIZE ==> ok && EnterOk(s', rec) && s'.recs[rec] == s.recs[rec].(s2ap := S2ap(top, top, 0))
  {
    var p;
    p, s' := SetS2apTest.AdvanceToTop(s, rd, rec, base, top, pages);
    ok := p == None;
    PageDestroyedKept(s, s', rd);
    if base == TEST_IPA && top == TEST_IPA + PAGE_SIZE {
      PageReady(s, rd);
    }
  }

  /** REC_ENTER of REC 0 once the S2AP change is done: a plane's fetch at TEST_IPA aborts there. */
  method LastRun(s: State, rd: int, rec: int, third: RealmStep) returns (ok: bool, exit: RecExit, s': State)
    requires Valid(s) && Fresh(s) && PageDestroyed(s, rd)
    ensures Valid(s') && Fresh(s') && s'.platform == s.platform
    ensures ok <==> EnterOk(s, rec)
    ensures ok && third.Exits? ==> exit == third.exit
    ensures ok && s.recs[rec].owner == rd && third.Fetch? && third.ipa == TEST_IPA ==> exit == InstAbortExit(TEST_IPA)
  {
    var r;
    r, s' := RecEnter(s, rec, third);
    ok := r.Entered?;
    exit := if ok then r.exit else HostCallExit;
  }

  /**
   * val_host_set_s2ap for the request [base, top) REC 0 made: S2apToTop,
   * then REC_ENTER, both under point 11; the exit must then be an
   * instruction abort at TEST_IPA (point 12). For a one-page request at
   * TEST_IPA nothing is refused, and a plane's fetch at TEST_IPA aborts
   * there.
   */
  method ApplyS2ap(s: State, rd: int, rec: int, base: int, top: int, third: RealmStep, pages: nat -> Chunk)
    returns (point: Option<int>, exit: RecExit, s': State)
    requires Valid(s) && Fresh(s) && PageDestroyed(s, rd)
    requires EnterOk(s, rec) && s.recs[rec].owner == rd && s.recs[rec].s2ap == S2ap(base, top, 0)
    ensures Valid(s') && Fresh(s') && s'.platform == s.platform
    ensures point == None || point == Some(11) || point == Some(12)
    ensures point != Some(11) && third.Exits? ==> exit == third.exit
    ensures point != Some(11) ==> (point == None <==> exit == InstAbortExit(TEST_IPA))
    ensures base == TEST_IPA && top == TEST_IPA + PAGE_SIZE ==> point != Some(11)
    ensures (base == TEST_IPA && top == TEST_IPA + PAGE_SIZE && third.Fetch? && third.ipa == TEST_IPA) ==> point == None
  {
    exit := HostCallExit;
    var ok, s1 := S2apToTop(s, rd, rec, base, top, pages);
    s' := s1;
    if !ok {
      return Some(11), exit, s';
    }
    var s2;
    ok, exit, s2 := LastRun(s1, rd, rec, third);
    s' := s2;
    if !ok {
      return Some(11), exit, s';
    }
    point := if exit == InstAbortExit(TEST_IPA) then None else Some(12);
  }

  /**
   * The host's preparation: the realm (point 1), the page of protected
   * data (points 2 and 3), and its destruction (points 4 and 5, never
   * reached).
   */
  method PreparePage(s: State) returns (point: Option<int>, rd: int, rec: int, data: int, s': State)
    requires Valid(s) && Fresh(s)
    ensures Valid(s') && Fresh(s') && s'.platform == s.platform
    ensures point == None || point == Some(1) || point == Some(2) || point == Some(3)
    ensures point == Some(1) <==> Room(s) < SetupCost(s.platform, PlaneParams(s.platform), 1) || !FeaturesOk(s.platform, PlaneParams(s.platform))
    ensures Room(s) >= SetupCost(s.platform, PlaneParams(s.platform), 1) + MAP_COST ==> point != Some(2) && point != Some(3)
    ensures point == None ==> PageDestroyed(s', rd) && s'.realms[rd].state == RealmNew && GranuleAt(s', data) == Delegated
    ensures point == None ==> rec in s'.recs && s'.recs[rec].owner == rd && s'.recs[rec].runnable && s'.recs[rec].psci == NoRequest
  {
    var ok, s1;
    ok, rd, rec, s1 := PlaneRealm(s);
    data, s' := 0, s1;
    if !ok {
      return Some(1), rd, rec, data, s';
    }
    var s2;
    point, data, s2 := ProtectedPage(s1, rd);
    s' := s2;
    if point.Some? {
      return;
    }
    point, s' := DestroyPage(s2, rd, data);
  }

  /**
   * planes_rec_exit_ia_ripas_destroyed_host. Skipped when the monitor does
   * not support planes. `first`, `second` and `third` are what the realm's
   * code does each time REC 0 runs, and `pages` how many pages the monitor
   * handles in each RTT_SET_S2AP call. Given the memory and a monitor that
   * supports one of the two tree modes, the test passes when REC 0 makes a
   * host call, asks for an S2AP change of exactly the page it was handed,
   * and then fetches from that page: the fetch ends in an instruction
   * abort at TEST_IPA, whichever tree mode the realm has.
   */
  method PlanesRecExitIaRipasDestroyedHost(s: State, first: RealmStep, second: RealmStep, third: RealmStep, pages: nat -> Chunk)
    returns (v: Verdict, exits: seq<RecExit>, s': State)
    requires Valid(s) && Fresh(s)
    ensures Valid(s') && s'.platform == s.platform
    ensures v == Skip <==> !s.platform.planes
    ensures v in {Skip, Pass, Fail(1), Fail(2), Fail(3), Fail(8), Fail(10), Fail(11), Fail(12)}
    ensures v == Fail(1) <==> s.platform.planes && (Room(s) < SetupCost(s.platform, PlaneParams(s.platform), 1)
                                                     || !FeaturesOk(s.platform, PlaneParams(s.platform)))
    ensures Room(s) >= SetupCost(s.platform, PlaneParams(s.platform), 1) + MAP_COST ==> v != Fail(2) && v != Fail(3)
    ensures v == Fail(8) ==> |exits| == 1 && exits[0] != HostCallExit
    ensures v == Fail(10) ==> |exits| == 2 && exits[0] == HostCallExit && !exits[1].S2apChangeExit?
    ensures v == Fail(12) ==> |exits| == 3 && exits[2] != InstAbortExit(TEST_IPA)
    ensures v == Pass ==> |exits| == 3 && exits[0] == HostCallExit && exits[1].S2apChangeExit? && exits[2] == InstAbortExit(TEST_IPA)
    ensures |exits| >= 1 && first.Exits? ==> exits[0] == first.exit
    ensures |exits| >= 2 && second.Exits? ==> exits[1] == second.exit
    ensures |exits| == 3 && third.Exits? ==> exits[2] == third.exit
    ensures (FeaturesOk(s.platform, PlaneParams(s.platform)) && Room(s) >= SetupCost(s.platform, PlaneParams(s.platform), 1) + MAP_COST
             && first == Exits(HostCallExit) && second == Exits(S2apChangeExit(TEST_IPA, TEST_IPA + PAGE_SIZE))
             && third.Fetch? && third.ipa == TEST_IPA) ==> v == Pass
  {
    exits, s' := [], s;
    if !s.platform.planes {
      return Skip, exits, s';
    }
    var point, rd, rec, data, s1 := PreparePage(s);
    s' := s1;
    if point.Some? {
      return Fail(point.value), exits, s';
    }
    var gprs, s2;
    point, gprs, exits, s2 := RequestS2ap(s1, rd, rec, first, second);
    s' := s2;
    if point.Some? {
      return Fail(point.value), exits, s';
    }
    var e, s3;
    point, e, s3 := ApplyS2ap(s2, rd, rec, exits[1].base, exits[1].top, third, pages);
    s' := s3;
    if point != Some(11) {
      exits := exits + [e];
    }
    v := if point.Some? then Fail(point.value) else Pass;
  }
}
