/**
 * The hardware access-flag and dirty-state test, host side. A new realm
 * gets one page of protected data at PROTECTED_IPA, copied from the first
 * page of a two-page host allocation into the second; the realm is
 * activated and runs until a host call, is resumed with the IPA in
 * `gprs[1]`, and then an unprotected mapping carrying the DBM attribute
 * must be refused.
 */
module HaHdAccessTest {
  import opened RmmTypes
  import opened Rtt
  import opened Monitor
  import opened Host
  import opened Checks

  const PROTECTED_IPA: int := 0x80_0000

  /** ATTR_NORMAL_WB | ATTR_STAGE2_MASK_RO | ATTR_DBM. */
  const DBM_ATTRS: set<MemAttr> := {NormalWb, ReadOnly, Dbm}

  /** PROTECTED_IPA of a new default realm that has no tables yet can be given protected data. */
  lemma FreshRealmReady(s: State, rd: int)
    requires Valid(s) && rd in s.realms && s.realms[rd].params == DEFAULT_REALM && s.realms[rd].state == RealmNew
    requires forall id :: id in s.rtts ==> id.rd != rd
    ensures RipasInitOk(s, rd, PROTECTED_IPA)
  {
    Ipa40(s.realms[rd]);
    ModUnique(PROTECTED_IPA, RTT_MAX_LEVEL, 0x800, 0);
    LeafWithoutTables(s.rtts, rd, 0, PROTECTED_IPA);
  }

  /**
   * val_host_map_ns_shared_region: a fresh host page mapped at the
   * unprotected IPA `ipa` with attributes `attrs`. The mapping is refused
   * whenever `attrs` holds DBM.
   */
  method NsSharedRegion(s: State, rd: int, ipa: int, attrs: set<MemAttr>) returns (mapped: bool, s': State)
    requires Valid(s) && Fresh(s)
    ensures Keeps(s, s')
    ensures Dbm in attrs ==> !mapped
    ensures mapped ==> rd in s.realms && Unprotected(s.realms[rd], ipa)
  {
    var ok, pa, s1 := NewGranule(s);
    s' := s1;
    mapped := false;
    if ok {
      mapped, s' := MapUnprotected(s1, rd, pa, ipa, attrs);
      KeepsTrans(s, s1, s');
    }
  }

  /** val_host_realm_setup without activation: a new default realm with one runnable REC and no tables yet. */
  method NewRealm(s: State) returns (ok: bool, rd: int, rec: int, s': State)
    requires Valid(s) && Fresh(s)
    ensures Keeps(s, s') && s'.next <= s.next + SetupCost(s.platform, DEFAULT_REALM, 1)
    ensures ok <==> Room(s) >= SetupCost(s.platform, DEFAULT_REALM, 1)
    ensures ok ==> rd in s'.realms && s'.realms[rd].params == DEFAULT_REALM && s'.realms[rd].state == RealmNew
    ensures ok ==> forall id :: id in s'.rtts ==> id.rd != rd
    ensures ok ==> rec in s'.recs && s'.recs[rec].owner == rd && s'.recs[rec].runnable && s'.recs[rec].psci == NoRequest
  {
    var recs;
    ok, rd, recs, s' := RealmSetup(s, DEFAULT_REALM, 1, false);
    rec := 0;
    if ok {
      rec := recs[0];
    }
  }

  /**
   * The new realm (point 1) and the two-page host allocation (point 2),
   * whose second page becomes the data granule.
   */
  method RealmAndPages(s: State) returns (point: Option<int>, rd: int, rec: int, phys: int, before: State, s': State)
    requires Valid(s) && Fresh(s)
    ensures Keeps(s, s')
    ensures point == None || point == Some(1) || point == Some(2)
    ensures point == Some(1) <==> Room(s) < SetupCost(s.platform, DEFAULT_REALM, 1)
    ensures Room(s) >= SetupCost(s.platform, DEFAULT_REALM, 1) + 2 * PAGE_SIZE + TABLES_COST ==> point == None && Room(s') >= TABLES_COST
    ensures point == None ==> rd in s'.realms && RipasInitOk(s', rd, PROTECTED_IPA)
    ensures point == None ==> rec in s'.recs && s'.recs[rec].owner == rd && s'.recs[rec].runnable && s'.recs[rec].psci == NoRequest
    ensures point == None ==> before.next == phys && Keeps(before, s') && Keeps(s, before) && s'.next == phys + 2 * PAGE_SIZE
    ensures point == None ==> ValidPa(s.platform, phys) && ValidPa(s.platform, phys + PAGE_SIZE)
                              && GranuleAt(s', phys) == Undelegated && GranuleAt(s', phys + PAGE_SIZE) == Undelegated
  {
    var ok, s1;
    ok, rd, rec, s1 := NewRealm(s);
    phys, before, s' := 0, s1, s1;
    if !ok {
      return Some(1), rd, rec, phys, before, s';
    }
    ok, phys, s' := Alloc(s1, 2 * PAGE_SIZE, PAGE_SIZE);
    KeptUnchanged(s1, s');
    KeepsTrans(s, s1, s');
    if !ok {
      return Some(2), rd, rec, phys, before, s';
    }
    FreshRealmReady(s', rd);
    point := None;
  }

  /** The realm with its protected data: RealmAndPages, then the data mapping (point 3). */
  method DataSetup(s: State) returns (point: Option<int>, rd: int, rec: int, data: int, s': State)
    requires Valid(s) && Fresh(s)
    ensures Keeps(s, s')
    ensures point == None || point == Some(1) || point == Some(2) || point == Some(3)
    ensures point == Some(1) <==> Room(s) < SetupCost(s.platform, DEFAULT_REALM, 1)
    ensures Room(s) >= SetupCost(s.platform, DEFAULT_REALM, 1) + 2 * PAGE_SIZE + TABLES_COST ==> point == None
    ensures point == None ==> rd in s'.realms && s'.realms[rd].state == RealmNew && rec in s'.recs && s'.recs[rec].owner == rd
    ensures point == None ==> s'.recs[rec].runnable && s'.recs[rec].psci == NoRequest
    ensures point == None ==> LeafWalk(s', rd, 0, PROTECTED_IPA) == Walked(RTT_MAX_LEVEL, DataEntry(data)) && GranuleAt(s', data) == Data
  {
    var phys, s1, s2;
    point, rd, rec, phys, s1, s2 := RealmAndPages(s);
    data, s' := 0, s2;
    if point.Some? {
      return;
    }
    data := phys + PAGE_SIZE;
    var ok;
    ok, s' := MapProtectedData(s1, s2, rd, phys, data, PROTECTED_IPA);
    KeepsTrans(s, s1, s');
    point := if ok then None else Some(3);
  }

  /**
   * mm_ha_hd_access_host. After the data setup come REALM_ACTIVATE (point
   * 4), REC_ENTER (point 5) whose exit must be a host call (point 6), the
   * second REC_ENTER with PROTECTED_IPA in `gprs[1]` (point 7), and the
   * DBM mapping at `nsIpa`, which must be refused (point 8). `first` and
   * `second` are what the realm's code does when the REC runs. Points 4,
   * 5, 7 and 8 are never reached: given the memory, the test passes
   * exactly when the realm's first exit is a host call.
   */
  method MmHaHdAccessHost(s: State, first: RealmStep, second: RealmStep, nsIpa: int)
    returns (v: Verdict, exit: RecExit, gpr1: int, s': State)
    requires Valid(s) && Fresh(s)
    ensures Valid(s') && s'.platform == s.platform
    ensures v == Pass || v == Fail(1) || v == Fail(2) || v == Fail(3) || v == Fail(6)
    ensures v == Fail(1) <==> Room(s) < SetupCost(s.platform, DEFAULT_REALM, 1)
    ensures Room(s) >= SetupCost(s.platform, DEFAULT_REALM, 1) + 2 * PAGE_SIZE + TABLES_COST ==> v == Pass || v == Fail(6)
    ensures v == Pass || v == Fail(6) ==> (first.Exits? ==> exit == first.exit) && (v == Pass <==> exit.HostCallExit?)
    ensures v == Pass ==> gpr1 == PROTECTED_IPA
  {
    exit, gpr1 := HostCallExit, 0;
    var point, rd, rec, data, s1 := DataSetup(s);
    s' := s1;
    if point.Some? {
      return Fail(point.value), exit, gpr1, s';
    }
    var ok, s2 := RealmActivate(s1, rd);
    KeptUnchanged(s1, s2);
    KeepsTrans(s, s1, s2);
    assert ok && EnterOk(s2, rec);
    var r, s3 := RecEnter(s2, rec, first);
    KeptUnchanged(s2, s3);
    KeepsTrans(s, s2, s3);
    s', exit := s3, r.exit;
    if !exit.HostCallExit? {
      return Fail(6), exit, gpr1, s';
    }
    gpr1 := PROTECTED_IPA;
    assert EnterOk(s3, rec);
    var r2, s4 := RecEnter(s3, rec, second);
    KeptUnchanged(s3, s4);
    var mapped;
    mapped, s' := NsSharedRegion(s4, rd, nsIpa, DBM_ATTRS);
    v := if mapped then Fail(8) else Pass;
  }
}
