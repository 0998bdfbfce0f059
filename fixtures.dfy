/**
 * Host-side fixtures the conformance tests share: granules in a given state,
 * a new realm with its RECs, the translation tables down to the leaf for an
 * IPA, and a DATA granule mapped at a protected IPA. Every fixture takes its
 * memory from the host allocator and fails when the allocator runs out or
 * the monitor refuses one of its commands; each states how much memory is
 * enough for it to succeed.
 */
module Host {
  import opened RmmTypes
  import opened Rtt
  import opened Monitor

  /** Granules and memory below the allocator's mark in `s` are as they were in `s`. */
  ghost predicate KeptBelow(s: State, s': State)
  {
    forall pa :: pa < s.next ==> GranuleAt(s', pa) == GranuleAt(s, pa) && ContentOf(s'.mem, pa) == ContentOf(s.mem, pa)
  }

  /**
   * What every fixture keeps: a well-formed state, untouched memory above
   * the allocator's mark, the same platform, and everything below the mark
   * it started from.
   */
  ghost predicate Keeps(s: State, s': State)
  {
    Valid(s') && Fresh(s') && s'.platform == s.platform && s.next <= s'.next && KeptBelow(s, s')
  }

  /** A command that changes no granule state and no memory keeps everything below the mark. */
  lemma KeptUnchanged(s: State, s': State)
    requires s'.granules == s.granules && s'.mem == s.mem
    ensures KeptBelow(s, s')
  {
  }

  /** Giving a granule at or above the mark a new state keeps everything below the mark. */
  lemma KeptRetyped(s: State, s1: State, s': State, pa: int, st: GranuleState)
    requires KeptBelow(s, s1) && pa >= s.next && s'.mem == s1.mem
    requires s'.granules == s1.granules[pa := st]
    ensures KeptBelow(s, s')
  {
  }

  /** Giving several granules at or above the mark one new state keeps everything below the mark. */
  lemma KeptRetypedAll(s: State, s1: State, s': State, pas: seq<int>, st: GranuleState)
    requires KeptBelow(s, s1) && (forall a :: a in pas ==> a >= s.next) && s'.mem == s1.mem
    requires s'.granules == SetStates(s1.granules, pas, st)
    ensures KeptBelow(s, s')
  {
  }

  /** REALM_CREATE on granules at or above the mark keeps everything below the mark. */
  lemma KeptRealmCreated(s: State, s1: State, s': State, rd: int, root: int, auxRoots: seq<int>)
    requires KeptBelow(s, s1) && rd >= s.next && root >= s.next && (forall a :: a in auxRoots ==> a >= s.next)
    requires s'.mem == s1.mem && s'.granules == SetStates(s1.granules[rd := Rd][root := Rtt], auxRoots, Rtt)
    ensures KeptBelow(s, s')
  {
    var sa := s1.(granules := s1.granules[rd := Rd]);
    KeptRetyped(s, s1, sa, rd, Rd);
    var sb := sa.(granules := sa.granules[root := Rtt]);
    KeptRetyped(s, sa, sb, root, Rtt);
    KeptRetypedAll(s, sb, s', auxRoots, Rtt);
  }

  /** Writing a granule at or above the mark keeps everything below the mark. */
  lemma KeptWritten(s: State, s1: State, s': State, pa: int, page: Page)
    requires KeptBelow(s, s1) && pa >= s.next && s'.granules == s1.granules
    requires s'.mem == s1.mem[pa := page]
    ensures KeptBelow(s, s')
  {
  }

  lemma KeepsTrans(s1: State, s2: State, s3: State)
    requires Keeps(s1, s2) && Keeps(s2, s3)
    ensures Keeps(s1, s3)
  {
  }

  /** An address the monitor cannot have recorded, an invalid one or one at or above the allocator's mark, is neither a realm nor a REC. */
  lemma UntrackedNotRealm(s: State, pa: int)
    requires Valid(s) && (!ValidPa(s.platform, pa) || (Fresh(s) && pa >= s.next))
    ensures pa !in s.realms && pa !in s.recs
  {
    assert pa !in s.granules;
  }

  /** An address one byte past an aligned granule: never aligned. */
  function Unaligned(pa: int): (r: int)
    ensures pa % PAGE_SIZE == 0 ==> r % PAGE_SIZE != 0
  {
    pa + 1
  }

  /** An address in the platform's device memory range. */
  function DevMem(p: SanePlatform): (r: int)
    ensures r % PAGE_SIZE == 0 && !ValidPa(p, r)
  {
    p.devBase
  }

  /** The first granule above the permitted physical address range. */
  function OutsidePa(p: SanePlatform): (r: int)
    ensures r % PAGE_SIZE == 0 && !ValidPa(p, r)
  {
    p.paLimit
  }

  // ---------------------------------------------------------------- granules

  /** A fresh granule from the host allocator, left with the host. */
  method NewGranule(s: State) returns (ok: bool, pa: int, s': State)
    requires Valid(s) && Fresh(s)
    ensures Keeps(s, s')
    ensures ok <==> Room(s) >= PAGE_SIZE
    ensures pa == s.next && s'.next == (if ok then s.next + PAGE_SIZE else s.next)
    ensures s'.granules == s.granules && s'.mem == s.mem && s'.realms == s.realms && s'.recs == s.recs && s'.rtts == s.rtts
    ensures ok ==> ValidPa(s.platform, pa) && pa !in s.granules && pa !in s.mem
  {
    ok, pa, s' := Alloc(s, PAGE_SIZE, PAGE_SIZE);
    KeptUnchanged(s, s');
  }

  /** A fresh granule from the host allocator, delegated to the monitor. */
  method DelegatedGranule(s: State) returns (ok: bool, pa: int, s': State)
    requires Valid(s) && Fresh(s)
    ensures Keeps(s, s')
    ensures ok <==> Room(s) >= PAGE_SIZE
    ensures pa == s.next
    ensures s'.next == (if ok then s.next + PAGE_SIZE else s.next)
    ensures s'.granules == if ok then s.granules[pa := Delegated] else s.granules
    ensures s'.mem == s.mem && s'.realms == s.realms && s'.recs == s.recs && s'.rtts == s.rtts
    ensures ok ==> ValidPa(s.platform, pa) && pa !in s.granules && pa !in s.mem
  {
    var s1;
    ok, pa, s1 := NewGranule(s);
    s' := s1;
    if ok {
      ok, s' := GranuleDelegate(s1, pa);
      if ok {
        KeptRetyped(s, s1, s', pa, Delegated);
      }
    }
  }

  /** `n` fresh granules from the host allocator, delegated one after the other. */
  method DelegatedGranules(s: State, n: nat) returns (ok: bool, pas: seq<int>, s': State)
    requires Valid(s) && Fresh(s)
    ensures Keeps(s, s') && s'.next <= s.next + n * PAGE_SIZE
    ensures ok <==> Room(s) >= n * PAGE_SIZE
    ensures ok ==> |pas| == n && s'.next == s.next + n * PAGE_SIZE
    ensures ok ==> forall i :: 0 <= i < n ==> pas[i] == s.next + i * PAGE_SIZE
    ensures ok ==> NoDup(pas) && forall a :: a in pas ==> ValidPa(s.platform, a) && s.next <= a < s'.next
    ensures ok ==> forall pa :: GranuleAt(s', pa) == if pa in pas then Delegated else GranuleAt(s, pa)
    ensures s'.mem == s.mem && s'.realms == s.realms && s'.recs == s.recs && s'.rtts == s.rtts
  {
    pas := [];
    s' := s;
    ok := true;
    while |pas| < n
      invariant Keeps(s, s') && |pas| <= n
      invariant s'.next == s.next + |pas| * PAGE_SIZE
      invariant forall i :: 0 <= i < |pas| ==> pas[i] == s.next + i * PAGE_SIZE
      invariant forall a :: a in pas ==> ValidPa(s.platform, a) && s.next <= a < s'.next
      invariant forall pa :: GranuleAt(s', pa) == if pa in pas then Delegated else GranuleAt(s, pa)
      invariant s'.mem == s.mem && s'.realms == s.realms && s'.recs == s.recs && s'.rtts == s.rtts
    {
      var a, s1;
      ok, a, s1 := DelegatedGranule(s');
      KeepsTrans(s, s', s1);
      if !ok {
        return;
      }
      s' := s1;
      pas := pas + [a];
    }
  }

  // ---------------------------------------------------------------- realms

  /** Number of auxiliary root tables a realm created with `params` needs. */
  function AuxRoots(params: RealmParams): nat
  {
    if params.treePerPlane then params.numAux else 0
  }

  /** Memory a new realm takes: the RD, the root table, and the auxiliary roots. */
  function RealmCost(params: RealmParams): int
  {
    (2 + AuxRoots(params)) * PAGE_SIZE
  }

  /** Granules fresh from DelegatedGranules are what REALM_CREATE needs for the RD, the root and the auxiliary roots. */
  lemma RealmGranulesReady(s: State, s1: State, pas: seq<int>, params: RealmParams)
    requires Valid(s) && Fresh(s) && s1.platform == s.platform && |pas| == 2 + AuxRoots(params)
    requires NoDup(pas) && forall a :: a in pas ==> ValidPa(s.platform, a) && s.next <= a < s1.next
    requires forall pa :: GranuleAt(s1, pa) == if pa in pas then Delegated else GranuleAt(s, pa)
    ensures RealmCreateOk(s1, pas[0], params, pas[1], pas[2..]) <==> ParamsOk(params) && FeaturesOk(s.platform, params)
    ensures pas[0] !in s.realms && s.next <= pas[0] < s1.next && s.next <= pas[1] < s1.next
    ensures forall a :: a in pas[2..] ==> s.next <= a < s1.next
  {
    assert pas == [pas[0], pas[1]] + pas[2..];
    assert GranuleAt(s, pas[0]) == Undelegated;
    forall a | a in pas[2..]
      ensures a in pas
    {
      var i :| 0 <= i < |pas[2..]| && pas[2..][i] == a;
      assert pas[i + 2] == a;
    }
  }

  /**
   * A new realm: RD and root table (and, with one tree per plane, a root
   * for every auxiliary tree) delegated, then REALM_CREATE. It succeeds
   * exactly when there is memory for it and the parameters are valid and
   * supported by the platform.
   */
  method RealmCreateCommon(s: State, params: RealmParams) returns (ok: bool, rd: int, root: int, auxRoots: seq<int>, s': State)
    requires Valid(s) && Fresh(s)
    ensures Keeps(s, s') && s'.next <= s.next + RealmCost(params)
    ensures ok <==> Room(s) >= RealmCost(params) && ParamsOk(params) && FeaturesOk(s.platform, params)
    ensures ok ==> rd !in s.realms && s.next <= rd < s'.next && s.next <= root < s'.next && GranuleAt(s', root) == Rtt
    ensures ok ==> forall a :: a in auxRoots ==> s.next <= a < s'.next && GranuleAt(s', a) == Rtt
    ensures ok ==> s'.next == s.next + RealmCost(params)
    ensures s'.realms == if ok then s.realms[rd := Realm(params, RealmNew, root, auxRoots)] else s.realms
    ensures s'.recs == s.recs && s'.rtts == s.rtts && s'.mem == s.mem
  {
    var okg, pas, s1 := DelegatedGranules(s, 2 + AuxRoots(params));
    rd, root, auxRoots := s.next, s.next + PAGE_SIZE, [];
    ok, s' := false, s1;
    if okg {
      RealmGranulesReady(s, s1, pas, params);
      rd, root, auxRoots := pas[0], pas[1], pas[2..];
      ok, s' := RealmCreate(s1, rd, params, root, auxRoots);
      if ok {
        KeptRealmCreated(s, s1, s', rd, root, auxRoots);
      }
    }
  }

  // ---------------------------------------------------------------- RECs

  /** Memory one REC takes: its granule and its auxiliary granules. */
  function RecCost(p: Platform): nat
  {
    (1 + p.auxCount) * PAGE_SIZE
  }

  /** The REC record of a REC right after REC_CREATE. */
  predicate NewRec(r: RecRecord, rd: int, mpidr: nat, runnable: bool)
  {
    r.owner == rd && r.mpidr == mpidr && r.runnable == runnable && r.psci == NoRequest && r.s2ap == NoS2ap
  }

  /** Granules fresh from DelegatedGranules are what REC_CREATE needs for the REC and its auxiliary granules. */
  lemma RecGranulesReady(s: State, s1: State, pas: seq<int>, rd: int)
    requires Valid(s) && Fresh(s) && s1.platform == s.platform && s1.realms == s.realms && |pas| == 1 + s.platform.auxCount
    requires NoDup(pas) && forall a :: a in pas ==> ValidPa(s.platform, a) && s.next <= a
    requires forall pa :: GranuleAt(s1, pa) == if pa in pas then Delegated else GranuleAt(s, pa)
    ensures RecCreateOk(s1, rd, pas[0], pas[1..]) <==> rd in s.realms && s.realms[rd].state == RealmNew
    ensures pas[0] !in s.realms && pas[0] !in s.recs && s.next <= pas[0] && forall a :: a in pas[1..] ==> s.next <= a
  {
    assert pas == [pas[0]] + pas[1..];
    assert GranuleAt(s, pas[0]) == Undelegated;
    forall a | a in pas[1..]
      ensures a in pas
    {
      var i :| 0 <= i < |pas[1..]| && pas[1..][i] == a;
      assert pas[i + 1] == a;
    }
  }

  /**
   * One REC of realm `rd`: REC_AUX_COUNT, the REC granule and that many
   * auxiliary granules delegated, then REC_CREATE.
   */
  method RecCreateOne(s: State, rd: int, mpidr: nat, runnable: bool) returns (ok: bool, rec: int, aux: seq<int>, s': State)
    requires Valid(s) && Fresh(s)
    ensures Keeps(s, s') && s'.next <= s.next + RecCost(s.platform)
    ensures ok <==> rd in s.realms && s.realms[rd].state == RealmNew && Room(s) >= RecCost(s.platform)
    ensures ok ==> s.next <= rec < s'.next && rec !in s.recs && rec !in s.realms
    ensures ok ==> s'.next == s.next + RecCost(s.platform)
    ensures s'.recs == if ok then s.recs[rec := RecRecord(rd, mpidr, runnable, aux, NoRequest, NoS2ap)] else s.recs
    ensures s'.realms == s.realms && s'.rtts == s.rtts && s'.mem == s.mem
  {
    rec, aux, ok, s' := s.next, [], false, s;
    var okc, count := RecAuxCount(s, rd);
    if okc {
      var okg, pas, s1 := DelegatedGranules(s, 1 + count);
      s' := s1;
      if okg {
        RecGranulesReady(s, s1, pas, rd);
        rec, aux := pas[0], pas[1..];
        ok, s' := RecCreate(s1, rd, rec, mpidr, runnable, aux);
        if ok {
          ghost var sa := s1.(granules := s1.granules[rec := Rec]);
          KeptRetyped(s, s1, sa, rec, Rec);
          KeptRetypedAll(s, sa, s', aux, RecAux);
        }
      }
    }
  }

  /** Which RECs of a new realm are created runnable. */
  datatype RunMode = AllRunnable | FirstRunnable | NoneRunnable

  function Runs(mode: RunMode, i: nat): bool
  {
    match mode
    case AllRunnable => true
    case FirstRunnable => i == 0
    case NoneRunnable => false
  }

  /** `k` times `c`, by repeated addition. */
  function Scaled(k: nat, c: nat): (r: nat)
    ensures k > 0 ==> r >= c
  {
    if k == 0 then 0 else Scaled(k - 1, c) + c
  }

  lemma {:induction false} ScaledMono(k: nat, n: nat, c: nat)
    requires k <= n
    ensures Scaled(k, c) <= Scaled(n, c)
    decreases n - k
  {
    if k < n {
      ScaledMono(k + 1, n, c);
    }
  }

  /**
   * Of `count` steps costing `cost` each: when `room` covers all of them,
   * what is left after the first `k` covers the next one.
   */
  lemma RoomForStep(room: int, k: nat, count: nat, cost: nat)
    requires k < count
    ensures room >= Scaled(count, cost) ==> room - Scaled(k, cost) >= cost
    ensures Scaled(k + 1, cost) == Scaled(k, cost) + cost <= Scaled(count, cost)
  {
    ScaledMono(k + 1, count, cost);
  }

  /** The new RECs `recs` of realm `rd`: REC i has MPIDR i and the runnable flag `mode` gives it. */
  ghost predicate NewRecs(s': State, s: State, rd: int, recs: seq<int>, mode: RunMode)
  {
    (forall i :: 0 <= i < |recs| ==>
       (recs[i] in s'.recs && recs[i] !in s.recs && recs[i] !in s.realms
        && s.next <= recs[i] < s'.next
        && NewRec(s'.recs[recs[i]], rd, i, Runs(mode, i))))
    && (forall i, j :: 0 <= i < j < |recs| ==> recs[i] < recs[j])
    && (forall r :: r in s.recs ==> r in s'.recs && s'.recs[r] == s.recs[r])
    && (forall r :: r in s'.recs ==> r in s.recs || r in recs)
  }

  /** One more REC created after the RECs `recs`. */
  lemma NewRecsStep(s: State, s1: State, s2: State, rd: int, recs: seq<int>, mode: RunMode, rec: int, r: RecRecord)
    requires NewRecs(s1, s, rd, recs, mode) && s1.realms == s.realms && s.next <= s1.next
    requires s1.next <= rec < s2.next && rec !in s1.recs && rec !in s1.realms
    requires s2.recs == s1.recs[rec := r] && NewRec(r, rd, |recs|, Runs(mode, |recs|))
    ensures NewRecs(s2, s, rd, recs + [rec], mode)
  {
    var recs' := recs + [rec];
    forall i | 0 <= i < |recs'|
      ensures recs'[i] in s2.recs && recs'[i] !in s.recs && recs'[i] !in s.realms && s.next <= recs'[i] < s2.next
      ensures NewRec(s2.recs[recs'[i]], rd, i, Runs(mode, i))
    {
      if i < |recs| {
        assert recs'[i] == recs[i] && recs[i] < s1.next;
      }
    }
  }

  /** A failed REC_CREATE leaves the RECs `recs` as they were. */
  lemma NewRecsKept(s: State, s1: State, s2: State, rd: int, recs: seq<int>, mode: RunMode)
    requires NewRecs(s1, s, rd, recs, mode) && s2.recs == s1.recs && s1.next <= s2.next
    ensures NewRecs(s2, s, rd, recs, mode)
  {
  }

  /** The RECs of realm `rd` created so far, `recs`, are the first of `count`; the loop state of RecCreateCommon. */
  ghost predicate RecsSoFar(s: State, s': State, rd: int, count: nat, mode: RunMode, ok: bool, recs: seq<int>)
    requires rd in s.realms
  {
    var cost := RecCost(s.platform);
    Keeps(s, s') && |recs| <= count
    && s'.next <= s.next + Scaled(count, cost)
    && (ok ==> s'.next == s.next + Scaled(|recs|, cost))
    && (!ok ==> count > 0 && !(s.realms[rd].state == RealmNew && Room(s) >= Scaled(count, cost)))
    && (|recs| > 0 ==> s.realms[rd].state == RealmNew)
    && NewRecs(s', s, rd, recs, mode)
    && s'.realms == s.realms && s'.rtts == s.rtts && s'.mem == s.mem
  }

  /** One round of RecCreateCommon: the next REC, or the first failure. */
  method RecCreateNext(s: State, s1: State, rd: int, count: nat, mode: RunMode, recs: seq<int>)
    returns (ok: bool, recs': seq<int>, s': State)
    requires Valid(s) && Fresh(s) && rd in s.realms
    requires RecsSoFar(s, s1, rd, count, mode, true, recs) && |recs| < count
    ensures RecsSoFar(s, s', rd, count, mode, ok, recs')
    ensures ok ==> |recs'| == |recs| + 1
    ensures !ok ==> recs' == recs
  {
    var cost := RecCost(s.platform);
    RoomForStep(Room(s), |recs|, count, cost);
    var rec, aux;
    ok, rec, aux, s' := RecCreateOne(s1, rd, |recs|, Runs(mode, |recs|));
    KeepsTrans(s, s1, s');
    recs' := recs;
    if ok {
      NewRecsStep(s, s1, s', rd, recs, mode, rec, RecRecord(rd, |recs|, Runs(mode, |recs|), aux, NoRequest, NoS2ap));
      recs' := recs + [rec];
    } else {
      NewRecsKept(s, s1, s', rd, recs, mode);
    }
  }

  /** `count` RECs of realm `rd`, created one after the other. */
  method RecCreateCommon(s: State, rd: int, count: nat, mode: RunMode) returns (ok: bool, recs: seq<int>, s': State)
    requires Valid(s) && Fresh(s)
    ensures Keeps(s, s') && s'.next <= s.next + Scaled(count, RecCost(s.platform))
    ensures ok <==> rd in s.realms && (count > 0 ==> s.realms[rd].state == RealmNew && Room(s) >= Scaled(count, RecCost(s.platform)))
    ensures ok ==> |recs| == count
    ensures NewRecs(s', s, rd, recs, mode)
    ensures s'.realms == s.realms && s'.rtts == s.rtts && s'.mem == s.mem
  {
    recs, s' := [], s;
    var okc, auxCount := RecAuxCount(s, rd);
    if !okc {
      return false, recs, s';
    }
    ok := true;
    while ok && |recs| < count
      invariant RecsSoFar(s, s', rd, count, mode, ok, recs)
      decreases count - |recs|, ok
    {
      ok, recs, s' := RecCreateNext(s, s', rd, count, mode, recs);
    }
    ScaledMono(|recs|, count, RecCost(s.platform));
  }

  // ---------------------------------------------------------------- realm setup

  /** The realm parameters the tests take by default: a 40-bit IPA space walked from level 0, no planes. */
  const DEFAULT_REALM: RealmParams := RealmParams(40, 0, 0, false)

  /** Memory a realm with `count` RECs takes. */
  function SetupCost(p: Platform, params: RealmParams, count: nat): int
  {
    RealmCost(params) + Scaled(count, RecCost(p))
  }

  /** The RECs of a realm created after `s` are new RECs relative to `s` as well. */
  lemma NewRecsSince(s: State, s1: State, s2: State, rd: int, recs: seq<int>, mode: RunMode)
    requires NewRecs(s2, s1, rd, recs, mode) && s1.recs == s.recs && s.next <= s1.next
    requires s.realms.Keys <= s1.realms.Keys
    ensures NewRecs(s2, s, rd, recs, mode)
  {
  }

  /** A new realm with `count` RECs, REC 0 runnable and the others not: REALM_CREATE, then REC_CREATE for every REC. */
  method RealmWithRecs(s: State, params: RealmParams, count: nat) returns (ok: bool, rd: int, recs: seq<int>, s': State)
    requires Valid(s) && Fresh(s)
    ensures Keeps(s, s') && s'.next <= s.next + SetupCost(s.platform, params, count)
    ensures ok <==> Room(s) >= SetupCost(s.platform, params, count) && ParamsOk(params) && FeaturesOk(s.platform, params)
    ensures ok ==> rd !in s.realms && rd in s'.realms && s'.realms == s.realms[rd := s'.realms[rd]]
    ensures ok ==> s'.realms[rd].params == params && s'.realms[rd].state == RealmNew
    ensures ok ==> |recs| == count && NewRecs(s', s, rd, recs, FirstRunnable)
    ensures ok ==> s'.realms[rd].root < s'.next && GranuleAt(s', s'.realms[rd].root) == Rtt
    ensures s'.rtts == s.rtts && s'.mem == s.mem
  {
    var root, aux, s1;
    ok, rd, root, aux, s1 := RealmCreateCommon(s, params);
    recs, s' := [], s1;
    if ok {
      ok, recs, s' := RecCreateCommon(s1, rd, count, FirstRunnable);
      KeepsTrans(s, s1, s');
      NewRecsSince(s, s1, s', rd, recs, FirstRunnable);
    }
  }

  /**
   * A realm with `count` RECs, REC 0 runnable and the others not, and
   * REALM_ACTIVATE when `activate` is set.
   */
  method RealmSetup(s: State, params: RealmParams, count: nat, activate: bool) returns (ok: bool, rd: int, recs: seq<int>, s': State)
    requires Valid(s) && Fresh(s)
    ensures Keeps(s, s') && s'.next <= s.next + SetupCost(s.platform, params, count)
    ensures ok <==> Room(s) >= SetupCost(s.platform, params, count) && ParamsOk(params) && FeaturesOk(s.platform, params)
    ensures ok ==> rd !in s.realms && rd in s'.realms && s'.realms == s.realms[rd := s'.realms[rd]]
    ensures ok ==> s'.realms[rd].params == params && s'.realms[rd].state == if activate then RealmActive else RealmNew
    ensures ok ==> |recs| == count && NewRecs(s', s, rd, recs, FirstRunnable)
    ensures ok ==> s'.realms[rd].root < s'.next && GranuleAt(s', s'.realms[rd].root) == Rtt
    ensures s'.rtts == s.rtts && s'.mem == s.mem
  {
    var s1;
    ok, rd, recs, s1 := RealmWithRecs(s, params, count);
    s' := s1;
    if ok && activate {
      ok, s' := RealmActivate(s1, rd);
      KeptUnchanged(s1, s');
      KeepsTrans(s, s1, s');
    }
  }

  // ---------------------------------------------------------------- tables

  /** Most memory a mapping fixture takes: one table per level below the root. */
  const TABLES_COST: int := 3 * PAGE_SIZE

  /** The tables for `ipa` in tree `tree` can be created: the IPA is the realm's, and the tree exists if a table is missing. */
  predicate TablesOk(s: State, rd: int, tree: nat, ipa: int)
  {
    rd in s.realms && InRealm(s.realms[rd], ipa)
    && (LeafWalk(s, rd, tree, ipa).level < RTT_MAX_LEVEL ==> TreeExists(s.realms[rd], tree))
  }

  /** The walk for `ipa` stops at level `level - 1`, at the block entry RTT_CREATE of a level `level` table expects. */
  lemma PathReady(t: Tables, rd: int, tree: nat, ipa: int, level: int)
    requires InIpaSpace(ipa) && 1 <= level <= RTT_MAX_LEVEL
    requires Leaf(t, rd, tree, ipa).level == level - 1
    ensures var a := AlignDown(ipa, level - 1);
            InIpaSpace(a) && a <= ipa && a % LevelSize(level - 1) == 0
            && Walk(t, rd, tree, ipa, 0, level - 1).level == level - 1
            && Walk(t, rd, tree, ipa, 0, level - 1).entry.state != Table
            && Walk(t, rd, tree, a, 0, level - 1) == Walk(t, rd, tree, ipa, 0, level - 1)
  {
    LeafPrefix(t, rd, tree, ipa, level - 1);
    var a := AlignDown(ipa, level - 1);
    AlignOffset(a, 0, level - 1);
    WalkSameBlock(t, rd, tree, a, ipa, level - 1);
  }

  /**
   * One RTT_CREATE on the path of `ipa`: a level `level` table under the
   * entry where the walk for `ipa` stops, in a fresh delegated granule.
   */
  method AddTable(s: State, rd: int, tree: nat, ipa: int, level: int) returns (ok: bool, s': State)
    requires Valid(s) && Fresh(s)
    requires rd in s.realms && InRealm(s.realms[rd], ipa) && 1 <= level <= RTT_MAX_LEVEL
    requires LeafWalk(s, rd, tree, ipa).level == level - 1
    ensures Keeps(s, s') && s'.next <= s.next + PAGE_SIZE
    ensures ok <==> TreeExists(s.realms[rd], tree) && Room(s) >= PAGE_SIZE
    ensures ok ==> LeafWalk(s', rd, tree, ipa).level == level
    ensures Grows(s.rtts, s'.rtts, rd, tree, ipa, true)
    ensures s'.realms == s.realms && s'.recs == s.recs && s'.mem == s.mem
  {
    PathReady(s.rtts, rd, tree, ipa, level);
    var okg, rtt, s1 := DelegatedGranule(s);
    s' := s1;
    ok := false;
    if okg {
      ok, s' := RttCreate(s1, rd, tree, rtt, AlignDown(ipa, level - 1), level);
      if ok {
        KeptRetyped(s, s1, s', rtt, Rtt);
      }
    }
    if ok {
      UnfoldGrows(s.rtts, rd, tree, level, ipa, rtt);
    } else {
      GrowsRefl(s.rtts, rd, tree, ipa);
    }
  }

  /**
   * The tables on the path of `ipa` in tree `tree`, created top down with
   * RTT_CREATE (RTT_AUX_CREATE for an auxiliary tree) from the level where
   * the walk stops to level 3. Every leaf keeps what it maps.
   */
  method CreateTables(s: State, rd: int, tree: nat, ipa: int) returns (ok: bool, s': State)
    requires Valid(s) && Fresh(s)
    ensures Keeps(s, s') && s'.next <= s.next + TABLES_COST
    ensures ok ==> TablesOk(s, rd, tree, ipa)
    ensures TablesOk(s, rd, tree, ipa) && Room(s) >= TABLES_COST ==> ok
    ensures ok ==> LeafWalk(s', rd, tree, ipa).level == RTT_MAX_LEVEL
    ensures InIpaSpace(ipa) ==> Grows(s.rtts, s'.rtts, rd, tree, ipa, true)
    ensures !InIpaSpace(ipa) ==> s' == s
    ensures InIpaSpace(ipa) && LeafWalk(s, rd, tree, ipa).level == RTT_MAX_LEVEL ==> s' == s
    ensures TablesOk(s, rd, tree, ipa) && LeafWalk(s, rd, tree, ipa).level == RTT_MAX_LEVEL ==> ok
    ensures s'.realms == s.realms && s'.recs == s.recs && s'.mem == s.mem
  {
    s' := s;
    if !(rd in s.realms && InRealm(s.realms[rd], ipa)) {
      if InIpaSpace(ipa) {
        GrowsRefl(s.rtts, rd, tree, ipa);
      }
      return false, s';
    }
    GrowsRefl(s.rtts, rd, tree, ipa);
    var first := LeafWalk(s, rd, tree, ipa).level;
    var level := first + 1;
    ok := true;
    while level <= RTT_MAX_LEVEL
      invariant Keeps(s, s')
      invariant first + 1 <= level <= RTT_MAX_LEVEL + 1
      invariant LeafWalk(s', rd, tree, ipa).level == level - 1
      invariant Grows(s.rtts, s'.rtts, rd, tree, ipa, true)
      invariant s'.next <= s.next + (level - 1 - first) * PAGE_SIZE
      invariant level > first + 1 ==> TreeExists(s.realms[rd], tree)
      invariant level == first + 1 ==> s' == s
      invariant ok
      invariant s'.realms == s.realms && s'.recs == s.recs && s'.mem == s.mem
    {
      var s1;
      ok, s1 := AddTable(s', rd, tree, ipa, level);
      KeepsTrans(s, s', s1);
      GrowsTrans(s.rtts, s'.rtts, s1.rtts, rd, tree, ipa, true, true);
      s' := s1;
      if !ok {
        return;
      }
      level := level + 1;
    }
  }

  /** The entry RTT_MAP_UNPROTECTED writes for host page `pa` with attributes `attrs`. */
  function NsEntry(pa: int, attrs: set<MemAttr>): Rtte
  {
    Rtte(AssignedNs, Empty, Desc(pa, attrs))
  }

  /** Host page `pa` can be mapped at `ipa`: an unprotected, unmapped, aligned page of the realm, without the DBM bit. */
  predicate MapNsReady(s: State, rd: int, pa: int, ipa: int, attrs: set<MemAttr>)
  {
    rd in s.realms && Unprotected(s.realms[rd], ipa) && ipa % PAGE_SIZE == 0 && pa % PAGE_SIZE == 0
    && Dbm !in attrs && LeafWalk(s, rd, 0, ipa).entry.state == Unassigned
  }

  /**
   * One page of host memory mapped into the realm's unprotected half: the
   * primary tree's tables down to the leaf for `ipa`, then
   * RTT_MAP_UNPROTECTED at level 3. Once the tables exist only that one
   * entry changes.
   */
  method MapUnprotected(s: State, rd: int, pa: int, ipa: int, attrs: set<MemAttr>) returns (ok: bool, s': State)
    requires Valid(s) && Fresh(s)
    ensures Keeps(s, s') && s'.next <= s.next + TABLES_COST
    ensures ok ==> MapNsReady(s, rd, pa, ipa, attrs)
    ensures MapNsReady(s, rd, pa, ipa, attrs) && Room(s) >= TABLES_COST ==> ok
    ensures ok ==> LeafWalk(s', rd, 0, ipa) == Walked(RTT_MAX_LEVEL, NsEntry(pa, attrs))
    ensures InIpaSpace(ipa) ==> Grows(s.rtts, s'.rtts, rd, 0, ipa, !ok)
    ensures InIpaSpace(ipa) && LeafWalk(s, rd, 0, ipa).level == RTT_MAX_LEVEL ==>
              (MapNsReady(s, rd, pa, ipa, attrs) ==> ok) && s'.next == s.next
    ensures s'.realms == s.realms && s'.recs == s.recs && s'.mem == s.mem
  {
    var s1;
    ok, s1 := CreateTables(s, rd, 0, ipa);
    s' := s1;
    if ok {
      ok, s' := RttMapUnprotected(s1, rd, ipa, RTT_MAX_LEVEL, Desc(pa, attrs));
      KeptUnchanged(s1, s');
      KeepsTrans(s, s1, s');
      if ok {
        SetGrows(s1.rtts, rd, 0, ipa, NsEntry(pa, attrs));
        GrowsTrans(s.rtts, s1.rtts, s'.rtts, rd, 0, ipa, true, false);
      } else {
        GrowsRefl(s1.rtts, rd, 0, ipa);
        GrowsTrans(s.rtts, s1.rtts, s'.rtts, rd, 0, ipa, true, true);
      }
    }
  }

  /** The RIPAS of the page at `ipa` can be initialised to RAM: a protected, unmapped page of a new realm. */
  predicate RipasInitOk(s: State, rd: int, ipa: int)
  {
    rd in s.realms && Protected(s.realms[rd], ipa) && ipa % PAGE_SIZE == 0
    && s.realms[rd].state == RealmNew && LeafWalk(s, rd, 0, ipa).entry.state == Unassigned
  }

  /** RTT_INIT_RIPAS of one page whose tables are in place: the leaf keeps its state and gets RIPAS RAM. */
  method InitRipas(s: State, rd: int, ipa: int) returns (ok: bool, s': State)
    requires Valid(s) && Fresh(s) && InIpaSpace(ipa) && LeafWalk(s, rd, 0, ipa).level == RTT_MAX_LEVEL
    ensures Keeps(s, s') && s'.next == s.next
    ensures ok <==> RipasInitOk(s, rd, ipa)
    ensures ok ==> LeafWalk(s', rd, 0, ipa) == Walked(RTT_MAX_LEVEL, LeafWalk(s, rd, 0, ipa).entry.(ripas := Ram))
    ensures Grows(s.rtts, s'.rtts, rd, 0, ipa, !ok)
    ensures s'.realms == s.realms && s'.recs == s.recs && s'.mem == s.mem
  {
    ok, s' := RttInitRipas(s, rd, ipa);
    KeptUnchanged(s, s');
    if ok {
      SetGrows(s.rtts, rd, 0, ipa, LeafWalk(s, rd, 0, ipa).entry.(ripas := Ram));
    } else {
      GrowsRefl(s.rtts, rd, 0, ipa);
    }
  }

  /**
   * The primary tree's tables down to the leaf for `ipa`, and with
   * `ripasInit` the page's RIPAS initialised to RAM (RTT_INIT_RIPAS).
   */
  method CreateMapping(s: State, rd: int, ipa: int, ripasInit: bool) returns (ok: bool, s': State)
    requires Valid(s) && Fresh(s)
    ensures Keeps(s, s') && s'.next <= s.next + TABLES_COST
    ensures ok ==> TablesOk(s, rd, 0, ipa) && (ripasInit ==> RipasInitOk(s, rd, ipa))
    ensures TablesOk(s, rd, 0, ipa) && (ripasInit ==> RipasInitOk(s, rd, ipa)) && Room(s) >= TABLES_COST ==> ok
    ensures ok ==> LeafWalk(s', rd, 0, ipa).level == RTT_MAX_LEVEL
    ensures ok && ripasInit ==> LeafWalk(s', rd, 0, ipa).entry == LeafWalk(s, rd, 0, ipa).entry.(ripas := Ram)
    ensures TablesOk(s, rd, 0, ipa) && (ripasInit ==> RipasInitOk(s, rd, ipa)) && LeafWalk(s, rd, 0, ipa).level == RTT_MAX_LEVEL ==> ok
    ensures !ripasInit && InIpaSpace(ipa) && LeafWalk(s, rd, 0, ipa).level == RTT_MAX_LEVEL ==> s' == s
    ensures InIpaSpace(ipa) ==> Grows(s.rtts, s'.rtts, rd, 0, ipa, !ripasInit)
    ensures !InIpaSpace(ipa) ==> s' == s
    ensures s'.realms == s.realms && s'.recs == s.recs && s'.mem == s.mem
  {
    ok, s' := CreateTables(s, rd, 0, ipa);
    if ok && ripasInit {
      var s1 := s';
      ok, s' := InitRipas(s1, rd, ipa);
      KeepsTrans(s, s1, s');
      GrowsTrans(s.rtts, s1.rtts, s'.rtts, rd, 0, ipa, true, !ok);
    }
  }

  /** DATA_CREATE can map a new granule at `ipa`: an unassigned protected leaf of a new realm. */
  predicate DataCreateReady(s: State, rd: int, ipa: int)
  {
    LeafIs(s, rd, 0, ipa, Unassigned) && s.realms[rd].state == RealmNew
  }

  /**
   * DATA_CREATE at `ipa` from a fresh delegated granule and a fresh source
   * page of the host's: the leaf maps the granule and keeps its RIPAS.
   */
  method CreateData(s: State, rd: int, ipa: int) returns (ok: bool, data: int, s': State)
    requires Valid(s) && Fresh(s)
    ensures Keeps(s, s') && s'.next <= s.next + 2 * PAGE_SIZE
    ensures ok <==> DataCreateReady(s, rd, ipa) && Room(s) >= 2 * PAGE_SIZE
    ensures ok ==> s.next <= data < s'.next && GranuleAt(s', data) == Data
    ensures ok ==> LeafWalk(s', rd, 0, ipa) == Walked(RTT_MAX_LEVEL, Mapped(LeafWalk(s, rd, 0, ipa).entry, data))
    ensures InIpaSpace(ipa) ==> Grows(s.rtts, s'.rtts, rd, 0, ipa, !ok)
    ensures s'.realms == s.realms && s'.recs == s.recs
  {
    var okd, s1, oks, src, s2;
    okd, data, s1 := DelegatedGranule(s);
    ok, s' := false, s1;
    if okd {
      oks, src, s2 := NewGranule(s1);
      KeepsTrans(s, s1, s2);
      s' := s2;
      if oks {
        ok, s' := DataCreate(s2, rd, data, ipa, src);
        if ok {
          ghost var sa := s2.(granules := s2.granules[data := Data]);
          KeptRetyped(s, s2, sa, data, Data);
          KeptWritten(s, sa, s', data, ContentOf(s2.mem, src));
        }
      }
    }
    if ok {
      SetGrows(s.rtts, rd, 0, ipa, Mapped(LeafWalk(s, rd, 0, ipa).entry, data));
    } else if InIpaSpace(ipa) {
      GrowsRefl(s.rtts, rd, 0, ipa);
    }
  }

  /** Memory DataPrep takes at most: the tables, the data granule and the source page. */
  const DATA_PREP_COST: int := TABLES_COST + 2 * PAGE_SIZE

  /**
   * A DATA granule mapped at the protected IPA `ipa`: the mapping with its
   * RIPAS initialised to RAM, then DATA_CREATE from a fresh delegated
   * granule and a fresh source page of the host's.
   */
  method DataPrep(s: State, rd: int, ipa: int) returns (ok: bool, data: int, s': State)
    requires Valid(s) && Fresh(s)
    ensures Keeps(s, s') && s'.next <= s.next + DATA_PREP_COST
    ensures ok ==> RipasInitOk(s, rd, ipa)
    ensures RipasInitOk(s, rd, ipa) && Room(s) >= DATA_PREP_COST ==> ok
    ensures ok ==> s.next <= data < s'.next && GranuleAt(s', data) == Data
    ensures ok ==> LeafWalk(s', rd, 0, ipa) == Walked(RTT_MAX_LEVEL, Rtte(Assigned, Ram, Desc(data, {})))
    ensures InIpaSpace(ipa) ==> Grows(s.rtts, s'.rtts, rd, 0, ipa, false)
    ensures !InIpaSpace(ipa) ==> s' == s
    ensures s'.realms == s.realms && s'.recs == s.recs
  {
    data := 0;
    var s1;
    ok, s1 := CreateMapping(s, rd, ipa, true);
    s' := s1;
    if ok {
      ok, data, s' := CreateData(s1, rd, ipa);
      KeepsTrans(s, s1, s');
      GrowsTrans(s.rtts, s1.rtts, s'.rtts, rd, 0, ipa, false, !ok);
    }
  }

  /** Memory AuxMappedData takes at most: DataPrep and the auxiliary tree's tables. */
  const AUX_DATA_COST: int := DATA_PREP_COST + TABLES_COST

  /**
   * A DATA granule mapped at `ipa` in the primary tree and in the
   * auxiliary tree `tree`: DataPrep, the auxiliary tree's tables, and
   * RTT_AUX_MAP_PROTECTED. Only the realm's own tables change.
   */
  method AuxMappedData(s: State, rd: int, ipa: int, tree: nat) returns (ok: bool, s': State)
    requires Valid(s) && Fresh(s) && 1 <= tree
    ensures Keeps(s, s') && s'.next <= s.next + AUX_DATA_COST
    ensures ok ==> InIpaSpace(ipa) && rd in s'.realms && LeafIs(s', rd, 0, ipa, Assigned) && AuxLive(s', rd, ipa)
    ensures (RipasInitOk(s, rd, ipa) && TreeExists(s.realms[rd], tree) && LeafWalk(s, rd, tree, ipa).entry.state == Unassigned
             && Room(s) >= AUX_DATA_COST) ==> ok
    ensures OnlyRealmChanged(s.rtts, s'.rtts, rd)
    ensures s'.realms == s.realms && s'.recs == s.recs
  {
    ghost var ready := RipasInitOk(s, rd, ipa) && TreeExists(s.realms[rd], tree)
                       && LeafWalk(s, rd, tree, ipa).entry.state == Unassigned && Room(s) >= AUX_DATA_COST;
    var data, s1, s2;
    ok, data, s1 := DataPrep(s, rd, ipa);
    s' := s1;
    if !ok {
      return;
    }
    WalkOtherTree(s.rtts, s1.rtts, rd, 0, rd, tree, ipa);
    if ready {
      assert TablesOk(s1, rd, tree, ipa) && Room(s1) >= TABLES_COST;
    }
    ok, s2 := CreateTables(s1, rd, tree, ipa);
    KeepsTrans(s, s1, s2);
    s' := s2;
    if !ok {
      return;
    }
    WalkOtherTree(s1.rtts, s2.rtts, rd, tree, rd, 0, ipa);
    assert SameLeaf(Leaf(s1.rtts, rd, tree, ipa).entry, Leaf(s2.rtts, rd, tree, ipa).entry);
    if ready {
      assert AuxMapOk(s2, rd, ipa, tree);
    }
    ok, s' := RttAuxMapProtected(s2, rd, ipa, tree);
    KeptUnchanged(s2, s');
    KeepsTrans(s, s2, s');
    if ok {
      LeafAfterSet(s2.rtts, rd, tree, ipa, PageEntry(s2, rd, ipa), ipa);
      WalkOtherTree(s2.rtts, s'.rtts, rd, tree, rd, 0, ipa);
      assert LeafWalk(s', rd, tree, ipa).entry.state == Assigned;
    }
  }

  /** The leaf entry of a page of protected data `data` with RIPAS RAM. */
  function DataEntry(data: int): (e: Rtte)
    ensures e.state == Assigned && e.ripas == Ram && e.desc.oa == data
  {
    Rtte(Assigned, Ram, Desc(data, {}))
  }

  /**
   * val_host_map_protected_data_to_realm for one page in the primary tree:
   * the target granule delegated, the mapping down to the leaf with its
   * RIPAS initialised to RAM, and DATA_CREATE copying `src` into `data`.
   * `s0` is the state before the host allocated `src` and `data`.
   */
  method MapProtectedData(s0: State, s: State, rd: int, src: int, data: int, ipa: int) returns (ok: bool, s': State)
    requires Valid(s) && Fresh(s) && Keeps(s0, s)
    requires s0.next <= src < s.next && s0.next <= data < s.next && src != data
    requires ValidPa(s.platform, src) && ValidPa(s.platform, data)
    requires GranuleAt(s, src) == Undelegated && GranuleAt(s, data) == Undelegated
    ensures Keeps(s0, s') && s'.realms == s.realms && s'.recs == s.recs && s'.next <= s.next + TABLES_COST
    ensures RipasInitOk(s, rd, ipa) && Room(s) >= TABLES_COST ==> ok
    ensures ok ==> RipasInitOk(s, rd, ipa)
    ensures ok ==> LeafWalk(s', rd, 0, ipa) == Walked(RTT_MAX_LEVEL, DataEntry(data)) && PageEntry(s', rd, ipa) == DataEntry(data)
    ensures ok ==> GranuleAt(s', data) == Data && ContentOf(s'.mem, data) == ContentOf(s.mem, src)
    ensures InIpaSpace(ipa) ==> OnlyTreeChanged(s.rtts, s'.rtts, rd, 0)
  {
    var s1, s2;
    ok, s1 := GranuleDelegate(s, data);
    s' := s1;
    KeptRetyped(s0, s, s1, data, Delegated);
    ok, s2 := CreateMapping(s1, rd, ipa, true);
    KeepsTrans(s0, s1, s2);
    s' := s2;
    if !ok {
      return;
    }
    ok, s' := DataCreate(s2, rd, data, ipa, src);
    assert ok;
    ghost var sa := s2.(granules := s2.granules[data := Data]);
    KeptRetyped(s0, s2, sa, data, Data);
    KeptWritten(s0, sa, s', data, ContentOf(s2.mem, src));
    SetGrows(s2.rtts, rd, 0, ipa, Mapped(PageEntry(s2, rd, ipa), data));
    GrowsTrans(s.rtts, s2.rtts, s'.rtts, rd, 0, ipa, false, false);
  }
}
