/**
 * The Realm Management Monitor as the host sees it through the RMI: granule
 * states, realm and REC records, the realms' translation tables, and the
 * contents of memory. A command either refuses (and changes nothing) or is
 * accepted and changes the state as stated in its contract. Which status
 * code a refusal reports is left to the callers: the model only decides
 * whether a command is refused, except for REC entry into a realm that has
 * been switched off, whose code the tests pin down.
 *
 * The whole machine is one value, `State`, and every command takes the state
 * before it and returns the state after it. The host's memory allocator is
 * part of it (field `next`): the host hands out the memory at and above
 * `next`, which nothing has touched.
 */
module Monitor {
  import opened RmmTypes
  import opened Rtt

  /** Fixed properties of the platform and of the monitor. */
  datatype Platform = Platform(
    /** Addresses at or above this are outside the permitted physical range. */
    paLimit: int,
    /** A device memory range, which is not delegable. */
    devBase: int,
    devSize: int,
    /** The normal memory the host allocator hands out. */
    memBase: int,
    memLimit: int,
    /** Number of auxiliary granules every REC needs (RMI_REC_AUX_COUNT). */
    auxCount: nat,
    /** Optional features: planes, one tree per plane, a single shared tree. */
    planes: bool,
    treePerPlane: bool,
    treeSingle: bool)

  predicate PlatformOk(p: Platform)
  {
    0 < p.memBase <= p.memLimit <= p.paLimit
    && p.memBase % PAGE_SIZE == 0 && p.memLimit % PAGE_SIZE == 0 && p.paLimit % PAGE_SIZE == 0
    && 0 <= p.devBase && p.devBase % PAGE_SIZE == 0 && p.devSize >= PAGE_SIZE
    && p.devBase + p.devSize <= p.paLimit
    && (p.devBase + p.devSize <= p.memBase || p.memLimit <= p.devBase)
  }

  /** A platform whose address ranges are laid out as PlatformOk requires. */
  type SanePlatform = p: Platform | PlatformOk(p)
    witness Platform(0x2000, 0, 0x1000, 0x1000, 0x2000, 0, false, false, false)

  /** A granule address the monitor accepts: aligned, permitted and not device memory. */
  predicate ValidPa(p: Platform, pa: int)
  {
    pa % PAGE_SIZE == 0 && 0 <= pa < p.paLimit && !(p.devBase <= pa < p.devBase + p.devSize)
  }

  /** Granules the monitor has not recorded are undelegated. */
  function StateOf(g: map<int, GranuleState>, pa: int): GranuleState
  {
    if pa in g then g[pa] else Undelegated
  }

  /** Memory nobody has written reads as zeros. */
  function ContentOf(mem: map<int, Page>, pa: int): Page
  {
    if pa in mem then mem[pa] else FilledPage(0)
  }

  /** All the granules in `pas` set to `st`. */
  function SetStates(g: map<int, GranuleState>, pas: seq<int>, st: GranuleState): (g': map<int, GranuleState>)
    ensures forall pa :: StateOf(g', pa) == if pa in pas then st else StateOf(g, pa)
    ensures forall pa :: pa in g' <==> pa in g || pa in pas
    decreases |pas|
  {
    if |pas| == 0 then g else SetStates(g[pas[0] := st], pas[1..], st)
  }

  /**
   * The auxiliary granules in `pas` returned as delegated. (The model does
   * not track which REC owns which auxiliary granule, so only granules
   * recorded as REC_AUX change state.)
   */
  function ReleaseAux(g: map<int, GranuleState>, pas: seq<int>): (g': map<int, GranuleState>)
    ensures forall pa :: StateOf(g', pa) == if pa in pas && StateOf(g, pa) == RecAux then Delegated else StateOf(g, pa)
    ensures g'.Keys == g.Keys
    decreases |pas|
  {
    if |pas| == 0 then g
    else if StateOf(g, pas[0]) == RecAux then ReleaseAux(g[pas[0] := Delegated], pas[1..])
    else ReleaseAux(g, pas[1..])
  }

  predicate NoDup(s: seq<int>)
  {
    forall i, j :: 0 <= i < j < |s| ==> s[i] != s[j]
  }

  /** The two parts of a duplicate-free sequence share nothing. */
  lemma NoDupSplit(a: seq<int>, b: seq<int>)
    requires NoDup(a + b)
    ensures forall x :: x in a ==> x !in b
  {
    forall x | x in a
      ensures x !in b
    {
      var i :| 0 <= i < |a| && a[i] == x;
      forall j | 0 <= j < |b|
        ensures b[j] != x
      {
        assert (a + b)[i] == a[i] && (a + b)[|a| + j] == b[j];
      }
    }
  }

  datatype RealmState = RealmNew | RealmActive | RealmSystemOff

  datatype RealmParams = RealmParams(s2sz: nat, startLevel: int, numAux: nat, treePerPlane: bool)

  /**
   * Parameters this model accepts: an IPA width of 40 to 48 bits walked from
   * one level 0 table, and at most three auxiliary planes.
   */
  predicate ParamsOk(params: RealmParams)
  {
    40 <= params.s2sz <= 48 && params.startLevel == 0 && params.numAux <= 3
  }

  /** Parameters the platform's features support. */
  predicate FeaturesOk(p: Platform, params: RealmParams)
  {
    (params.numAux > 0 ==> p.planes)
    && (params.treePerPlane ==> p.treePerPlane && params.numAux > 0)
    && (params.numAux > 0 && !params.treePerPlane ==> p.treeSingle)
  }

  datatype Realm = Realm(params: RealmParams, state: RealmState, root: int, auxRoots: seq<int>)

  /** Trees of a realm: 0 is the primary tree, 1..numAux the planes' own trees. */
  predicate TreeExists(r: Realm, tree: nat)
  {
    tree == 0 || (r.params.treePerPlane && 1 <= tree <= r.params.numAux)
  }

  /** The IPA is inside the realm's IPA space. */
  predicate InRealm(r: Realm, ipa: int)
  {
    InIpaSpace(ipa) && ipa < Pow2(r.params.s2sz)
  }

  /** The IPA is in the protected (lower) half of the realm's IPA space. */
  predicate Protected(r: Realm, ipa: int)
  {
    InRealm(r, ipa) && r.params.s2sz >= 1 && ipa < Pow2(r.params.s2sz - 1)
  }

  /** The IPA is in the unprotected (upper) half of the realm's IPA space. */
  predicate Unprotected(r: Realm, ipa: int)
  {
    InRealm(r, ipa) && r.params.s2sz >= 1 && ipa >= Pow2(r.params.s2sz - 1)
  }

  /** A 40-bit IPA space: protected below 2^39, unprotected from 2^39 up to 2^40. */
  lemma Ipa40(r: Realm)
    requires r.params.s2sz == 40
    ensures forall x {:trigger InRealm(r, x)} :: InRealm(r, x) <==> 0 <= x < 2 * L0_SIZE
    ensures forall x {:trigger Protected(r, x)} :: Protected(r, x) <==> 0 <= x < L0_SIZE
    ensures forall x {:trigger Unprotected(r, x)} :: Unprotected(r, x) <==> L0_SIZE <= x < 2 * L0_SIZE
  {
    Pow2Of39();
    assert Pow2(40) == 2 * Pow2(39);
  }

  datatype PsciRequest = NoRequest | Pending(fid: PsciFn, target: nat)

  /**
   * A REC's pending S2AP change over [base, top). The monitor applies the
   * change tree by tree: `tree` is the next tree whose entries for `base`
   * it checks.
   */
  datatype S2apRequest = NoS2ap | S2ap(base: int, top: int, tree: nat)

  datatype RecRecord = RecRecord(
    owner: int, mpidr: nat, runnable: bool, aux: seq<int>, psci: PsciRequest, s2ap: S2apRequest)

  /** An RTT_READ_ENTRY result: walk level, state, descriptor and RIPAS. */
  datatype EntryRead = EntryRead(walkLevel: int, state: Hipas, desc: Desc, ripas: Ripas)

  function ReadOf(w: Walked): EntryRead
  {
    EntryRead(w.level, w.entry.state, w.entry.desc, w.entry.ripas)
  }

  /**
   * What the realm does when a REC runs: leave with the given exit, or first
   * fetch an instruction at `ipa` and then leave with `thenExit`.
   */
  datatype RealmStep = Exits(exit: RecExit) | Fetch(ipa: int, thenExit: RecExit)

  /** REC_ENTER: entered (and the REC exit), refused for a switched-off realm, or refused otherwise. */
  datatype EnterResult = Entered(exit: RecExit) | RealmOff | Refused

  /** Packed return code of REC_ENTER into a realm switched off by SYSTEM_RESET or SYSTEM_OFF. */
  const REALM_OFF_CODE := Code(ErrorRealm, 1)

  /** Everything the monitor records, the contents of memory and the host allocator. */
  datatype State = State(
    platform: SanePlatform,
    granules: map<int, GranuleState>,
    mem: map<int, Page>,
    realms: map<int, Realm>,
    recs: map<int, RecRecord>,
    rtts: Tables,
    /** The host allocator's next free address. */
    next: int)

  /** Only permitted, non-device granules are ever recorded. */
  ghost predicate GranulesOk(p: Platform, g: map<int, GranuleState>)
  {
    forall pa :: pa in g ==> ValidPa(p, pa)
  }

  /** Every realm sits in an RD granule and has parameters the model accepts. */
  ghost predicate RealmsOk(g: map<int, GranuleState>, realms: map<int, Realm>)
  {
    forall rd :: rd in realms ==> StateOf(g, rd) == Rd && ParamsOk(realms[rd].params)
  }

  /** Every REC sits in a REC granule and belongs to a live realm. */
  ghost predicate RecsOk(g: map<int, GranuleState>, realms: map<int, Realm>, recs: map<int, RecRecord>)
  {
    forall r :: r in recs ==> StateOf(g, r) == Rec && recs[r].owner in realms
  }

  /** Every table belongs to a live realm. */
  ghost predicate RttsOk(realms: map<int, Realm>, rtts: Tables)
  {
    forall id :: id in rtts ==> id.rd in realms
  }

  ghost predicate Valid(s: State)
  {
    s.platform.memBase <= s.next <= s.platform.memLimit && s.next % PAGE_SIZE == 0
    && GranulesOk(s.platform, s.granules)
    && RealmsOk(s.granules, s.realms)
    && RecsOk(s.granules, s.realms, s.recs)
    && RttsOk(s.realms, s.rtts)
  }

  /** Nothing at or above the allocator's next address has been touched. */
  ghost predicate Fresh(s: State)
  {
    forall pa :: pa >= s.next ==> pa !in s.granules && pa !in s.mem
  }

  /** Giving one granule that holds no realm and no REC a new state that is neither keeps the state well formed. */
  lemma Retyped(s: State, pa: int, st: GranuleState)
    requires Valid(s) && ValidPa(s.platform, pa)
    requires GranuleAt(s, pa) != Rd && GranuleAt(s, pa) != Rec && st != Rd && st != Rec
    ensures Valid(s.(granules := s.granules[pa := st]))
    ensures Fresh(s) && (pa < s.next || GranuleAt(s, pa) != Undelegated) ==> Fresh(s.(granules := s.granules[pa := st]))
  {
  }

  /** Writing a page the allocator has handed out keeps the state well formed. */
  lemma Written(s: State, pa: int, page: Page)
    requires Valid(s)
    ensures Valid(s.(mem := s.mem[pa := page]))
    ensures Fresh(s) && (pa < s.next || GranuleAt(s, pa) != Undelegated) ==> Fresh(s.(mem := s.mem[pa := page]))
  {
  }

  /** New tables that belong to live realms keep the state well formed. */
  lemma TablesAdded(s: State, t: Tables, a: TableId, b: TableId)
    requires Valid(s) && a.rd in s.realms && b.rd in s.realms
    requires t.Keys <= s.rtts.Keys + {a, b}
    ensures Valid(s.(rtts := t)) && (Fresh(s) ==> Fresh(s.(rtts := t)))
  {
  }

  /** The machine after boot: nothing recorded, all of normal memory free. */
  function Boot(p: SanePlatform): (s: State)
    ensures Valid(s) && Fresh(s)
    ensures s.platform == p && s.platform.memLimit - s.next == p.memLimit - p.memBase
    ensures forall pa :: StateOf(s.granules, pa) == Undelegated && ContentOf(s.mem, pa) == FilledPage(0)
    ensures forall rd: int, tree: nat, x :: InIpaSpace(x) ==> Leaf(s.rtts, rd, tree, x) == Walked(0, UNASSIGNED_EMPTY)
  {
    var s := State(p, map[], map[], map[], map[], map[], p.memBase);
    forall rd: int, tree: nat, x | InIpaSpace(x)
      ensures Leaf(s.rtts, rd, tree, x) == Walked(0, UNASSIGNED_EMPTY)
    {
      LeafWithoutTables(s.rtts, rd, tree, x);
    }
    s
  }

  function GranuleAt(s: State, pa: int): GranuleState
  {
    StateOf(s.granules, pa)
  }

  /** Memory the host allocator can still hand out. */
  function Room(s: State): int
  {
    s.platform.memLimit - s.next
  }

  /** The walk of a realm tree from its root table to the leaf level. */
  function LeafWalk(s: State, rd: int, tree: nat, ipa: int): Walked
    requires InIpaSpace(ipa)
  {
    Leaf(s.rtts, rd, tree, ipa)
  }

  // ---------------------------------------------------------------- host memory

  /**
   * The host allocator: `size` bytes aligned to a page or to a level 2
   * block, taken from the memory nobody has touched.
   */
  method Alloc(s: State, size: int, align: int) returns (ok: bool, pa: int, s': State)
    requires Valid(s) && size > 0 && size % PAGE_SIZE == 0
    requires align == PAGE_SIZE || align == L2_SIZE
    ensures Valid(s') && (Fresh(s) ==> Fresh(s'))
    ensures pa == (if align == L2_SIZE then AlignDown(s.next + L2_SIZE - 1, 2) else s.next)
    ensures pa >= s.next && pa % align == 0
    ensures ok <==> pa + size <= s.platform.memLimit
    ensures s'.platform == s.platform && s'.granules == s.granules && s'.mem == s.mem && s'.realms == s.realms && s'.recs == s.recs && s'.rtts == s.rtts
    ensures s'.next == if ok then pa + size else s.next
    ensures ok ==> forall x :: pa <= x < pa + size && x % PAGE_SIZE == 0 ==> ValidPa(s.platform, x)
  {
    pa := if align == L2_SIZE then AlignDown(s.next + L2_SIZE - 1, 2) else s.next;
    assert pa % PAGE_SIZE == 0 && pa % align == 0;
    AddPages(pa, size);
    ok := pa + size <= s.platform.memLimit;
    s' := if ok then s.(next := pa + size) else s;
  }

  /** A host write of byte `b` over the page at `pa`; it faults unless the page is the host's. */
  method HostFill(s: State, pa: int, b: byte) returns (ok: bool, s': State)
    requires Valid(s)
    ensures Valid(s') && (Fresh(s) && pa < s.next ==> Fresh(s'))
    ensures ok <==> ValidPa(s.platform, pa) && GranuleAt(s, pa) == Undelegated
    ensures s'.platform == s.platform && s'.granules == s.granules && s'.realms == s.realms && s'.recs == s.recs && s'.rtts == s.rtts && s'.next == s.next
    ensures s'.mem == if ok then s.mem[pa := FilledPage(b)] else s.mem
  {
    ok := ValidPa(s.platform, pa) && GranuleAt(s, pa) == Undelegated;
    s' := if ok then s.(mem := s.mem[pa := FilledPage(b)]) else s;
  }

  /** A host comparison of two pages; it faults unless both are the host's. */
  method HostCompare(s: State, a: int, b: int) returns (ok: bool, same: bool)
    requires Valid(s)
    ensures ok <==> (ValidPa(s.platform, a) && GranuleAt(s, a) == Undelegated
                     && ValidPa(s.platform, b) && GranuleAt(s, b) == Undelegated)
    ensures ok ==> (same <==> ContentOf(s.mem, a) == ContentOf(s.mem, b))
  {
    ok := ValidPa(s.platform, a) && GranuleAt(s, a) == Undelegated
       && ValidPa(s.platform, b) && GranuleAt(s, b) == Undelegated;
    same := ok && ContentOf(s.mem, a) == ContentOf(s.mem, b);
  }

  // ---------------------------------------------------------------- granules

  predicate DelegateOk(s: State, pa: int)
  {
    ValidPa(s.platform, pa) && GranuleAt(s, pa) == Undelegated
  }

  /** RMI_GRANULE_DELEGATE. */
  method GranuleDelegate(s: State, pa: int) returns (ok: bool, s': State)
    requires Valid(s)
    ensures Valid(s') && (Fresh(s) && pa < s.next ==> Fresh(s'))
    ensures ok <==> DelegateOk(s, pa)
    ensures s'.platform == s.platform && s'.mem == s.mem && s'.realms == s.realms && s'.recs == s.recs && s'.rtts == s.rtts && s'.next == s.next
    ensures s'.granules == if ok then s.granules[pa := Delegated] else s.granules
  {
    ok := DelegateOk(s, pa);
    s' := if ok then s.(granules := s.granules[pa := Delegated]) else s;
  }

  predicate UndelegateOk(s: State, pa: int)
  {
    ValidPa(s.platform, pa) && GranuleAt(s, pa) == Delegated
  }

  /** RMI_GRANULE_UNDELEGATE: the granule returns to the host with its contents wiped. */
  method GranuleUndelegate(s: State, pa: int) returns (ok: bool, s': State)
    requires Valid(s)
    ensures Valid(s') && (Fresh(s) ==> Fresh(s'))
    ensures ok <==> UndelegateOk(s, pa)
    ensures s'.platform == s.platform && s'.realms == s.realms && s'.recs == s.recs && s'.rtts == s.rtts && s'.next == s.next
    ensures s'.granules == if ok then s.granules[pa := Undelegated] else s.granules
    ensures s'.mem == if ok then s.mem[pa := FilledPage(0)] else s.mem
  {
    ok := UndelegateOk(s, pa);
    s' := if ok then s.(granules := s.granules[pa := Undelegated], mem := s.mem[pa := FilledPage(0)]) else s;
  }

  // ---------------------------------------------------------------- realms

  predicate RealmCreateOk(s: State, rd: int, params: RealmParams, root: int, auxRoots: seq<int>)
  {
    ValidPa(s.platform, rd) && GranuleAt(s, rd) == Delegated
    && ValidPa(s.platform, root) && GranuleAt(s, root) == Delegated
    && ParamsOk(params) && FeaturesOk(s.platform, params)
    && |auxRoots| == (if params.treePerPlane then params.numAux else 0)
    && (forall a :: a in auxRoots ==> ValidPa(s.platform, a) && GranuleAt(s, a) == Delegated)
    && NoDup([rd, root] + auxRoots)
  }

  /** RMI_REALM_CREATE: a new realm with empty translation tables. */
  method RealmCreate(s: State, rd: int, params: RealmParams, root: int, auxRoots: seq<int>) returns (ok: bool, s': State)
    requires Valid(s)
    ensures Valid(s') && (Fresh(s) ==> Fresh(s'))
    ensures ok <==> RealmCreateOk(s, rd, params, root, auxRoots)
    ensures s'.platform == s.platform && s'.mem == s.mem && s'.recs == s.recs && s'.rtts == s.rtts && s'.next == s.next
    ensures s'.granules == if ok then SetStates(s.granules[rd := Rd][root := Rtt], auxRoots, Rtt) else s.granules
    ensures s'.realms == if ok then s.realms[rd := Realm(params, RealmNew, root, auxRoots)] else s.realms
  {
    ok := RealmCreateOk(s, rd, params, root, auxRoots);
    s' := s;
    if ok {
      NoDupSplit([rd, root], auxRoots);
      assert ([rd, root] + auxRoots)[0] != ([rd, root] + auxRoots)[1];
      s' := s.(granules := SetStates(s.granules[rd := Rd][root := Rtt], auxRoots, Rtt),
               realms := s.realms[rd := Realm(params, RealmNew, root, auxRoots)]);
    }
  }

  predicate ActivateOk(s: State, rd: int)
  {
    rd in s.realms && s.realms[rd].state == RealmNew
  }

  /** RMI_REALM_ACTIVATE. */
  method RealmActivate(s: State, rd: int) returns (ok: bool, s': State)
    requires Valid(s)
    ensures Valid(s') && (Fresh(s) ==> Fresh(s'))
    ensures ok <==> ActivateOk(s, rd)
    ensures s'.platform == s.platform && s'.granules == s.granules && s'.mem == s.mem && s'.recs == s.recs && s'.rtts == s.rtts && s'.next == s.next
    ensures s'.realms == if ok then s.realms[rd := s.realms[rd].(state := RealmActive)] else s.realms
  {
    ok := ActivateOk(s, rd);
    s' := if ok then s.(realms := s.realms[rd := s.realms[rd].(state := RealmActive)]) else s;
  }

  // ---------------------------------------------------------------- RECs

  /** RMI_REC_AUX_COUNT. */
  method RecAuxCount(s: State, rd: int) returns (ok: bool, count: nat)
    requires Valid(s)
    ensures ok <==> rd in s.realms
    ensures ok ==> count == s.platform.auxCount
  {
    ok := rd in s.realms;
    count := if ok then s.platform.auxCount else 0;
  }

  predicate RecCreateOk(s: State, rd: int, rec: int, aux: seq<int>)
  {
    rd in s.realms && s.realms[rd].state == RealmNew
    && ValidPa(s.platform, rec) && GranuleAt(s, rec) == Delegated
    && |aux| == s.platform.auxCount
    && (forall a :: a in aux ==> ValidPa(s.platform, a) && GranuleAt(s, a) == Delegated)
    && NoDup([rec] + aux)
  }

  /** RMI_REC_CREATE. */
  method RecCreate(s: State, rd: int, rec: int, mpidr: nat, runnable: bool, aux: seq<int>) returns (ok: bool, s': State)
    requires Valid(s)
    ensures Valid(s') && (Fresh(s) ==> Fresh(s'))
    ensures ok <==> RecCreateOk(s, rd, rec, aux)
    ensures s'.platform == s.platform && s'.mem == s.mem && s'.realms == s.realms && s'.rtts == s.rtts && s'.next == s.next
    ensures s'.granules == if ok then SetStates(s.granules[rec := Rec], aux, RecAux) else s.granules
    ensures s'.recs == if ok then s.recs[rec := RecRecord(rd, mpidr, runnable, aux, NoRequest, NoS2ap)] else s.recs
  {
    ok := RecCreateOk(s, rd, rec, aux);
    s' := s;
    if ok {
      NoDupSplit([rec], aux);
      s' := s.(granules := SetStates(s.granules[rec := Rec], aux, RecAux),
               recs := s.recs[rec := RecRecord(rd, mpidr, runnable, aux, NoRequest, NoS2ap)]);
    }
  }

  predicate RecDestroyOk(s: State, rec: int)
  {
    ValidPa(s.platform, rec) && GranuleAt(s, rec) == Rec && rec in s.recs
  }

  /** RMI_REC_DESTROY: the REC and its auxiliary granules become delegated again. */
  method RecDestroy(s: State, rec: int) returns (ok: bool, s': State)
    requires Valid(s)
    ensures Valid(s') && (Fresh(s) ==> Fresh(s'))
    ensures ok <==> RecDestroyOk(s, rec)
    ensures s'.platform == s.platform && s'.mem == s.mem && s'.realms == s.realms && s'.rtts == s.rtts && s'.next == s.next
    ensures s'.granules == if ok then ReleaseAux(s.granules[rec := Delegated], s.recs[rec].aux) else s.granules
    ensures s'.recs == if ok then s.recs - {rec} else s.recs
  {
    ok := RecDestroyOk(s, rec);
    s' := if ok then s.(granules := ReleaseAux(s.granules[rec := Delegated], s.recs[rec].aux),
                        recs := s.recs - {rec})
          else s;
  }

  // ---------------------------------------------------------------- RTTs

  predicate RttCreateOk(s: State, rd: int, tree: nat, rtt: int, ipa: int, level: int)
  {
    rd in s.realms && TreeExists(s.realms[rd], tree)
    && ValidPa(s.platform, rtt) && GranuleAt(s, rtt) == Delegated
    && 0 < level <= RTT_MAX_LEVEL
    && InRealm(s.realms[rd], ipa) && ipa % LevelSize(level - 1) == 0
    && var w := Walk(s.rtts, rd, tree, ipa, 0, level - 1);
       w.level == level - 1 && w.entry.state != Table
  }

  /**
   * RMI_RTT_CREATE (tree 0) and RMI_RTT_AUX_CREATE (trees 1..): a level
   * `level` table under the block entry for `ipa`.
   */
  method RttCreate(s: State, rd: int, tree: nat, rtt: int, ipa: int, level: int) returns (ok: bool, s': State)
    requires Valid(s)
    ensures Valid(s') && (Fresh(s) ==> Fresh(s'))
    ensures ok <==> RttCreateOk(s, rd, tree, rtt, ipa, level)
    ensures s'.platform == s.platform && s'.mem == s.mem && s'.realms == s.realms && s'.recs == s.recs && s'.next == s.next
    ensures s'.granules == if ok then s.granules[rtt := Rtt] else s.granules
    ensures s'.rtts == if ok then Unfold(s.rtts, rd, tree, level, ipa, rtt) else s.rtts
  {
    ok := RttCreateOk(s, rd, tree, rtt, ipa, level);
    s' := s;
    if ok {
      Retyped(s, rtt, Rtt);
      var s1 := s.(granules := s.granules[rtt := Rtt]);
      TablesAdded(s1, Unfold(s.rtts, rd, tree, level, ipa, rtt), TableOf(rd, tree, level, ipa), TableOf(rd, tree, level - 1, ipa));
      s' := s1.(rtts := Unfold(s.rtts, rd, tree, level, ipa, rtt));
    }
  }

  predicate ReadOk(s: State, rd: int, ipa: int, level: int)
  {
    rd in s.realms && 0 <= level <= RTT_MAX_LEVEL
    && InRealm(s.realms[rd], ipa) && ipa % LevelSize(level) == 0
  }

  /** RMI_RTT_READ_ENTRY for the primary tree. */
  method RttReadEntry(s: State, rd: int, ipa: int, level: int) returns (ok: bool, read: EntryRead)
    requires Valid(s)
    ensures ok <==> ReadOk(s, rd, ipa, level)
    ensures ok ==> read == ReadOf(Walk(s.rtts, rd, 0, ipa, 0, level))
  {
    ok := ReadOk(s, rd, ipa, level);
    if ok {
      read := ReadOf(Walk(s.rtts, rd, 0, ipa, 0, level));
    } else {
      read := EntryRead(0, Unassigned, NO_DESC, Empty);
    }
  }

  predicate FoldOk(s: State, rd: int, ipa: int, level: int)
  {
    rd in s.realms && 0 < level <= RTT_MAX_LEVEL
    && InRealm(s.realms[rd], ipa) && ipa % LevelSize(level - 1) == 0
    && (var w := Walk(s.rtts, rd, 0, ipa, 0, level - 1);
        w.level == level - 1 && w.entry.state == Table)
    && Foldable(Tbl(s.rtts, TableOf(rd, 0, level, ipa)), level)
  }

  /** The granule that holds the level `level` table for `ipa`, as its parent entry names it. */
  function TableGranule(s: State, rd: int, ipa: int, level: int): int
    requires 0 < level <= RTT_MAX_LEVEL && InIpaSpace(ipa)
  {
    Entry(s.rtts, rd, 0, level - 1, ipa).desc.oa
  }

  /**
   * RMI_RTT_FOLD: the level `level` table for `ipa` is replaced by one
   * block entry; the table's granule is returned and becomes delegated.
   * (The model does not track which granules hold tables, so only a
   * granule recorded as an RTT changes state.)
   */
  method RttFold(s: State, rd: int, ipa: int, level: int) returns (ok: bool, rtt: int, s': State)
    requires Valid(s)
    ensures Valid(s') && (Fresh(s) ==> Fresh(s'))
    ensures ok <==> FoldOk(s, rd, ipa, level)
    ensures ok ==> rtt == TableGranule(s, rd, ipa, level)
    ensures s'.platform == s.platform && s'.mem == s.mem && s'.realms == s.realms && s'.recs == s.recs && s'.next == s.next
    ensures s'.granules == if ok then (if GranuleAt(s, rtt) == Rtt then s.granules[rtt := Delegated] else s.granules) else s.granules
    ensures s'.rtts == if ok then Fold(s.rtts, rd, 0, level, ipa) else s.rtts
  {
    ok := FoldOk(s, rd, ipa, level);
    rtt := 0;
    s' := s;
    if ok {
      rtt := TableGranule(s, rd, ipa, level);
      var s1 := s;
      if GranuleAt(s, rtt) == Rtt {
        Retyped(s, rtt, Delegated);
        s1 := s.(granules := s.granules[rtt := Delegated]);
      }
      TablesAdded(s1, Fold(s.rtts, rd, 0, level, ipa), TableOf(rd, 0, level - 1, ipa), TableOf(rd, 0, level - 1, ipa));
      s' := s1.(rtts := Fold(s.rtts, rd, 0, level, ipa));
    }
  }

  /** The leaf entry for a protected, page-aligned IPA, when the walk reaches level 3. */
  predicate LeafIs(s: State, rd: int, tree: nat, ipa: int, st: Hipas)
  {
    rd in s.realms && Protected(s.realms[rd], ipa) && ipa % PAGE_SIZE == 0
    && LeafWalk(s, rd, tree, ipa).level == RTT_MAX_LEVEL && LeafWalk(s, rd, tree, ipa).entry.state == st
  }

  /** The level 3 entry of the primary tree for `ipa`. */
  function PageEntry(s: State, rd: int, ipa: int): Rtte
    requires InIpaSpace(ipa)
  {
    Entry(s.rtts, rd, 0, RTT_MAX_LEVEL, ipa)
  }

  predicate InitRipasOk(s: State, rd: int, ipa: int)
  {
    LeafIs(s, rd, 0, ipa, Unassigned) && s.realms[rd].state == RealmNew
  }

  /** RMI_RTT_INIT_RIPAS for one page: its RIPAS becomes RAM. */
  method RttInitRipas(s: State, rd: int, ipa: int) returns (ok: bool, s': State)
    requires Valid(s)
    ensures Valid(s') && (Fresh(s) ==> Fresh(s'))
    ensures ok <==> InitRipasOk(s, rd, ipa)
    ensures s'.platform == s.platform && s'.granules == s.granules && s'.mem == s.mem && s'.realms == s.realms && s'.recs == s.recs && s'.next == s.next
    ensures s'.rtts == if ok then SetEntry(s.rtts, rd, 0, RTT_MAX_LEVEL, ipa, PageEntry(s, rd, ipa).(ripas := Ram)) else s.rtts
  {
    ok := InitRipasOk(s, rd, ipa);
    s' := s;
    if ok {
      s' := s.(rtts := SetEntry(s.rtts, rd, 0, RTT_MAX_LEVEL, ipa, PageEntry(s, rd, ipa).(ripas := Ram)));
    }
  }

  predicate MapUnprotectedOk(s: State, rd: int, ipa: int, level: int, desc: Desc)
  {
    rd in s.realms && Unprotected(s.realms[rd], ipa)
    && 2 <= level <= RTT_MAX_LEVEL
    && ipa % LevelSize(level) == 0 && desc.oa % LevelSize(level) == 0 && Dbm !in desc.attrs
    && var w := Walk(s.rtts, rd, 0, ipa, 0, level);
       w.level == level && w.entry.state == Unassigned
  }

  /** RMI_RTT_MAP_UNPROTECTED: an unprotected IPA mapped to host memory; the DBM bit is refused. */
  method RttMapUnprotected(s: State, rd: int, ipa: int, level: int, desc: Desc) returns (ok: bool, s': State)
    requires Valid(s)
    ensures Valid(s') && (Fresh(s) ==> Fresh(s'))
    ensures ok <==> MapUnprotectedOk(s, rd, ipa, level, desc)
    ensures s'.platform == s.platform && s'.granules == s.granules && s'.mem == s.mem && s'.realms == s.realms && s'.recs == s.recs && s'.next == s.next
    ensures s'.rtts == if ok then SetEntry(s.rtts, rd, 0, level, ipa, Rtte(AssignedNs, Empty, desc)) else s.rtts
  {
    ok := MapUnprotectedOk(s, rd, ipa, level, desc);
    s' := s;
    if ok {
      s' := s.(rtts := SetEntry(s.rtts, rd, 0, level, ipa, Rtte(AssignedNs, Empty, desc)));
    }
  }

  // ---------------------------------------------------------------- data

  predicate DataCreateOk(s: State, rd: int, data: int, ipa: int, src: int)
  {
    LeafIs(s, rd, 0, ipa, Unassigned) && s.realms[rd].state == RealmNew
    && ValidPa(s.platform, data) && GranuleAt(s, data) == Delegated
    && ValidPa(s.platform, src) && GranuleAt(s, src) == Undelegated
  }

  /** The leaf entry that maps `data`, keeping the RIPAS the page had. */
  function Mapped(e: Rtte, data: int): (e': Rtte)
  {
    Rtte(Assigned, e.ripas, Desc(data, {}))
  }

  /** RMI_DATA_CREATE: the data granule receives a copy of `src` and is mapped at `ipa`. */
  method DataCreate(s: State, rd: int, data: int, ipa: int, src: int) returns (ok: bool, s': State)
    requires Valid(s)
    ensures Valid(s') && (Fresh(s) ==> Fresh(s'))
    ensures ok <==> DataCreateOk(s, rd, data, ipa, src)
    ensures s'.platform == s.platform && s'.realms == s.realms && s'.recs == s.recs && s'.next == s.next
    ensures s'.granules == if ok then s.granules[data := Data] else s.granules
    ensures s'.mem == if ok then s.mem[data := ContentOf(s.mem, src)] else s.mem
    ensures s'.rtts == if ok then SetEntry(s.rtts, rd, 0, RTT_MAX_LEVEL, ipa, Mapped(PageEntry(s, rd, ipa), data)) else s.rtts
  {
    ok := DataCreateOk(s, rd, data, ipa, src);
    s' := s;
    if ok {
      var t := SetEntry(s.rtts, rd, 0, RTT_MAX_LEVEL, ipa, Mapped(PageEntry(s, rd, ipa), data));
      Retyped(s, data, Data);
      var s1 := s.(granules := s.granules[data := Data]);
      Written(s1, data, ContentOf(s.mem, src));
      var s2 := s1.(mem := s.mem[data := ContentOf(s.mem, src)]);
      TablesAdded(s2, t, TableOf(rd, 0, RTT_MAX_LEVEL, ipa), TableOf(rd, 0, RTT_MAX_LEVEL, ipa));
      s' := s2.(rtts := t);
    }
  }

  predicate DataCreateUnknownOk(s: State, rd: int, data: int, ipa: int)
  {
    LeafIs(s, rd, 0, ipa, Unassigned) && ValidPa(s.platform, data) && GranuleAt(s, data) == Delegated
  }

  /** RMI_DATA_CREATE_UNKNOWN: the data granule is mapped at `ipa` without defined contents. */
  method DataCreateUnknown(s: State, rd: int, data: int, ipa: int) returns (ok: bool, s': State)
    requires Valid(s)
    ensures Valid(s') && (Fresh(s) ==> Fresh(s'))
    ensures ok <==> DataCreateUnknownOk(s, rd, data, ipa)
    ensures s'.platform == s.platform && s'.mem == s.mem && s'.realms == s.realms && s'.recs == s.recs && s'.next == s.next
    ensures s'.granules == if ok then s.granules[data := Data] else s.granules
    ensures s'.rtts == if ok then SetEntry(s.rtts, rd, 0, RTT_MAX_LEVEL, ipa, Mapped(PageEntry(s, rd, ipa), data)) else s.rtts
  {
    ok := DataCreateUnknownOk(s, rd, data, ipa);
    s' := s;
    if ok {
      var t := SetEntry(s.rtts, rd, 0, RTT_MAX_LEVEL, ipa, Mapped(PageEntry(s, rd, ipa), data));
      Retyped(s, data, Data);
      var s1 := s.(granules := s.granules[data := Data]);
      TablesAdded(s1, t, TableOf(rd, 0, RTT_MAX_LEVEL, ipa), TableOf(rd, 0, RTT_MAX_LEVEL, ipa));
      s' := s1.(rtts := t);
    }
  }

  /** Some auxiliary tree of the realm still maps `ipa`. */
  predicate AuxLive(s: State, rd: int, ipa: int)
    requires rd in s.realms && InIpaSpace(ipa)
  {
    s.realms[rd].params.treePerPlane
    && exists tree: nat :: 1 <= tree <= s.realms[rd].params.numAux && LeafWalk(s, rd, tree, ipa).entry.state == Assigned
  }

  predicate DataDestroyOk(s: State, rd: int, ipa: int)
  {
    LeafIs(s, rd, 0, ipa, Assigned) && !AuxLive(s, rd, ipa)
  }

  /**
   * The `top` a DATA_DESTROY reports: the IPA of the first live entry at or
   * after the point where the walk for `ipa` stopped, within that table,
   * or the end of that table.
   */
  function DestroyTop(s: State, rd: int, ipa: int): int
    requires InIpaSpace(ipa)
  {
    NextLive(s.rtts, rd, 0, LeafWalk(s, rd, 0, ipa).level, ipa)
  }

  /** The leaf entry DATA_DESTROY leaves behind. */
  function Unmapped(e: Rtte): (e': Rtte)
  {
    Rtte(Unassigned, AfterDestroy(e.ripas), NO_DESC)
  }

  /** The state after destroying the mapping of `ipa` to `data`. */
  function AfterDataDestroy(s: State, rd: int, ipa: int, data: int): State
    requires InIpaSpace(ipa)
  {
    s.(granules := if GranuleAt(s, data) == Data then s.granules[data := Delegated] else s.granules,
       rtts := SetEntry(s.rtts, rd, 0, RTT_MAX_LEVEL, ipa, Unmapped(PageEntry(s, rd, ipa))))
  }

  /** Destroying a mapping keeps the state well formed. */
  lemma DataDestroyValid(s: State, rd: int, ipa: int, data: int)
    requires Valid(s) && rd in s.realms && InIpaSpace(ipa)
    ensures Valid(AfterDataDestroy(s, rd, ipa, data)) && (Fresh(s) ==> Fresh(AfterDataDestroy(s, rd, ipa, data)))
  {
    var t := SetEntry(s.rtts, rd, 0, RTT_MAX_LEVEL, ipa, Unmapped(PageEntry(s, rd, ipa)));
    var s1 := s;
    if GranuleAt(s, data) == Data {
      Retyped(s, data, Delegated);
      s1 := s.(granules := s.granules[data := Delegated]);
    }
    TablesAdded(s1, t, TableOf(rd, 0, RTT_MAX_LEVEL, ipa), TableOf(rd, 0, RTT_MAX_LEVEL, ipa));
    assert AfterDataDestroy(s, rd, ipa, data) == s1.(rtts := t);
  }

  /**
   * RMI_DATA_DESTROY: the leaf becomes UNASSIGNED, RAM becomes DESTROYED
   * (EMPTY and DESTROYED stay), the data granule is returned delegated.
   * (Only a granule recorded as DATA changes state.)
   */
  method DataDestroy(s: State, rd: int, ipa: int) returns (ok: bool, data: int, top: int, s': State)
    requires Valid(s)
    ensures Valid(s') && (Fresh(s) ==> Fresh(s'))
    ensures ok <==> DataDestroyOk(s, rd, ipa)
    ensures ok ==> data == PageEntry(s, rd, ipa).desc.oa
    ensures s'.platform == s.platform && s'.mem == s.mem && s'.realms == s.realms && s'.recs == s.recs && s'.next == s.next
    ensures s'.granules == if ok then AfterDataDestroy(s, rd, ipa, data).granules else s.granules
    ensures s'.rtts == if ok then AfterDataDestroy(s, rd, ipa, data).rtts else s.rtts
    ensures InIpaSpace(ipa) ==> top == DestroyTop(s', rd, ipa)
  {
    ok := DataDestroyOk(s, rd, ipa);
    data := 0;
    s' := s;
    if ok {
      data := PageEntry(s, rd, ipa).desc.oa;
      DataDestroyValid(s, rd, ipa, data);
      s' := AfterDataDestroy(s, rd, ipa, data);
    }
    top := if InIpaSpace(ipa) then DestroyTop(s', rd, ipa) else 0;
  }

  predicate AuxMapOk(s: State, rd: int, ipa: int, tree: nat)
  {
    LeafIs(s, rd, 0, ipa, Assigned) && s.realms[rd].params.treePerPlane
    && 1 <= tree <= s.realms[rd].params.numAux && LeafIs(s, rd, tree, ipa, Unassigned)
  }

  /** RMI_RTT_AUX_MAP_PROTECTED: a plane's tree mirrors the primary tree's leaf for `ipa`. */
  method RttAuxMapProtected(s: State, rd: int, ipa: int, tree: nat) returns (ok: bool, s': State)
    requires Valid(s)
    ensures Valid(s') && (Fresh(s) ==> Fresh(s'))
    ensures ok <==> AuxMapOk(s, rd, ipa, tree)
    ensures s'.platform == s.platform && s'.granules == s.granules && s'.mem == s.mem && s'.realms == s.realms && s'.recs == s.recs && s'.next == s.next
    ensures s'.rtts == if ok then SetEntry(s.rtts, rd, tree, RTT_MAX_LEVEL, ipa, PageEntry(s, rd, ipa)) else s.rtts
  {
    ok := AuxMapOk(s, rd, ipa, tree);
    s' := s;
    if ok {
      s' := s.(rtts := SetEntry(s.rtts, rd, tree, RTT_MAX_LEVEL, ipa, PageEntry(s, rd, ipa)));
    }
  }

  predicate AuxUnmapOk(s: State, rd: int, ipa: int, tree: nat)
  {
    rd in s.realms && s.realms[rd].params.treePerPlane
    && 1 <= tree <= s.realms[rd].params.numAux && LeafIs(s, rd, tree, ipa, Assigned)
  }

  /** RMI_RTT_AUX_UNMAP_PROTECTED: a plane's tree stops mapping `ipa`. */
  method RttAuxUnmapProtected(s: State, rd: int, ipa: int, tree: nat) returns (ok: bool, s': State)
    requires Valid(s)
    ensures Valid(s') && (Fresh(s) ==> Fresh(s'))
    ensures ok <==> AuxUnmapOk(s, rd, ipa, tree)
    ensures s'.platform == s.platform && s'.granules == s.granules && s'.mem == s.mem && s'.realms == s.realms && s'.recs == s.recs && s'.next == s.next
    ensures s'.rtts == if ok then SetEntry(s.rtts, rd, tree, RTT_MAX_LEVEL, ipa,
                                      Rtte(Unassigned, Entry(s.rtts, rd, tree, RTT_MAX_LEVEL, ipa).ripas, NO_DESC)) else s.rtts
  {
    ok := AuxUnmapOk(s, rd, ipa, tree);
    s' := s;
    if ok {
      s' := s.(rtts := SetEntry(s.rtts, rd, tree, RTT_MAX_LEVEL, ipa,
                                Rtte(Unassigned, Entry(s.rtts, rd, tree, RTT_MAX_LEVEL, ipa).ripas, NO_DESC)));
    }
  }

  // ---------------------------------------------------------------- running RECs

  /** Fetching at `ipa` aborts when the primary tree gives it RIPAS DESTROYED. */
  predicate FetchAborts(s: State, rd: int, ipa: int)
  {
    rd in s.realms && Protected(s.realms[rd], ipa)
    && LeafWalk(s, rd, 0, ipa).entry.ripas == Destroyed
  }

  /** The exit a step produces. */
  function ExitOf(s: State, rd: int, step: RealmStep): RecExit
  {
    match step
    case Exits(e) => e
    case Fetch(ipa, e) => if FetchAborts(s, rd, ipa) then InstAbortExit(ipa) else e
  }

  /** The REC belongs to a realm that SYSTEM_RESET or SYSTEM_OFF switched off. */
  predicate RealmIsOff(s: State, rec: int)
  {
    rec in s.recs && s.recs[rec].owner in s.realms && s.realms[s.recs[rec].owner].state == RealmSystemOff
  }

  predicate EnterOk(s: State, rec: int)
  {
    rec in s.recs && s.recs[rec].owner in s.realms && s.realms[s.recs[rec].owner].state == RealmActive
    && s.recs[rec].runnable && s.recs[rec].psci == NoRequest
  }

  /** The REC record after it left with `exit`. */
  function RecAfter(r: RecRecord, exit: RecExit): RecRecord
  {
    match exit
    case PsciExit(CpuOn, t) => r.(psci := Pending(CpuOn, t))
    case PsciExit(AffinityInfo, t) => r.(psci := Pending(AffinityInfo, t))
    case PsciExit(CpuOff, _) => r.(runnable := false)
    case S2apChangeExit(b, t) => r.(s2ap := S2ap(b, t, 0))
    case _ => r
  }

  /** The realm record after one of its RECs left with `exit`. */
  function RealmAfter(r: Realm, exit: RecExit): Realm
  {
    match exit
    case PsciExit(SystemReset, _) => r.(state := RealmSystemOff)
    case PsciExit(SystemOff, _) => r.(state := RealmSystemOff)
    case _ => r
  }

  /** The state after REC `rec` of realm `rd` left with `exit`. */
  function AfterExit(s: State, rec: int, rd: int, exit: RecExit): State
    requires rec in s.recs && rd in s.realms
  {
    s.(recs := s.recs[rec := RecAfter(s.recs[rec], exit)],
       realms := s.realms[rd := RealmAfter(s.realms[rd], exit)])
  }

  /**
   * RMI_REC_ENTER: the REC runs the realm's next step and the monitor
   * records the exit's effects. A REC of a switched-off realm is refused
   * with (ERROR_REALM, 1).
   */
  method RecEnter(s: State, rec: int, step: RealmStep) returns (r: EnterResult, s': State)
    requires Valid(s)
    ensures Valid(s') && (Fresh(s) ==> Fresh(s'))
    ensures r == RealmOff <==> RealmIsOff(s, rec)
    ensures r.Entered? <==> EnterOk(s, rec)
    ensures r.Entered? ==> r.exit == ExitOf(s, s.recs[rec].owner, step)
    ensures s'.platform == s.platform && s'.granules == s.granules && s'.mem == s.mem && s'.rtts == s.rtts && s'.next == s.next
    ensures s'.recs == if r.Entered? then AfterExit(s, rec, s.recs[rec].owner, r.exit).recs else s.recs
    ensures s'.realms == if r.Entered? then AfterExit(s, rec, s.recs[rec].owner, r.exit).realms else s.realms
  {
    s' := s;
    if RealmIsOff(s, rec) {
      return RealmOff, s;
    }
    if !EnterOk(s, rec) {
      return Refused, s;
    }
    var rd := s.recs[rec].owner;
    var exit := ExitOf(s, rd, step);
    s' := AfterExit(s, rec, rd, exit);
    r := Entered(exit);
  }

  predicate PsciCompleteOk(s: State, calling: int, target: int, status: PsciStatus)
  {
    ValidPa(s.platform, calling) && GranuleAt(s, calling) == Rec && calling in s.recs
    && ValidPa(s.platform, target) && GranuleAt(s, target) == Rec && target in s.recs
    && calling != target
    && s.recs[calling].psci.Pending?
    && s.recs[target].owner == s.recs[calling].owner
    && s.recs[target].mpidr == s.recs[calling].psci.target
    && status == PsciSuccess
  }

  /**
   * RMI_PSCI_COMPLETE: the calling REC's pending request is completed; a
   * successful CPU_ON makes the target REC runnable.
   */
  method PsciComplete(s: State, calling: int, target: int, status: PsciStatus) returns (ok: bool, s': State)
    requires Valid(s)
    ensures Valid(s') && (Fresh(s) ==> Fresh(s'))
    ensures ok <==> PsciCompleteOk(s, calling, target, status)
    ensures s'.platform == s.platform && s'.granules == s.granules && s'.mem == s.mem && s'.realms == s.realms && s'.rtts == s.rtts && s'.next == s.next
    ensures s'.recs == if ok then s.recs[calling := s.recs[calling].(psci := NoRequest)]
                                          [target := s.recs[target].(runnable :=
                                              s.recs[target].runnable || s.recs[calling].psci.fid == CpuOn)] else s.recs
  {
    ok := PsciCompleteOk(s, calling, target, status);
    s' := s;
    if ok {
      s' := s.(recs := s.recs[calling := s.recs[calling].(psci := NoRequest)]
                             [target := s.recs[target].(runnable :=
                                 s.recs[target].runnable || s.recs[calling].psci.fid == CpuOn)]);
    }
  }

  /** Number of trees of a realm: the primary tree, plus one per plane with one tree per plane. */
  function TreeCount(r: Realm): (n: nat)
    ensures n >= 1 && (forall tree: nat :: TreeExists(r, tree) <==> tree < n)
  {
    if r.params.treePerPlane then r.params.numAux + 1 else 1
  }

  /** The walk of tree `tree` for `base` ends at an entry that `base` is aligned to. */
  predicate S2apBaseAligned(s: State, rd: int, tree: nat, base: int)
    requires InIpaSpace(base)
  {
    base % LevelSize(LeafWalk(s, rd, tree, base).level) == 0
  }

  /** A chunk of pages the monitor processes in one call: at least one. */
  type Chunk = n: int | n >= 1 witness 1

  predicate SetS2apOk(s: State, rd: int, rec: int, base: int, top: int)
  {
    rd in s.realms && rec in s.recs && s.recs[rec].owner == rd && s.recs[rec].s2ap.S2ap?
    && base == s.recs[rec].s2ap.base && base < top <= s.recs[rec].s2ap.top
    && base % PAGE_SIZE == 0 && top % PAGE_SIZE == 0
    && InRealm(s.realms[rd], base)
    && s.recs[rec].s2ap.tree < TreeCount(s.realms[rd])
    && S2apBaseAligned(s, rd, s.recs[rec].s2ap.tree, base)
  }

  /**
   * Where one accepted RMI_RTT_SET_S2AP call leaves the request: a call on
   * any tree but the last moves on to the next tree at the same base; a call
   * on the last tree moves the base `pages` pages on (not past `top`) and
   * starts again with the primary tree.
   */
  function S2apAfter(req: S2apRequest, count: nat, top: int, pages: Chunk): (req': S2apRequest)
    requires req.S2ap? && req.tree < count && req.base < top
    ensures req'.S2ap? && req'.top == req.top && req'.tree < count
    ensures req'.base == req.base <==> req.tree + 1 < count
    ensures req.base <= req'.base <= top
    ensures req.tree + 1 < count ==> req'.tree == req.tree + 1
    ensures req.tree + 1 == count ==> req'.tree == 0 && req'.base == (if req.base + pages * PAGE_SIZE < top then req.base + pages * PAGE_SIZE else top)
  {
    if req.tree + 1 < count then req.(tree := req.tree + 1)
    else S2ap(if req.base + pages * PAGE_SIZE < top then req.base + pages * PAGE_SIZE else top, req.top, 0)
  }

  /**
   * RMI_RTT_SET_S2AP over [base, top) for the REC's pending request. How
   * far one call gets is the monitor's choice, given here as `pages`; the
   * returned address is where the next call must start.
   */
  method RttSetS2ap(s: State, rd: int, rec: int, base: int, top: int, pages: Chunk) returns (ok: bool, progress: int, s': State)
    requires Valid(s)
    ensures Valid(s') && (Fresh(s) ==> Fresh(s'))
    ensures ok <==> SetS2apOk(s, rd, rec, base, top)
    ensures ok ==> progress == S2apAfter(s.recs[rec].s2ap, TreeCount(s.realms[rd]), top, pages).base
    ensures s'.platform == s.platform && s'.granules == s.granules && s'.mem == s.mem && s'.realms == s.realms && s'.rtts == s.rtts && s'.next == s.next
    ensures s'.recs == if ok then s.recs[rec := s.recs[rec].(s2ap := S2apAfter(s.recs[rec].s2ap, TreeCount(s.realms[rd]), top, pages))] else s.recs
  {
    ok := SetS2apOk(s, rd, rec, base, top);
    progress := base;
    s' := s;
    if ok {
      var req := S2apAfter(s.recs[rec].s2ap, TreeCount(s.realms[rd]), top, pages);
      progress := req.base;
      s' := s.(recs := s.recs[rec := s.recs[rec].(s2ap := req)]);
    }
  }

  /** DATA_DESTROY's effect on RIPAS: RAM becomes DESTROYED, EMPTY and DESTROYED stay. */
  function AfterDestroy(r: Ripas): (r': Ripas)
    ensures r == Ram ==> r' == Destroyed
    ensures r != Ram ==> r' == r
  {
    if r == Ram then Destroyed else r
  }
}
