/**
 * The DATA_DESTROY command test. A new realm with one ASSIGNED, RAM page
 * is the valid argument; the intents of the table name RDs and IPAs the
 * command must refuse, some of them after a fixture that maps more of the
 * realm's first level 3 table. After the loop the valid page is destroyed
 * (its RIPAS becomes DESTROYED), mapped again with DATA_CREATE_UNKNOWN and
 * destroyed again, and an ASSIGNED, EMPTY page is destroyed (its RIPAS
 * stays EMPTY).
 *
 * The valid realm's first level 3 table, as the test builds it:
 *   0x0000  UNASSIGNED, RAM once RTTE_STATE_UNASSIGNED ran
 *   0x1000  ASSIGNED, RAM: the valid page
 *   0x2000  never mapped
 *   0x3000  ASSIGNED, RAM once RD_STATE_DATA ran
 *   0x4000  ASSIGNED, EMPTY in the last step
 */
module DataDestroyTest {
  import opened RmmTypes
  import opened Rtt
  import opened Monitor
  import opened Host
  import opened Checks

  const IPA_ADDR_UNASSIGNED: int := 0
  const IPA_ADDR_ASSIGNED: int := PAGE_SIZE
  const IPA_ADDR_GAP: int := 2 * PAGE_SIZE
  const IPA_ADDR_DATA: int := 3 * PAGE_SIZE
  const IPA_ADDR_EMPTY: int := 4 * PAGE_SIZE
  /** A protected IPA whose walk stops at level 2: the last level 2 entry of the first 1 GB. */
  const IPA_NOT_MAPPED: int := L1_SIZE - L2_SIZE
  /** An unprotected IPA whose tables the fixture creates; its leaf stays UNASSIGNED. */
  const IPA_UNPROTECTED: int := L0_SIZE + PAGE_SIZE
  /** An unprotected IPA no fixture maps. */
  const IPA_UNPROTECTED_NOT_MAPPED: int := L0_SIZE + L1_SIZE
  /** The first IPA past a 40-bit IPA space. */
  const IPA_OUTSIDE: int := 2 * L0_SIZE
  /** The page the aux-live fixture maps in both trees of its realm. */
  const IPA_AUX_ASSIGNED: int := PAGE_SIZE

  /** The valid realm: 40-bit IPA space walked from level 0, no planes. */
  const NEW_REALM: RealmParams := RealmParams(40, 0, 0, false)
  /** The aux-live realm: one auxiliary plane with its own tree. */
  const AUX_LIVE_REALM: RealmParams := RealmParams(40, 0, 1, true)

  const LOOP_POINTS := Points(2, 3, 4)

  /** RMI_ERROR_RTT as the command returns it: status ERROR_RTT with index 0. */
  const RTT_ERROR: Code := Code(ErrorRtt, 0)

  datatype Intent =
    | RdUnaligned | RdDevMemMmio | RdOutsideOfPermittedPa | RdStateUndelegated | RdStateDelegated
    | RdStateRec | RdStateRtt | RdStateData
    | IpaUnaligned | IpaUnprotected | IpaOutsideOfPermittedIpa | IpaNotMapped | RtteStateUnassigned
    | IpaUnprotectedNotMapped | IpaUnprotectedRtteUnassigned | IpaAuxLive
      /** A label intent_to_seq does not know. */
    | UnknownIntent

  predicate IsRdIntent(intent: Intent)
  {
    intent.RdUnaligned? || intent.RdDevMemMmio? || intent.RdOutsideOfPermittedPa? || intent.RdStateUndelegated?
    || intent.RdStateDelegated? || intent.RdStateRec? || intent.RdStateRtt? || intent.RdStateData?
  }

  /** The argument store, the valid realm's root table and the DATA granule of the valid page. */
  datatype Store = Store(rdValid: int, ipaValid: int, rttL0: int, expData: int)

  /** DATA_DESTROY's arguments. */
  datatype Arguments = Arguments(rd: int, ipa: int)

  // ---------------------------------------------------------------- layout

  /**
   * What the test relies on in the valid realm's primary tree: the leaves
   * at the fixed IPAs, or for the pages at 0 and IPA_ADDR_DATA only their
   * level and state.
   */
  datatype Layout = Layout(
    validPage: Walked, unassignedLevel: int, unassignedState: Hipas, gap: Walked,
    dataLevel: int, dataState: Hipas, empty: Walked, notMapped: Walked)

  ghost function LayoutOf(t: Tables, rd: int): Layout
  {
    Layout(Leaf(t, rd, 0, IPA_ADDR_ASSIGNED),
           Leaf(t, rd, 0, IPA_ADDR_UNASSIGNED).level, Leaf(t, rd, 0, IPA_ADDR_UNASSIGNED).entry.state,
           Leaf(t, rd, 0, IPA_ADDR_GAP),
           Leaf(t, rd, 0, IPA_ADDR_DATA).level, Leaf(t, rd, 0, IPA_ADDR_DATA).entry.state,
           Leaf(t, rd, 0, IPA_ADDR_EMPTY), Leaf(t, rd, 0, IPA_NOT_MAPPED))
  }

  /**
   * The layout of the first level 3 table: the valid page ASSIGNED, RAM
   * with `data`, the page at 0 UNASSIGNED, the gap and the page at
   * IPA_ADDR_EMPTY UNASSIGNED, EMPTY, the page at IPA_ADDR_DATA ASSIGNED
   * exactly when `mapped`, and the walk for IPA_NOT_MAPPED stopping at an
   * UNASSIGNED, EMPTY level 2 entry.
   */
  ghost predicate LaidOut(t: Tables, rd: int, data: int, mapped: bool)
  {
    LayoutOf(t, rd)
      == Layout(Walked(RTT_MAX_LEVEL, Rtte(Assigned, Ram, Desc(data, {}))), RTT_MAX_LEVEL, Unassigned,
                Walked(RTT_MAX_LEVEL, UNASSIGNED_EMPTY), RTT_MAX_LEVEL, if mapped then Assigned else Unassigned,
                Walked(RTT_MAX_LEVEL, UNASSIGNED_EMPTY), Walked(2, UNASSIGNED_EMPTY))
  }

  /** The stored valid realm: new, with the valid parameters and the stored root table. */
  ghost predicate RealmStored(s: State, c: Store)
  {
    c.rdValid in s.realms && s.realms[c.rdValid].params == NEW_REALM && s.realms[c.rdValid].state == RealmNew
    && c.rttL0 == s.realms[c.rdValid].root && c.rttL0 < s.next && GranuleAt(s, c.rttL0) == Rtt
    && c.ipaValid == IPA_ADDR_ASSIGNED
  }

  /** The stored arguments still describe the state: the valid realm, its root table and its layout. */
  ghost predicate StoreHolds(s: State, c: Store, mapped: bool)
  {
    RealmStored(s, c) && LaidOut(s.rtts, c.rdValid, c.expData, mapped)
  }

  /** A page of the first level 2 block other than the valid one: after ipa_valid_prep_sequence it is UNASSIGNED, EMPTY. */
  lemma FreshPage(t0: Tables, t: Tables, rd: int, x: int)
    requires forall id :: id in t0 ==> id.rd != rd
    requires Grows(t0, t, rd, 0, IPA_ADDR_ASSIGNED, false) && Leaf(t, rd, 0, IPA_ADDR_ASSIGNED).level == RTT_MAX_LEVEL
    requires x == 0 || 2 * PAGE_SIZE <= x < L2_SIZE
    ensures Leaf(t, rd, 0, x) == Walked(RTT_MAX_LEVEL, UNASSIGNED_EMPTY)
  {
    LeafWithoutTables(t0, rd, 0, x);
    AlignOffset(0, x, 2);
    AlignOffset(0, IPA_ADDR_ASSIGNED, 2);
    LeafSameTable(t, rd, 0, IPA_ADDR_ASSIGNED, x);
    assert AlignDown(x, 3) != AlignDown(IPA_ADDR_ASSIGNED, 3);
    assert SameLeaf(Leaf(t0, rd, 0, x).entry, Leaf(t, rd, 0, x).entry);
  }

  /** After ipa_valid_prep_sequence in a realm without tables, IPA_NOT_MAPPED stops at an empty level 2 entry. */
  lemma FreshBlock(t0: Tables, t: Tables, rd: int)
    requires forall id :: id in t0 ==> id.rd != rd
    requires Grows(t0, t, rd, 0, IPA_ADDR_ASSIGNED, false) && Leaf(t, rd, 0, IPA_ADDR_ASSIGNED).level == RTT_MAX_LEVEL
    ensures Leaf(t, rd, 0, IPA_NOT_MAPPED) == Walked(2, UNASSIGNED_EMPTY)
  {
    LeafWithoutTables(t0, rd, 0, IPA_NOT_MAPPED);
    AlignOffset(0, IPA_NOT_MAPPED, 1);
    AlignOffset(0, IPA_ADDR_ASSIGNED, 1);
    AlignOffset(IPA_NOT_MAPPED, 0, 2);
    AlignOffset(0, IPA_ADDR_ASSIGNED, 2);
    assert Tbl(t0, TableOf(rd, 0, 2, IPA_NOT_MAPPED)) == EmptyTable();
    assert Entry(t, rd, 0, 2, IPA_NOT_MAPPED).state != Table;
    LeafBeside(t, rd, 0, IPA_ADDR_ASSIGNED, IPA_NOT_MAPPED);
    assert AlignDown(IPA_NOT_MAPPED, 3) != AlignDown(IPA_ADDR_ASSIGNED, 3);
    assert SameLeaf(Leaf(t0, rd, 0, IPA_NOT_MAPPED).entry, Leaf(t, rd, 0, IPA_NOT_MAPPED).entry);
  }

  /** ipa_valid_prep_sequence in a realm without tables establishes the layout, IPA_ADDR_DATA not yet mapped. */
  lemma LaidOutFromScratch(t0: Tables, t: Tables, rd: int, data: int)
    requires forall id :: id in t0 ==> id.rd != rd
    requires Grows(t0, t, rd, 0, IPA_ADDR_ASSIGNED, false)
    requires Leaf(t, rd, 0, IPA_ADDR_ASSIGNED) == Walked(RTT_MAX_LEVEL, Rtte(Assigned, Ram, Desc(data, {})))
    ensures LaidOut(t, rd, data, false)
  {
    FreshPage(t0, t, rd, IPA_ADDR_UNASSIGNED);
    FreshPage(t0, t, rd, IPA_ADDR_GAP);
    FreshPage(t0, t, rd, IPA_ADDR_DATA);
    FreshPage(t0, t, rd, IPA_ADDR_EMPTY);
    FreshBlock(t0, t, rd);
  }

  /** Changes confined to another realm keep the layout. */
  lemma LaidOutOtherRealm(t: Tables, t': Tables, rd: int, other: int, data: int, mapped: bool)
    requires LaidOut(t, rd, data, mapped) && OnlyRealmChanged(t, t', other) && other != rd
    ensures LaidOut(t', rd, data, mapped)
  {
    WalkOtherRealm(t, t', other, rd, 0, IPA_ADDR_ASSIGNED);
    WalkOtherRealm(t, t', other, rd, 0, IPA_ADDR_UNASSIGNED);
    WalkOtherRealm(t, t', other, rd, 0, IPA_ADDR_GAP);
    WalkOtherRealm(t, t', other, rd, 0, IPA_ADDR_DATA);
    WalkOtherRealm(t, t', other, rd, 0, IPA_ADDR_EMPTY);
    WalkOtherRealm(t, t', other, rd, 0, IPA_NOT_MAPPED);
  }

  /** A leaf off the path of the IPA a fixture mapped is untouched. */
  lemma OffPathLeaf(t: Tables, t': Tables, rd: int, ipa: int, x: int, level: int)
    requires InIpaSpace(x) && LeavesOffPathKept(t, t', rd, 0, ipa) && Leaf(t, rd, 0, x).level == level
    requires AlignDown(x, level) != AlignDown(ipa, level)
    ensures Leaf(t', rd, 0, x) == Leaf(t, rd, 0, x)
  {
  }

  /** Mappings built for an IPA beyond the first 1 GB keep the layout. */
  lemma LaidOutFar(t: Tables, t': Tables, rd: int, ipa: int, data: int, mapped: bool)
    requires LaidOut(t, rd, data, mapped) && InIpaSpace(ipa) && ipa >= L1_SIZE
    requires LeavesOffPathKept(t, t', rd, 0, ipa)
    ensures LaidOut(t', rd, data, mapped)
  {
    var a3, a2 := AlignDown(ipa, 3), AlignDown(ipa, 2);
    assert a3 > IPA_ADDR_EMPTY && a2 > IPA_NOT_MAPPED;
    OffPathLeaf(t, t', rd, ipa, IPA_ADDR_ASSIGNED, 3);
    OffPathLeaf(t, t', rd, ipa, IPA_ADDR_UNASSIGNED, 3);
    OffPathLeaf(t, t', rd, ipa, IPA_ADDR_GAP, 3);
    OffPathLeaf(t, t', rd, ipa, IPA_ADDR_DATA, 3);
    OffPathLeaf(t, t', rd, ipa, IPA_ADDR_EMPTY, 3);
    OffPathLeaf(t, t', rd, ipa, IPA_NOT_MAPPED, 2);
  }

  /** RTT_INIT_RIPAS at IPA_ADDR_UNASSIGNED keeps the layout. */
  lemma LaidOutRipasInit(t: Tables, t': Tables, rd: int, data: int, mapped: bool)
    requires LaidOut(t, rd, data, mapped) && LeavesOffPathKept(t, t', rd, 0, IPA_ADDR_UNASSIGNED)
    requires Leaf(t', rd, 0, IPA_ADDR_UNASSIGNED).level == RTT_MAX_LEVEL
    requires Leaf(t', rd, 0, IPA_ADDR_UNASSIGNED).entry.state == Unassigned
    ensures LaidOut(t', rd, data, mapped)
  {
    assert AlignDown(IPA_ADDR_UNASSIGNED, 3) == 0 && AlignDown(IPA_ADDR_UNASSIGNED, 2) == 0;
    OffPathLeaf(t, t', rd, IPA_ADDR_UNASSIGNED, IPA_ADDR_ASSIGNED, 3);
    OffPathLeaf(t, t', rd, IPA_ADDR_UNASSIGNED, IPA_ADDR_GAP, 3);
    OffPathLeaf(t, t', rd, IPA_ADDR_UNASSIGNED, IPA_ADDR_DATA, 3);
    OffPathLeaf(t, t', rd, IPA_ADDR_UNASSIGNED, IPA_ADDR_EMPTY, 3);
    OffPathLeaf(t, t', rd, IPA_ADDR_UNASSIGNED, IPA_NOT_MAPPED, 2);
  }

  /** The RD_STATE_DATA fixture maps IPA_ADDR_DATA and keeps the rest of the layout. */
  lemma LaidOutDataMapped(t: Tables, t': Tables, rd: int, data: int, data': int)
    requires LaidOut(t, rd, data, false) && LeavesOffPathKept(t, t', rd, 0, IPA_ADDR_DATA)
    requires Leaf(t', rd, 0, IPA_ADDR_DATA) == Walked(RTT_MAX_LEVEL, Rtte(Assigned, Ram, Desc(data', {})))
    ensures LaidOut(t', rd, data, true)
  {
    var a3, a2 := AlignDown(IPA_ADDR_DATA, 3), AlignDown(IPA_ADDR_DATA, 2);
    assert IPA_ADDR_GAP < a3 < IPA_ADDR_EMPTY && a2 < IPA_NOT_MAPPED;
    OffPathLeaf(t, t', rd, IPA_ADDR_DATA, IPA_ADDR_ASSIGNED, 3);
    OffPathLeaf(t, t', rd, IPA_ADDR_DATA, IPA_ADDR_UNASSIGNED, 3);
    OffPathLeaf(t, t', rd, IPA_ADDR_DATA, IPA_ADDR_GAP, 3);
    OffPathLeaf(t, t', rd, IPA_ADDR_DATA, IPA_ADDR_EMPTY, 3);
    OffPathLeaf(t, t', rd, IPA_ADDR_DATA, IPA_NOT_MAPPED, 2);
  }

  // ---------------------------------------------------------------- top

  /** The level 3 table of the first 2 MB: page `i` sits at position `i`. */
  lemma FirstTableSlot(i: int)
    requires 0 <= i < RTT_ENTRIES
    ensures TableOf(0, 0, RTT_MAX_LEVEL, i * PAGE_SIZE).base == 0 && Index(i * PAGE_SIZE, RTT_MAX_LEVEL) == i
  {
    AlignOffset(0, i * PAGE_SIZE, 2);
    IndexCancel(Index(i * PAGE_SIZE, RTT_MAX_LEVEL), i, RTT_MAX_LEVEL);
  }

  /** The entry for page `i` of the first 2 MB is the leaf of that page when its walk reaches level 3. */
  lemma FirstTableEntry(t: Tables, rd: int, i: int)
    requires 0 <= i < RTT_ENTRIES && Leaf(t, rd, 0, i * PAGE_SIZE).level == RTT_MAX_LEVEL
    ensures Tbl(t, TableId(rd, 0, RTT_MAX_LEVEL, 0))[i] == Leaf(t, rd, 0, i * PAGE_SIZE).entry
  {
    FirstTableSlot(i);
  }

  /** In the first level 3 table, `top` for page `i` is the IPA of the first live entry from position `i` on. */
  lemma TopInFirstTable(t: Tables, rd: int, i: int)
    requires 0 <= i < RTT_ENTRIES
    ensures NextLive(t, rd, 0, RTT_MAX_LEVEL, i * PAGE_SIZE)
         == FirstLive(Tbl(t, TableId(rd, 0, RTT_MAX_LEVEL, 0)), i) * PAGE_SIZE
  {
    FirstTableSlot(i);
  }

  /** The walk for IPA_NOT_MAPPED stops at the last entry of its level 2 table, so `top` is the end of that table: 1 GB. */
  lemma TopNotMapped(t: Tables, rd: int, data: int, mapped: bool)
    requires LaidOut(t, rd, data, mapped)
    ensures NextLive(t, rd, 0, Leaf(t, rd, 0, IPA_NOT_MAPPED).level, IPA_NOT_MAPPED) == L1_SIZE
  {
    AlignOffset(0, IPA_NOT_MAPPED, 1);
    var tbl := Tbl(t, TableOf(rd, 0, 2, IPA_NOT_MAPPED));
    assert Index(IPA_NOT_MAPPED, 2) == 511;
    assert !Live(tbl[511]);
  }

  /** The walk for IPA_ADDR_UNASSIGNED reaches an UNASSIGNED entry; the next live one is the valid page at PAGE_SIZE. */
  lemma TopUnassigned(t: Tables, rd: int, data: int, mapped: bool)
    requires LaidOut(t, rd, data, mapped)
    ensures NextLive(t, rd, 0, Leaf(t, rd, 0, IPA_ADDR_UNASSIGNED).level, IPA_ADDR_UNASSIGNED) == PAGE_SIZE
  {
    var tbl := Tbl(t, TableId(rd, 0, RTT_MAX_LEVEL, 0));
    TopInFirstTable(t, rd, 0);
    FirstTableEntry(t, rd, 0);
    FirstTableEntry(t, rd, 1);
    assert FirstLive(tbl, 0) == 1;
  }

  /** The valid page's table after DATA_DESTROY: that entry and the next are not live; IPA_ADDR_DATA's is live exactly when mapped. */
  lemma TableAfterValidDestroy(t: Tables, rd: int, data: int, mapped: bool, e: Rtte)
    requires LaidOut(t, rd, data, mapped) && e.state == Unassigned
    ensures var tbl := Tbl(SetEntry(t, rd, 0, RTT_MAX_LEVEL, IPA_ADDR_ASSIGNED, e), TableId(rd, 0, RTT_MAX_LEVEL, 0));
            !Live(tbl[1]) && !Live(tbl[2]) && (Live(tbl[3]) <==> mapped)
  {
    FirstTableSlot(1);
    FirstTableEntry(t, rd, 2);
    FirstTableEntry(t, rd, 3);
  }

  /**
   * Destroying the valid page: its walk still reaches level 3, and the
   * next live entry after it is IPA_ADDR_DATA exactly when that page is
   * mapped.
   */
  lemma TopAfterValidDestroy(t: Tables, rd: int, data: int, mapped: bool, e: Rtte)
    requires LaidOut(t, rd, data, mapped) && e.state == Unassigned
    ensures var t' := SetEntry(t, rd, 0, RTT_MAX_LEVEL, IPA_ADDR_ASSIGNED, e);
            Leaf(t', rd, 0, IPA_ADDR_ASSIGNED) == Walked(RTT_MAX_LEVEL, e)
            && (NextLive(t', rd, 0, RTT_MAX_LEVEL, IPA_ADDR_ASSIGNED) == IPA_ADDR_DATA <==> mapped)
  {
    var t' := SetEntry(t, rd, 0, RTT_MAX_LEVEL, IPA_ADDR_ASSIGNED, e);
    LeafAfterSet(t, rd, 0, IPA_ADDR_ASSIGNED, e, IPA_ADDR_ASSIGNED);
    TableAfterValidDestroy(t, rd, data, mapped, e);
    TopInFirstTable(t', rd, 1);
    var tbl' := Tbl(t', TableId(rd, 0, RTT_MAX_LEVEL, 0));
    assert FirstLive(tbl', 1) == FirstLive(tbl', 3);
    assert FirstLive(tbl', 3) == 3 <==> mapped;
  }

  // ---------------------------------------------------------------- intent_to_seq

  /** A fixture that leaves the realms and the tables alone keeps the stored arguments. */
  lemma StoreKept(s: State, s': State, c: Store, mapped: bool)
    requires StoreHolds(s, c, mapped) && Keeps(s, s') && s'.realms == s.realms && s'.rtts == s.rtts
    ensures StoreHolds(s', c, mapped)
  {
  }

  /** A fixture that leaves the realms alone and keeps a layout keeps the stored arguments. */
  lemma StoreMoved(s: State, s': State, c: Store, mapped: bool, mapped': bool)
    requires StoreHolds(s, c, mapped) && Keeps(s, s') && s'.realms == s.realms
    requires LaidOut(s'.rtts, c.rdValid, c.expData, mapped')
    ensures StoreHolds(s', c, mapped')
  {
  }

  /** A fixture that adds a realm and keeps the valid realm's layout keeps the stored arguments. */
  lemma StoreBeside(s: State, s': State, c: Store, mapped: bool)
    requires StoreHolds(s, c, mapped) && Keeps(s, s')
    requires c.rdValid in s'.realms && s'.realms[c.rdValid] == s.realms[c.rdValid]
    requires LaidOut(s'.rtts, c.rdValid, c.expData, mapped)
    ensures StoreHolds(s', c, mapped)
  {
  }

  /**
   * The RD intents that need no fixture: an address that is not an RD
   * granule. The unaligned, device and out-of-range addresses are no
   * tracked granule at all; the root table is an RTT granule.
   */
  method RdWithoutFixture(s: State, c: Store, mapped: bool, intent: Intent) returns (rd: int)
    requires Valid(s) && StoreHolds(s, c, mapped)
    requires intent.RdUnaligned? || intent.RdDevMemMmio? || intent.RdOutsideOfPermittedPa? || intent.RdStateRtt?
    ensures rd !in s.realms
    ensures intent == RdUnaligned ==> rd == Unaligned(c.rdValid)
    ensures intent == RdDevMemMmio ==> rd == DevMem(s.platform)
    ensures intent == RdOutsideOfPermittedPa ==> rd == OutsidePa(s.platform)
    ensures intent == RdStateRtt ==> rd == c.rttL0 && GranuleAt(s, rd) == Rtt
  {
    if intent == RdUnaligned {
      assert c.rdValid in s.granules;
      rd := Unaligned(c.rdValid);
    } else if intent == RdDevMemMmio {
      rd := DevMem(s.platform);
    } else if intent == RdOutsideOfPermittedPa {
      rd := OutsidePa(s.platform);
    } else {
      return c.rttL0;
    }
    UntrackedNotRealm(s, rd);
  }

  /**
   * The RD intents whose fixture makes a granule of the named state: a new
   * undelegated or delegated granule, or a REC of the valid realm. When
   * g_rec_ready_prep_sequence fails the test goes on with its failure
   * sentinel as the RD; the model passes the allocator's mark there, an
   * address no granule occupies.
   */
  method RdGranule(s: State, c: Store, mapped: bool, intent: Intent) returns (prep: Prep<int>, s': State)
    requires Valid(s) && Fresh(s) && StoreHolds(s, c, mapped)
    requires intent.RdStateUndelegated? || intent.RdStateDelegated? || intent.RdStateRec?
    ensures Keeps(s, s') && s'.realms == s.realms && s'.rtts == s.rtts
    ensures prep != PrepSkip && (prep.Args? ==> prep.args !in s'.realms)
    ensures prep == PrepError ==> intent != RdStateRec
    ensures intent == RdStateUndelegated && prep.Args? ==> GranuleAt(s', prep.args) == Undelegated
    ensures intent == RdStateDelegated && prep.Args? ==> GranuleAt(s', prep.args) == Delegated
    ensures intent == RdStateRec ==> prep.Args? && (Room(s) >= RecCost(s.platform) ==> GranuleAt(s', prep.args) == Rec)
    ensures intent != RdStateRec && Room(s) >= PAGE_SIZE ==> prep.Args?
  {
    UntrackedNotRealm(s, s.next);
    if intent == RdStateRec {
      var ok, recs;
      ok, recs, s' := RecCreateCommon(s, c.rdValid, 1, AllRunnable);
      prep := if ok then Args(recs[0]) else Args(s.next);
    } else {
      var ok, pa;
      if intent == RdStateUndelegated {
        ok, pa, s' := NewGranule(s);
      } else {
        ok, pa, s' := DelegatedGranule(s);
      }
      prep := if ok then Args(pa) else PrepError;
    }
  }

  /** RD_STATE_DATA: a DATA granule mapped at IPA_ADDR_DATA of the valid realm, which the layout then records. */
  method RdData(s: State, c: Store, mapped: bool) returns (prep: Prep<int>, s': State)
    requires Valid(s) && Fresh(s) && StoreHolds(s, c, mapped)
    ensures Keeps(s, s') && s'.realms == s.realms
    ensures prep != PrepSkip
    ensures prep.Args? ==> prep.args !in s'.realms && GranuleAt(s', prep.args) == Data && StoreHolds(s', c, true)
    ensures !mapped && Room(s) >= DATA_PREP_COST ==> prep.Args?
  {
    var ok, data;
    Ipa40(s.realms[c.rdValid]);
    if !mapped {
      ModUnique(IPA_ADDR_DATA, RTT_MAX_LEVEL, 3, 0);
      assert RipasInitOk(s, c.rdValid, IPA_ADDR_DATA);
    }
    ok, data, s' := DataPrep(s, c.rdValid, IPA_ADDR_DATA);
    if !ok {
      return PrepError, s';
    }
    UntrackedNotRealm(s, data);
    LaidOutDataMapped(s.rtts, s'.rtts, c.rdValid, c.expData, data);
    StoreMoved(s, s', c, mapped, true);
    prep := Args(data);
  }

  /** The RD intents of intent_to_seq: an address DATA_DESTROY does not take as an RD, with the valid IPA. */
  method RdPrep(s: State, c: Store, mapped: bool, intent: Intent) returns (prep: Prep<int>, s': State)
    requires Valid(s) && Fresh(s) && StoreHolds(s, c, mapped) && IsRdIntent(intent)
    ensures Keeps(s, s') && s'.realms == s.realms
    ensures prep.Args? ==> prep.args !in s'.realms && StoreHolds(s', c, mapped || intent == RdStateData)
    ensures prep != PrepSkip
  {
    if intent == RdStateData {
      prep, s' := RdData(s, c, mapped);
    } else if intent.RdStateUndelegated? || intent.RdStateDelegated? || intent.RdStateRec? {
      prep, s' := RdGranule(s, c, mapped, intent);
      StoreKept(s, s', c, mapped);
    } else {
      var rd := RdWithoutFixture(s, c, mapped, intent);
      prep, s' := Args(rd), s;
      KeptUnchanged(s, s);
    }
  }

  /**
   * The IPA intents that need no fixture: an unaligned IPA, one past the
   * realm's IPA space, the protected IPA whose walk stops at level 2, and
   * an unprotected IPA no fixture maps.
   */
  method IpaWithoutFixture(s: State, c: Store, mapped: bool, intent: Intent) returns (ipa: int)
    requires Valid(s) && StoreHolds(s, c, mapped)
    requires intent.IpaUnaligned? || intent.IpaOutsideOfPermittedIpa? || intent.IpaNotMapped? || intent.IpaUnprotectedNotMapped?
    ensures !DataDestroyOk(s, c.rdValid, ipa)
    ensures intent == IpaUnaligned ==> ipa == Unaligned(c.ipaValid) && ipa % PAGE_SIZE != 0
    ensures intent == IpaOutsideOfPermittedIpa ==> ipa == IPA_OUTSIDE && !InRealm(s.realms[c.rdValid], ipa)
    ensures intent == IpaNotMapped ==> ipa == IPA_NOT_MAPPED && LeafWalk(s, c.rdValid, 0, ipa).level == 2
    ensures intent == IpaUnprotectedNotMapped ==> ipa == IPA_UNPROTECTED_NOT_MAPPED && Unprotected(s.realms[c.rdValid], ipa)
  {
    Ipa40(s.realms[c.rdValid]);
    if intent == IpaUnaligned {
      ipa := Unaligned(c.ipaValid);
    } else if intent == IpaOutsideOfPermittedIpa {
      ipa := IPA_OUTSIDE;
    } else if intent == IpaNotMapped {
      ipa := IPA_NOT_MAPPED;
    } else {
      ipa := IPA_UNPROTECTED_NOT_MAPPED;
    }
  }

  /**
   * ipa_unprotected_unassigned_prep_sequence: the tables down to level 3
   * for IPA_UNPROTECTED, whose leaf it leaves UNASSIGNED. It fails only
   * when memory for the tables runs out, and keeps the layout.
   */
  method IpaUnprotectedPrep(s: State, c: Store, mapped: bool) returns (prep: Prep<int>, s': State)
    requires Valid(s) && Fresh(s) && StoreHolds(s, c, mapped)
    ensures Keeps(s, s') && s'.realms == s.realms
    ensures prep != PrepSkip
    ensures prep.Args? ==> prep.args == IPA_UNPROTECTED && Unprotected(s'.realms[c.rdValid], IPA_UNPROTECTED)
    ensures prep.Args? ==> LeafWalk(s', c.rdValid, 0, IPA_UNPROTECTED).level == RTT_MAX_LEVEL
    ensures prep.Args? ==> !DataDestroyOk(s', c.rdValid, prep.args) && StoreHolds(s', c, mapped)
    ensures Room(s) >= TABLES_COST ==> prep.Args?
  {
    var ok;
    Ipa40(s.realms[c.rdValid]);
    assert TablesOk(s, c.rdValid, 0, IPA_UNPROTECTED);
    ok, s' := CreateMapping(s, c.rdValid, IPA_UNPROTECTED, false);
    if !ok {
      return PrepError, s';
    }
    LaidOutFar(s.rtts, s'.rtts, c.rdValid, IPA_UNPROTECTED, c.expData, mapped);
    StoreMoved(s, s', c, mapped, mapped);
    assert !Protected(s'.realms[c.rdValid], IPA_UNPROTECTED);
    prep := Args(IPA_UNPROTECTED);
  }

  /**
   * ipa_protected_unassigned_ram_prep_sequence: RIPAS RAM for the
   * unassigned page at IPA_ADDR_UNASSIGNED, whose tables the valid
   * sequence created; it cannot fail, and keeps the layout.
   */
  method RipasRamPrep(s: State, c: Store, mapped: bool) returns (s': State)
    requires Valid(s) && Fresh(s) && StoreHolds(s, c, mapped)
    ensures Keeps(s, s') && s'.realms == s.realms && StoreHolds(s', c, mapped)
    ensures LeafWalk(s', c.rdValid, 0, IPA_ADDR_UNASSIGNED).entry.state == Unassigned
    ensures LeafWalk(s', c.rdValid, 0, IPA_ADDR_UNASSIGNED).entry.ripas == Ram
    ensures !DataDestroyOk(s', c.rdValid, IPA_ADDR_UNASSIGNED)
  {
    var ok;
    Ipa40(s.realms[c.rdValid]);
    ModUnique(IPA_ADDR_UNASSIGNED, RTT_MAX_LEVEL, 0, 0);
    assert TablesOk(s, c.rdValid, 0, IPA_ADDR_UNASSIGNED);
    assert RipasInitOk(s, c.rdValid, IPA_ADDR_UNASSIGNED);
    ok, s' := CreateMapping(s, c.rdValid, IPA_ADDR_UNASSIGNED, true);
    LaidOutRipasInit(s.rtts, s'.rtts, c.rdValid, c.expData, mapped);
    StoreMoved(s, s', c, mapped, mapped);
  }

  /** The IPA intents of intent_to_seq but IPA_AUX_LIVE: an IPA of the valid realm DATA_DESTROY refuses. */
  method IpaPrep(s: State, c: Store, mapped: bool, intent: Intent) returns (prep: Prep<int>, s': State)
    requires Valid(s) && Fresh(s) && StoreHolds(s, c, mapped)
    requires !IsRdIntent(intent) && !intent.IpaAuxLive? && !intent.UnknownIntent?
    ensures Keeps(s, s') && s'.realms == s.realms
    ensures prep.Args? ==> !DataDestroyOk(s', c.rdValid, prep.args) && StoreHolds(s', c, mapped)
    ensures prep != PrepSkip
    ensures intent == IpaNotMapped ==> prep == Args(IPA_NOT_MAPPED)
    ensures intent == RtteStateUnassigned ==> prep == Args(IPA_ADDR_UNASSIGNED)
  {
    if intent.IpaUnprotected? || intent.IpaUnprotectedRtteUnassigned? {
      prep, s' := IpaUnprotectedPrep(s, c, mapped);
    } else if intent == RtteStateUnassigned {
      s' := RipasRamPrep(s, c, mapped);
      prep := Args(IPA_ADDR_UNASSIGNED);
    } else {
      var ipa := IpaWithoutFixture(s, c, mapped, intent);
      prep, s' := Args(ipa), s;
      KeptUnchanged(s, s);
    }
  }

  /**
   * IPA_AUX_LIVE: when the platform has planes and a tree per plane, a new
   * realm with one auxiliary plane, and a page mapped ASSIGNED at
   * IPA_AUX_ASSIGNED in both of its trees; VAL_SKIP_CHECK otherwise. The
   * fixture touches only the new realm's tables.
   */
  method AuxLivePrep(s: State) returns (prep: Prep<Arguments>, other: int, s': State)
    requires Valid(s) && Fresh(s)
    ensures Keeps(s, s') && other !in s.realms
    ensures forall rd :: rd in s.realms ==> rd in s'.realms && s'.realms[rd] == s.realms[rd]
    ensures OnlyRealmChanged(s.rtts, s'.rtts, other)
    ensures prep == PrepSkip <==> !(s.platform.treePerPlane && s.platform.planes)
    ensures prep == PrepSkip ==> s' == s
    ensures prep.Args? ==> prep.args == Arguments(other, IPA_AUX_ASSIGNED) && other in s'.realms
    ensures prep.Args? ==> LeafIs(s', other, 0, IPA_AUX_ASSIGNED, Assigned) && AuxLive(s', other, IPA_AUX_ASSIGNED)
    ensures (s.platform.treePerPlane && s.platform.planes && Room(s) >= RealmCost(AUX_LIVE_REALM) + AUX_DATA_COST)
            ==> prep.Args?
  {
    other, s' := s.next, s;
    KeptUnchanged(s, s);
    UntrackedNotRealm(s, s.next);
    if !(s.platform.treePerPlane && s.platform.planes) {
      return PrepSkip, other, s';
    }
    var ok, rd, root, aux, s1 := RealmCreateCommon(s, AUX_LIVE_REALM);
    s' := s1;
    if !ok {
      return PrepError, other, s';
    }
    other := rd;
    LeafWithoutTables(s1.rtts, rd, 1, IPA_AUX_ASSIGNED);
    LeafWithoutTables(s1.rtts, rd, 0, IPA_AUX_ASSIGNED);
    Ipa40(s1.realms[rd]);
    var s2;
    ok, s2 := AuxMappedData(s1, rd, IPA_AUX_ASSIGNED, 1);
    KeepsTrans(s, s1, s2);
    s' := s2;
    prep := if ok then Args(Arguments(rd, IPA_AUX_ASSIGNED)) else PrepError;
  }

  /** IPA_AUX_LIVE with the aux-live realm's RD: the fixture keeps the valid realm and its layout. */
  method AuxLiveIntent(s: State, c: Store, mapped: bool) returns (prep: Prep<Arguments>, s': State)
    requires Valid(s) && Fresh(s) && StoreHolds(s, c, mapped)
    ensures Keeps(s, s')
    ensures prep.Args? ==> !DataDestroyOk(s', prep.args.rd, prep.args.ipa) && prep.args.rd != c.rdValid
    ensures prep != PrepError ==> StoreHolds(s', c, mapped)
    ensures prep == PrepSkip <==> !(s.platform.treePerPlane && s.platform.planes)
  {
    var other;
    prep, other, s' := AuxLivePrep(s);
    if prep != PrepError {
      LaidOutOtherRealm(s.rtts, s'.rtts, c.rdValid, other, c.expData, mapped);
      StoreBeside(s, s', c, mapped);
    }
  }

  /** The intents that name an IPA, and the label intent_to_seq does not know. */
  method IpaIntent(s: State, c: Store, mapped: bool, intent: Intent) returns (prep: Prep<Arguments>, s': State)
    requires Valid(s) && Fresh(s) && StoreHolds(s, c, mapped) && !IsRdIntent(intent)
    ensures Keeps(s, s')
    ensures prep.Args? ==> !DataDestroyOk(s', prep.args.rd, prep.args.ipa)
    ensures prep != PrepError ==> StoreHolds(s', c, mapped)
    ensures prep == PrepSkip <==> intent == IpaAuxLive && !(s.platform.treePerPlane && s.platform.planes)
    ensures intent == UnknownIntent ==> prep == PrepError
    ensures intent == IpaNotMapped ==> prep == Args(Arguments(c.rdValid, IPA_NOT_MAPPED))
    ensures intent == RtteStateUnassigned ==> prep == Args(Arguments(c.rdValid, IPA_ADDR_UNASSIGNED))
  {
    if intent == IpaAuxLive {
      prep, s' := AuxLiveIntent(s, c, mapped);
    } else if intent == UnknownIntent {
      prep, s' := PrepError, s;
      KeptUnchanged(s, s);
    } else {
      var p;
      p, s' := IpaPrep(s, c, mapped, intent);
      prep := if p.Args? then Args(Arguments(c.rdValid, p.args)) else PrepError;
    }
  }

  /** The RD intents with the valid IPA: arguments DATA_DESTROY refuses, since the RD is no realm. */
  method RdIntent(s: State, c: Store, mapped: bool, intent: Intent) returns (prep: Prep<Arguments>, s': State)
    requires Valid(s) && Fresh(s) && StoreHolds(s, c, mapped) && IsRdIntent(intent)
    ensures Keeps(s, s')
    ensures prep.Args? ==> !DataDestroyOk(s', prep.args.rd, prep.args.ipa)
    ensures prep != PrepError ==> StoreHolds(s', c, mapped || intent == RdStateData)
    ensures prep != PrepSkip
  {
    var p;
    p, s' := RdPrep(s, c, mapped, intent);
    prep := if p.Args? then Args(Arguments(p.args, c.ipaValid)) else PrepError;
  }

  /**
   * The `top` intent_to_seq leaves the round expecting: IPA_NOT_MAPPED and
   * RTTE_STATE_UNASSIGNED set it, every other intent leaves it as it was.
   */
  function ExpectedTop(intent: Intent, expTop: int): int
  {
    if intent.IpaNotMapped? then L1_SIZE else if intent.RtteStateUnassigned? then PAGE_SIZE else expTop
  }

  /**
   * intent_to_seq: the arguments each intent stands for, with the fixture
   * it needs (the `top` it expects is ExpectedTop). Every pair of
   * arguments it produces is one DATA_DESTROY refuses.
   */
  method IntentToSeq(s: State, c: Store, mapped: bool, intent: Intent) returns (prep: Prep<Arguments>, s': State)
    requires Valid(s) && Fresh(s) && StoreHolds(s, c, mapped)
    ensures Keeps(s, s')
    ensures prep.Args? ==> !DataDestroyOk(s', prep.args.rd, prep.args.ipa)
    ensures prep != PrepError ==> StoreHolds(s', c, mapped || intent == RdStateData)
    ensures prep == PrepSkip <==> intent == IpaAuxLive && !(s.platform.treePerPlane && s.platform.planes)
    ensures intent == UnknownIntent ==> prep == PrepError
    ensures intent == IpaNotMapped ==> prep == Args(Arguments(c.rdValid, IPA_NOT_MAPPED))
    ensures intent == RtteStateUnassigned ==> prep == Args(Arguments(c.rdValid, IPA_ADDR_UNASSIGNED))
  {
    if IsRdIntent(intent) {
      prep, s' := RdIntent(s, c, mapped, intent);
    } else {
      prep, s' := IpaIntent(s, c, mapped, intent);
    }
  }

  /**
   * One round of the check loop: prepare, DATA_DESTROY, and what the driver
   * saw. A round that gets RMI_ERROR_RTT also compares the `top` output
   * with the one the round expects; only the two intents that set that
   * expectation reach the walk far enough to report it, and for them the
   * output matches.
   */
  method CheckRound(s: State, c: Store, mapped: bool, st: Stimulus<Intent>, refusal: ErrorCode, expTop: int)
    returns (o: Outcome, top: int, expTop': int, s': State)
    requires Valid(s) && Fresh(s) && StoreHolds(s, c, mapped)
    ensures Keeps(s, s')
    ensures o != PrepFailed ==> StoreHolds(s', c, mapped || st.intent == RdStateData)
    ensures o == Skipped <==> st.intent == IpaAuxLive && !(s.platform.treePerPlane && s.platform.planes)
    ensures st.intent == UnknownIntent ==> o == PrepFailed
    ensures (o.Got? || o.BadOutput?) ==> o.code == refusal && (o.BadOutput? <==> refusal == RTT_ERROR && top != expTop')
    ensures st.intent == IpaNotMapped ==> o == Got(refusal) && top == expTop' == L1_SIZE
    ensures st.intent == RtteStateUnassigned ==> o == Got(refusal) && top == expTop' == PAGE_SIZE
    ensures !st.intent.IpaNotMapped? && !st.intent.RtteStateUnassigned? ==> expTop' == expTop
  {
    var prep, s1;
    prep, s1 := IntentToSeq(s, c, mapped, st.intent);
    s', top, expTop' := s1, 0, ExpectedTop(st.intent, expTop);
    if prep == PrepSkip {
      return Skipped, top, expTop', s';
    } else if prep == PrepError {
      return PrepFailed, top, expTop', s';
    }
    var ok, data;
    ok, data, top, s' := DataDestroy(s1, prep.args.rd, prep.args.ipa);
    assert s' == s1;
    if st.intent == IpaNotMapped {
      TopNotMapped(s1.rtts, c.rdValid, c.expData, mapped);
    } else if st.intent == RtteStateUnassigned {
      TopUnassigned(s1.rtts, c.rdValid, c.expData, mapped);
    }
    var code := Returned(ok, refusal);
    o := if code == RTT_ERROR && top != expTop' then BadOutput(code) else Got(code);
  }

  /** Whether a round of the rounds `outs` ran the RD_STATE_DATA fixture, which maps IPA_ADDR_DATA. */
  function DataMapped(outs: seq<Outcome>, table: seq<Stimulus<Intent>>): (m: bool)
    requires |outs| <= |table|
    ensures m <==> exists i :: 0 <= i < |outs| && table[i].intent == RdStateData && outs[i] != PrepFailed
  {
    if |outs| == 0 then false
    else
      var k := |outs| - 1;
      var before := DataMapped(outs[..k], table);
      assert forall i :: 0 <= i < k ==> outs[..k][i] == outs[i];
      before || (table[k].intent == RdStateData && outs[k] != PrepFailed)
  }

  lemma DataMappedNext(outs: seq<Outcome>, o: Outcome, table: seq<Stimulus<Intent>>)
    requires |outs| < |table|
    ensures DataMapped(outs + [o], table) == (DataMapped(outs, table) || (table[|outs|].intent == RdStateData && o != PrepFailed))
  {
    assert (outs + [o])[..|outs|] == outs;
  }

  /** What a round of the loop can have seen, given the refusal the monitor would give and whether the aux fixture is skipped. */
  predicate RoundSaw(o: Outcome, refusal: ErrorCode, intent: Intent, auxSkips: bool)
  {
    ((o.Got? || o.BadOutput?) ==> o.code == refusal)
    && (o.BadOutput? ==> refusal == RTT_ERROR && !intent.IpaNotMapped? && !intent.RtteStateUnassigned?)
    && (o.Skipped? <==> intent.IpaAuxLive? && auxSkips)
  }

  /** What the rounds `outs` of the loop over `table` have seen, given the refusals the monitor gives. */
  ghost predicate RoundsSaw(outs: seq<Outcome>, table: seq<Stimulus<Intent>>, refusals: seq<ErrorCode>, auxSkips: bool)
    requires |outs| <= |table| == |refusals|
  {
    forall i :: 0 <= i < |outs| ==> RoundSaw(outs[i], refusals[i], table[i].intent, auxSkips)
  }

  lemma RoundsSawNext(outs: seq<Outcome>, o: Outcome, table: seq<Stimulus<Intent>>, refusals: seq<ErrorCode>, auxSkips: bool)
    requires |outs| < |table| == |refusals|
    requires RoundsSaw(outs, table, refusals, auxSkips) && RoundSaw(o, refusals[|outs|], table[|outs|].intent, auxSkips)
    ensures RoundsSaw(outs + [o], table, refusals, auxSkips)
  {
    assert forall i :: 0 <= i < |outs| ==> (outs + [o])[i] == outs[i];
  }

  /** One more round of the check loop, appended to the rounds before it. */
  method CheckNext(s: State, c: Store, mapped: bool, table: seq<Stimulus<Intent>>, refusals: seq<ErrorCode>,
                   outs: seq<Outcome>, expTop: int)
    returns (outs': seq<Outcome>, mapped': bool, expTop': int, s': State)
    requires |outs| < |table| == |refusals| && mapped == DataMapped(outs, table)
    requires Valid(s) && Fresh(s) && StoreHolds(s, c, mapped) && LoopStop(outs, table, LOOP_POINTS) == None
    requires RoundsSaw(outs, table, refusals, !(s.platform.treePerPlane && s.platform.planes))
    ensures Keeps(s, s') && |outs'| == |outs| + 1 && mapped' == DataMapped(outs', table)
    ensures LoopStop(outs', table, LOOP_POINTS) == None ==> StoreHolds(s', c, mapped')
    ensures RoundsSaw(outs', table, refusals, !(s.platform.treePerPlane && s.platform.planes))
  {
    var k := |outs|;
    var o, top;
    o, top, expTop', s' := CheckRound(s, c, mapped, table[k], refusals[k], expTop);
    LoopStopNext(outs, o, table, LOOP_POINTS);
    DataMappedNext(outs, o, table);
    mapped' := mapped || (table[k].intent.RdStateData? && o != PrepFailed);
    outs' := outs + [o];
    RoundsSawNext(outs, o, table, refusals, !(s.platform.treePerPlane && s.platform.planes));
  }

  /**
   * The check loop: one round per stimulus until a preparation fails
   * (point 2), a code differs from the expected one (point 3) or an
   * RMI_ERROR_RTT round reports another `top` than expected (point 4). The
   * expected `top` carries over from round to round, as the test's global
   * does.
   */
  method CheckLoop(s: State, c: Store, table: seq<Stimulus<Intent>>, refusals: seq<ErrorCode>)
    returns (stop: Option<int>, outs: seq<Outcome>, s': State)
    requires Valid(s) && Fresh(s) && StoreHolds(s, c, false) && |refusals| == |table|
    ensures Keeps(s, s')
    ensures |outs| <= |table| && stop == LoopStop(outs, table, LOOP_POINTS)
    ensures stop == None ==> |outs| == |table| && StoreHolds(s', c, DataMapped(outs, table))
    ensures RoundsSaw(outs, table, refusals, !(s.platform.treePerPlane && s.platform.planes))
  {
    var expTop := 0;
    var mapped := false;
    outs, s', stop := [], s, None;
    KeptUnchanged(s, s);
    while |outs| < |table| && stop == None
      invariant |outs| <= |table| && mapped == DataMapped(outs, table)
      invariant Keeps(s, s') && (stop == None ==> StoreHolds(s', c, mapped))
      invariant stop == LoopStop(outs, table, LOOP_POINTS)
      invariant RoundsSaw(outs, table, refusals, !(s.platform.treePerPlane && s.platform.planes))
    {
      var s1;
      outs, mapped, expTop, s1 := CheckNext(s', c, mapped, table, refusals, outs, expTop);
      KeepsTrans(s, s', s1);
      s' := s1;
      stop := LoopStop(outs, table, LOOP_POINTS);
    }
  }

  /**
   * Point 4 is reached only at a round whose expected code is itself
   * RMI_ERROR_RTT, which the monitor returned, and never at IPA_NOT_MAPPED
   * or RTTE_STATE_UNASSIGNED.
   */
  lemma TopStopOnlyOnRttError(outs: seq<Outcome>, table: seq<Stimulus<Intent>>, refusals: seq<ErrorCode>, auxSkips: bool)
    requires |outs| <= |table| == |refusals|
    requires RoundsSaw(outs, table, refusals, auxSkips)
    requires LoopStop(outs, table, LOOP_POINTS) == Some(4)
    ensures exists k :: 0 <= k < |outs| && refusals[k] == RTT_ERROR && table[k].expected == RTT_ERROR
                        && !table[k].intent.IpaNotMapped? && !table[k].intent.RtteStateUnassigned?
  {
    LoopStopFirst(outs, table, LOOP_POINTS);
    var k :| 0 <= k < |outs| && RoundStop(outs[k], table[k].expected, LOOP_POINTS) == Some(4);
    assert RoundSaw(outs[k], refusals[k], table[k].intent, auxSkips);
  }

  // ---------------------------------------------------------------- positive observability

  /** An UNASSIGNED entry whose RAM contents were destroyed. */
  const UNASSIGNED_DESTROYED := Rtte(Unassigned, Destroyed, NO_DESC)

  /**
   * The valid realm after its valid page was destroyed: the page's leaf
   * is UNASSIGNED, DESTROYED, and the page at 0x4000 still UNASSIGNED,
   * EMPTY, both in the level 3 table.
   */
  ghost predicate AfterValid(s: State, rd: int)
  {
    rd in s.realms && s.realms[rd].params == NEW_REALM && s.realms[rd].state == RealmNew
    && Leaf(s.rtts, rd, 0, IPA_ADDR_ASSIGNED) == Walked(RTT_MAX_LEVEL, UNASSIGNED_DESTROYED)
    && Leaf(s.rtts, rd, 0, IPA_ADDR_EMPTY) == Walked(RTT_MAX_LEVEL, UNASSIGNED_EMPTY)
  }

  /**
   * What destroying the valid page does to the layout: the page held the
   * stored data granule, its leaf becomes UNASSIGNED, DESTROYED, 0x4000
   * keeps its leaf, and the next live entry is IPA_ADDR_DATA exactly when
   * that page is mapped.
   */
  lemma ValidPageDestroyed(t: Tables, rd: int, data: int, mapped: bool)
    requires LaidOut(t, rd, data, mapped)
    ensures Entry(t, rd, 0, RTT_MAX_LEVEL, IPA_ADDR_ASSIGNED) == Rtte(Assigned, Ram, Desc(data, {}))
    ensures var t' := SetEntry(t, rd, 0, RTT_MAX_LEVEL, IPA_ADDR_ASSIGNED, Unmapped(Entry(t, rd, 0, RTT_MAX_LEVEL, IPA_ADDR_ASSIGNED)));
            Leaf(t', rd, 0, IPA_ADDR_ASSIGNED) == Walked(RTT_MAX_LEVEL, UNASSIGNED_DESTROYED)
            && Leaf(t', rd, 0, IPA_ADDR_EMPTY) == Walked(RTT_MAX_LEVEL, UNASSIGNED_EMPTY)
            && (NextLive(t', rd, 0, RTT_MAX_LEVEL, IPA_ADDR_ASSIGNED) == IPA_ADDR_DATA <==> mapped)
  {
    var e := Unmapped(Entry(t, rd, 0, RTT_MAX_LEVEL, IPA_ADDR_ASSIGNED));
    TopAfterValidDestroy(t, rd, data, mapped, e);
    LeafAfterSet(t, rd, 0, IPA_ADDR_ASSIGNED, e, IPA_ADDR_EMPTY);
  }

  /**
   * valid_input_args_prep_sequence: a new realm (point 1 when it cannot be
   * created) and the valid page, mapped ASSIGNED, RAM from a fresh data
   * granule.
   */
  method PrepareStore(s: State) returns (point: Option<int>, c: Store, s': State)
    requires Valid(s) && Fresh(s)
    ensures Keeps(s, s')
    ensures point == None || point == Some(1)
    ensures point == None ==> StoreHolds(s', c, false)
    ensures Room(s) >= RealmCost(NEW_REALM) + DATA_PREP_COST ==> point == None
  {
    var ok, rd, root, aux, s1 := RealmCreateCommon(s, NEW_REALM);
    c, s' := Store(rd, IPA_ADDR_ASSIGNED, root, 0), s1;
    if !ok {
      return Some(1), c, s';
    }
    Ipa40(s1.realms[rd]);
    ModUnique(IPA_ADDR_ASSIGNED, RTT_MAX_LEVEL, 1, 0);
    assert forall id :: id in s1.rtts ==> id.rd != rd;
    LeafWithoutTables(s1.rtts, rd, 0, IPA_ADDR_ASSIGNED);
    assert RipasInitOk(s1, rd, IPA_ADDR_ASSIGNED);
    var data, s2;
    ok, data, s2 := DataPrep(s1, rd, IPA_ADDR_ASSIGNED);
    KeepsTrans(s, s1, s2);
    c, s' := Store(rd, IPA_ADDR_ASSIGNED, root, data), s2;
    if !ok {
      return Some(1), c, s';
    }
    LaidOutFromScratch(s1.rtts, s2.rtts, rd, data);
    point := None;
  }

  /**
   * A READ_ENTRY check of the test: the level 3 entry at `ipa` must be
   * readable (point `pRead` otherwise) and UNASSIGNED with RIPAS `ripas`
   * (point `pState` otherwise).
   */
  method ReadUnassigned(s: State, rd: int, ipa: int, ripas: Ripas, pRead: int, pState: int) returns (point: Option<int>)
    requires Valid(s)
    ensures point == None || point == Some(pRead) || point == Some(pState)
    ensures !ReadOk(s, rd, ipa, RTT_MAX_LEVEL) ==> point == Some(pRead)
    ensures ReadOk(s, rd, ipa, RTT_MAX_LEVEL) ==>
              (point == None <==> Leaf(s.rtts, rd, 0, ipa).entry.state == Unassigned && Leaf(s.rtts, rd, 0, ipa).entry.ripas == ripas)
  {
    var ok, read := RttReadEntry(s, rd, ipa, RTT_MAX_LEVEL);
    point := if !ok then Some(pRead) else if read.state != Unassigned || read.ripas != ripas then Some(pState) else None;
  }

  /**
   * DATA_DESTROY of the valid page: it succeeds, reports the stored data
   * granule, and reports IPA_ADDR_DATA as `top` exactly when that page is
   * mapped; the page is left UNASSIGNED, DESTROYED.
   */
  method DestroyValidPage(s: State, c: Store, mapped: bool) returns (ok: bool, data: int, top: int, s': State)
    requires Valid(s) && Fresh(s) && StoreHolds(s, c, mapped)
    ensures Valid(s') && Fresh(s') && s'.platform == s.platform && s'.next == s.next && s'.realms == s.realms
    ensures ok && data == c.expData && (top == IPA_ADDR_DATA <==> mapped)
    ensures AfterValid(s', c.rdValid)
  {
    Ipa40(s.realms[c.rdValid]);
    ModUnique(IPA_ADDR_ASSIGNED, RTT_MAX_LEVEL, 1, 0);
    ValidPageDestroyed(s.rtts, c.rdValid, c.expData, mapped);
    assert DataDestroyOk(s, c.rdValid, IPA_ADDR_ASSIGNED);
    ok, data, top, s' := DataDestroy(s, c.rdValid, IPA_ADDR_ASSIGNED);
  }

  /**
   * Points 5 to 8: DATA_DESTROY of the valid page must succeed (point 5),
   * report the data granule and IPA_ADDR_DATA as `top` (point 6), and
   * READ_ENTRY must then show the page UNASSIGNED, DESTROYED (points 7
   * and 8). Only point 6 can fail: when IPA_ADDR_DATA was never mapped.
   */
  method ValidDestroy(s: State, c: Store, mapped: bool) returns (point: Option<int>, s': State)
    requires Valid(s) && Fresh(s) && StoreHolds(s, c, mapped)
    ensures Valid(s') && Fresh(s') && s'.platform == s.platform && s'.next == s.next && s'.realms == s.realms
    ensures point == if mapped then None else Some(6)
    ensures AfterValid(s', c.rdValid)
  {
    Ipa40(s.realms[c.rdValid]);
    var ok, data, top;
    ok, data, top, s' := DestroyValidPage(s, c, mapped);
    if !ok {
      point := Some(5);
    } else if data != c.expData || top != IPA_ADDR_DATA {
      point := Some(6);
    } else {
      point := ReadUnassigned(s', c.rdValid, IPA_ADDR_ASSIGNED, Destroyed, 7, 8);
    }
  }

  /** Setting the valid page's leaf keeps the leaf at 0x4000, which shares its level 3 table. */
  lemma ValidPageSet(t: Tables, rd: int, e: Rtte)
    requires Leaf(t, rd, 0, IPA_ADDR_ASSIGNED).level == RTT_MAX_LEVEL
    requires Leaf(t, rd, 0, IPA_ADDR_EMPTY) == Walked(RTT_MAX_LEVEL, UNASSIGNED_EMPTY)
    ensures Entry(t, rd, 0, RTT_MAX_LEVEL, IPA_ADDR_ASSIGNED) == Leaf(t, rd, 0, IPA_ADDR_ASSIGNED).entry
    ensures var t' := SetEntry(t, rd, 0, RTT_MAX_LEVEL, IPA_ADDR_ASSIGNED, e);
            Leaf(t', rd, 0, IPA_ADDR_ASSIGNED) == Walked(RTT_MAX_LEVEL, e)
            && Leaf(t', rd, 0, IPA_ADDR_EMPTY) == Walked(RTT_MAX_LEVEL, UNASSIGNED_EMPTY)
  {
    LeafAfterSet(t, rd, 0, IPA_ADDR_ASSIGNED, e, IPA_ADDR_ASSIGNED);
    LeafAfterSet(t, rd, 0, IPA_ADDR_ASSIGNED, e, IPA_ADDR_EMPTY);
  }

  /** Setting the leaf at 0x4000, which the walk reaches at level 3. */
  lemma EmptyPageSet(t: Tables, rd: int, e: Rtte)
    requires Leaf(t, rd, 0, IPA_ADDR_EMPTY).level == RTT_MAX_LEVEL
    ensures Entry(t, rd, 0, RTT_MAX_LEVEL, IPA_ADDR_EMPTY) == Leaf(t, rd, 0, IPA_ADDR_EMPTY).entry
    ensures Leaf(SetEntry(t, rd, 0, RTT_MAX_LEVEL, IPA_ADDR_EMPTY, e), rd, 0, IPA_ADDR_EMPTY) == Walked(RTT_MAX_LEVEL, e)
  {
    LeafAfterSet(t, rd, 0, IPA_ADDR_EMPTY, e, IPA_ADDR_EMPTY);
  }

  /**
   * Points 9 and 10: a fresh delegated granule (point 9 when there is
   * none), mapped at the destroyed valid page by DATA_CREATE_UNKNOWN, which
   * accepts it; the page becomes ASSIGNED and keeps RIPAS DESTROYED.
   */
  method RemapPage(s: State, rd: int) returns (point: Option<int>, s': State)
    requires Valid(s) && Fresh(s) && AfterValid(s, rd)
    ensures Valid(s') && Fresh(s') && s'.platform == s.platform && s'.realms == s.realms
    ensures s.next <= s'.next <= s.next + PAGE_SIZE
    ensures point == if Room(s) >= PAGE_SIZE then None else Some(9)
    ensures point == None ==>
              (exists data :: Leaf(s'.rtts, rd, 0, IPA_ADDR_ASSIGNED) == Walked(RTT_MAX_LEVEL, Rtte(Assigned, Destroyed, Desc(data, {}))))
              && Leaf(s'.rtts, rd, 0, IPA_ADDR_EMPTY) == Walked(RTT_MAX_LEVEL, UNASSIGNED_EMPTY)
  {
    var ok, data, s1 := DelegatedGranule(s);
    s' := s1;
    if !ok {
      return Some(9), s';
    }
    Ipa40(s1.realms[rd]);
    ModUnique(IPA_ADDR_ASSIGNED, RTT_MAX_LEVEL, 1, 0);
    ValidPageSet(s1.rtts, rd, Mapped(UNASSIGNED_DESTROYED, data));
    assert DataCreateUnknownOk(s1, rd, data, IPA_ADDR_ASSIGNED);
    ok, s' := DataCreateUnknown(s1, rd, data, IPA_ADDR_ASSIGNED);
    point := if ok then None else Some(10);
  }

  /**
   * Points 11 to 13: DATA_DESTROY of the remapped page succeeds and
   * READ_ENTRY shows it UNASSIGNED, DESTROYED again.
   */
  method DestroyRemapped(s: State, rd: int) returns (point: Option<int>, s': State)
    requires Valid(s) && Fresh(s) && rd in s.realms && s.realms[rd].params == NEW_REALM && s.realms[rd].state == RealmNew
    requires exists data :: Leaf(s.rtts, rd, 0, IPA_ADDR_ASSIGNED) == Walked(RTT_MAX_LEVEL, Rtte(Assigned, Destroyed, Desc(data, {})))
    requires Leaf(s.rtts, rd, 0, IPA_ADDR_EMPTY) == Walked(RTT_MAX_LEVEL, UNASSIGNED_EMPTY)
    ensures Valid(s') && Fresh(s') && s'.platform == s.platform && s'.realms == s.realms && s'.next == s.next
    ensures point == None && AfterValid(s', rd)
  {
    Ipa40(s.realms[rd]);
    ModUnique(IPA_ADDR_ASSIGNED, RTT_MAX_LEVEL, 1, 0);
    ValidPageSet(s.rtts, rd, UNASSIGNED_DESTROYED);
    assert DataDestroyOk(s, rd, IPA_ADDR_ASSIGNED);
    var ok, data, top;
    ok, data, top, s' := DataDestroy(s, rd, IPA_ADDR_ASSIGNED);
    if !ok {
      point := Some(11);
    } else {
      point := ReadUnassigned(s', rd, IPA_ADDR_ASSIGNED, Destroyed, 12, 13);
    }
  }

  /**
   * Points 14 and 16 before the last destroy: 0x4000 is readable, the
   * assigned-empty fixture maps it ASSIGNED, EMPTY (point 14 when it
   * cannot allocate its granules), and it is readable again.
   */
  method MapEmptyPage(s: State, rd: int) returns (point: Option<int>, s': State)
    requires Valid(s) && Fresh(s) && AfterValid(s, rd)
    ensures Valid(s') && Fresh(s') && s'.platform == s.platform && s'.realms == s.realms && s.next <= s'.next
    ensures point == if Room(s) >= 2 * PAGE_SIZE then None else Some(14)
    ensures point == None ==>
              exists data :: Leaf(s'.rtts, rd, 0, IPA_ADDR_EMPTY) == Walked(RTT_MAX_LEVEL, Rtte(Assigned, Empty, Desc(data, {})))
  {
    Ipa40(s.realms[rd]);
    ModUnique(IPA_ADDR_EMPTY, RTT_MAX_LEVEL, 4, 0);
    var okr, read := RttReadEntry(s, rd, IPA_ADDR_EMPTY, RTT_MAX_LEVEL);
    s' := s;
    if !okr {
      return Some(16), s';
    }
    assert DataCreateReady(s, rd, IPA_ADDR_EMPTY);
    var ok, data;
    ok, data, s' := CreateData(s, rd, IPA_ADDR_EMPTY);
    if !ok {
      return Some(14), s';
    }
    assert Leaf(s'.rtts, rd, 0, IPA_ADDR_EMPTY) == Walked(RTT_MAX_LEVEL, Rtte(Assigned, Empty, Desc(data, {})));
    okr, read := RttReadEntry(s', rd, IPA_ADDR_EMPTY, RTT_MAX_LEVEL);
    point := if okr then None else Some(16);
  }

  /**
   * Points 15 to 17: DATA_DESTROY of the ASSIGNED, EMPTY page succeeds and
   * READ_ENTRY shows it UNASSIGNED with its RIPAS still EMPTY.
   */
  method DestroyEmptyPage(s: State, rd: int) returns (point: Option<int>, s': State)
    requires Valid(s) && Fresh(s) && rd in s.realms && s.realms[rd].params == NEW_REALM
    requires exists data :: Leaf(s.rtts, rd, 0, IPA_ADDR_EMPTY) == Walked(RTT_MAX_LEVEL, Rtte(Assigned, Empty, Desc(data, {})))
    ensures Valid(s') && Fresh(s') && s'.platform == s.platform && s'.realms == s.realms && s'.next == s.next
    ensures point == None
    ensures Leaf(s'.rtts, rd, 0, IPA_ADDR_EMPTY) == Walked(RTT_MAX_LEVEL, UNASSIGNED_EMPTY)
  {
    Ipa40(s.realms[rd]);
    ModUnique(IPA_ADDR_EMPTY, RTT_MAX_LEVEL, 4, 0);
    EmptyPageSet(s.rtts, rd, UNASSIGNED_EMPTY);
    assert DataDestroyOk(s, rd, IPA_ADDR_EMPTY);
    var ok, data, top;
    ok, data, top, s' := DataDestroy(s, rd, IPA_ADDR_EMPTY);
    if !ok {
      point := Some(15);
    } else {
      point := ReadUnassigned(s', rd, IPA_ADDR_EMPTY, Empty, 16, 17);
    }
  }

  /**
   * Points 5 to 17 after the loop. Against a conforming monitor only three
   * can fail: point 6 exactly when IPA_ADDR_DATA was not mapped, and points
   * 9 and 14 when the host runs out of granules.
   */
  method PositiveChecks(s: State, c: Store, mapped: bool) returns (point: Option<int>, s': State)
    requires Valid(s) && Fresh(s) && StoreHolds(s, c, mapped)
    ensures Valid(s') && Fresh(s') && s'.platform == s.platform
    ensures point == None || point == Some(6) || point == Some(9) || point == Some(14)
    ensures point == Some(6) <==> !mapped
    ensures mapped && Room(s) >= 3 * PAGE_SIZE ==> point == None
  {
    point, s' := ValidDestroy(s, c, mapped);
    if point == None {
      var s1 := s';
      point, s' := RemapPage(s1, c.rdValid);
      if point == None {
        var s2 := s';
        point, s' := DestroyRemapped(s2, c.rdValid);
        point, s' := MapEmptyPage(s', c.rdValid);
        if point == None {
          point, s' := DestroyEmptyPage(s', c.rdValid);
        }
      }
    }
  }

  /**
   * The test: point 1 when the valid arguments cannot be prepared, then
   * the check loop over `table` (whose refusals the monitor gives as
   * `refusals`), then the positive checks. A loop that stops gives its
   * failure point; a loop that runs through fails the positive checks at
   * point 6 exactly when no RD_STATE_DATA round mapped IPA_ADDR_DATA.
   */
  method DataDestroyHost(s: State, table: seq<Stimulus<Intent>>, refusals: seq<ErrorCode>)
    returns (v: Verdict, outs: seq<Outcome>, s': State)
    requires Valid(s) && Fresh(s) && |refusals| == |table|
    ensures Valid(s') && Fresh(s') && s'.platform == s.platform
    ensures v in {Pass, Fail(1), Fail(2), Fail(3), Fail(4), Fail(6), Fail(9), Fail(14)}
    ensures Room(s) >= RealmCost(NEW_REALM) + DATA_PREP_COST ==> v != Fail(1)
    ensures v != Fail(1) ==> |outs| <= |table| && RoundsSaw(outs, table, refusals, !(s.platform.treePerPlane && s.platform.planes))
    ensures v != Fail(1) && LoopStop(outs, table, LOOP_POINTS).Some? ==> v == Fail(LoopStop(outs, table, LOOP_POINTS).value)
    ensures v != Fail(1) && LoopStop(outs, table, LOOP_POINTS).None? ==>
              |outs| == |table| && (v == Fail(6) <==> !DataMapped(outs, table))
    ensures v == Fail(4) ==>
              exists k :: 0 <= k < |outs| && refusals[k] == RTT_ERROR && table[k].expected == RTT_ERROR
                          && !table[k].intent.IpaNotMapped? && !table[k].intent.RtteStateUnassigned?
  {
    var point, c, s1 := PrepareStore(s);
    outs, s' := [], s1;
    if point.Some? {
      return Fail(1), outs, s';
    }
    var stop, s2;
    stop, outs, s2 := CheckLoop(s1, c, table, refusals);
    s' := s2;
    if stop.Some? {
      if stop == Some(4) {
        TopStopOnlyOnRttError(outs, table, refusals, !(s.platform.treePerPlane && s.platform.planes));
      }
      return Fail(stop.value), outs, s';
    }
    point, s' := PositiveChecks(s2, c, DataMapped(outs, table));
    v := if point.Some? then Fail(point.value) else Pass;
  }
}
