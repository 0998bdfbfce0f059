/**
 * The GRANULE_UNDELEGATE command test. A delegated granule is the valid
 * argument and a new realm provides the invalid ones; every intent of the
 * table names a granule the command must refuse. Then the valid granule is
 * undelegated twice (accepted, then refused), and a DATA granule made from
 * a page of 0x0a bytes is destroyed and undelegated: its contents must no
 * longer equal the source page.
 */
module GranuleUndelegateTest {
  import opened RmmTypes
  import opened Rtt
  import opened Monitor
  import opened Host
  import opened Checks

  const IPA_ADDR_DATA: int := 4 * PAGE_SIZE
  const IPA_ADDR_DATA1: int := 6 * PAGE_SIZE

  /** The realm the invalid arguments come from: 40-bit IPA space, walked from level 0. */
  const NEW_REALM: RealmParams := RealmParams(40, 0, 0, false)

  /** The check loop fails at point 3 whether the preparation or the command goes wrong; it checks no output. */
  const LOOP_POINTS := Points(3, 3, 3)

  datatype Intent =
    | AddrUnaligned | AddrDevMemMmio | AddrOutsideOfPermittedPa | AddrUndelegated
    | AddrRec | AddrData | AddrRtt | AddrRd
      /** A label intent_to_seq does not know. */
    | UnknownIntent

  /** The argument stores: the valid address, and the new realm's RD and root table. */
  datatype Store = Store(addrValid: int, rd: int, rttL0: int)

  /** The stored arguments still describe the state: a delegated granule, and a new realm with its root table. */
  ghost predicate StoreHolds(s: State, c: Store)
  {
    c.addrValid < s.next && ValidPa(s.platform, c.addrValid) && GranuleAt(s, c.addrValid) == Delegated
    && c.rd in s.realms && s.realms[c.rd].params == NEW_REALM && s.realms[c.rd].state == RealmNew
    && c.rttL0 == s.realms[c.rd].root && c.rttL0 < s.next && GranuleAt(s, c.rttL0) == Rtt
  }

  /** Fixtures that keep the realms keep the stored arguments. */
  lemma StoreKept(s: State, s': State, c: Store)
    requires StoreHolds(s, c) && Keeps(s, s') && s'.realms == s.realms
    ensures StoreHolds(s', c)
  {
  }

  /** The argument stores, filled by the valid and the invalid preparation sequences. */
  method PrepareStore(s: State) returns (point: Option<int>, c: Store, s': State)
    requires Valid(s) && Fresh(s)
    ensures Keeps(s, s')
    ensures point == None ==> StoreHolds(s', c)
    ensures point == None || point == Some(1) || point == Some(2)
    ensures Room(s) >= PAGE_SIZE + RealmCost(NEW_REALM) ==> point == None
  {
    var ok, addr, s1 := DelegatedGranule(s);
    c, s' := Store(addr, 0, 0), s1;
    if !ok {
      return Some(1), c, s';
    }
    var rd, root, aux;
    ok, rd, root, aux, s' := RealmCreateCommon(s1, NEW_REALM);
    KeepsTrans(s, s1, s');
    if !ok {
      return Some(2), c, s';
    }
    c := Store(addr, rd, root);
    point := None;
  }

  /**
   * intent_to_seq: the address each intent stands for, with the fixture it
   * needs. Every address it produces is one GRANULE_UNDELEGATE refuses.
   */
  method IntentToSeq(s: State, c: Store, intent: Intent) returns (prep: Prep<int>, s': State)
    requires Valid(s) && Fresh(s) && StoreHolds(s, c)
    ensures Keeps(s, s') && s'.realms == s.realms
    ensures prep.Args? ==> !UndelegateOk(s', prep.args)
    ensures intent == AddrUnaligned ==> prep == Args(Unaligned(c.addrValid))
    ensures intent == AddrDevMemMmio ==> prep == Args(DevMem(s.platform))
    ensures intent == AddrOutsideOfPermittedPa ==> prep == Args(OutsidePa(s.platform))
    ensures intent == AddrUndelegated && prep.Args? ==> GranuleAt(s', prep.args) == Undelegated
    ensures intent == AddrRec && prep.Args? ==> GranuleAt(s', prep.args) == Rec && prep.args in s'.recs && s'.recs[prep.args].owner == c.rd
    ensures intent == AddrData && prep.Args? ==> GranuleAt(s', prep.args) == Data
    ensures intent == AddrRtt ==> prep == Args(c.rttL0)
    ensures intent == AddrRd ==> prep == Args(c.rd)
    ensures prep != PrepSkip
    ensures prep == PrepError ==> intent in {AddrUndelegated, AddrRec, AddrData, UnknownIntent}
    ensures intent == UnknownIntent ==> prep == PrepError
    ensures intent == AddrUndelegated && Room(s) >= PAGE_SIZE ==> prep.Args?
    ensures intent == AddrRec && Room(s) >= RecCost(s.platform) ==> prep.Args?
  {
    s' := s;
    KeptUnchanged(s, s);
    match intent
    case AddrUnaligned =>
      prep := Args(Unaligned(c.addrValid));
    case AddrDevMemMmio =>
      prep := Args(DevMem(s.platform));
    case AddrOutsideOfPermittedPa =>
      prep := Args(OutsidePa(s.platform));
    case AddrUndelegated =>
      var ok, pa;
      ok, pa, s' := NewGranule(s);
      prep := if ok then Args(pa) else PrepError;
    case AddrRec =>
      var ok, recs;
      ok, recs, s' := RecCreateCommon(s, c.rd, 1, AllRunnable);
      prep := if ok then Args(recs[0]) else PrepError;
    case AddrData =>
      var ok, data;
      ok, data, s' := DataPrep(s, c.rd, IPA_ADDR_DATA);
      prep := if ok then Args(data) else PrepError;
    case AddrRtt =>
      prep := Args(c.rttL0);
    case AddrRd =>
      prep := Args(c.rd);
    case UnknownIntent =>
      prep := PrepError;
  }

  /** One round of the check loop: prepare, GRANULE_UNDELEGATE, and what the driver saw. */
  method CheckRound(s: State, c: Store, st: Stimulus<Intent>, refusal: ErrorCode) returns (o: Outcome, s': State)
    requires Valid(s) && Fresh(s) && StoreHolds(s, c)
    ensures Keeps(s, s') && s'.realms == s.realms && StoreHolds(s', c)
    ensures o == PrepFailed || o == Got(refusal)
    ensures o == PrepFailed ==> st.intent in {AddrUndelegated, AddrRec, AddrData, UnknownIntent}
    ensures st.intent == UnknownIntent ==> o == PrepFailed
  {
    var prep, s1 := IntentToSeq(s, c, st.intent);
    StoreKept(s, s1, c);
    s' := s1;
    if prep.PrepError? {
      return PrepFailed, s';
    }
    var ok;
    ok, s' := GranuleUndelegate(s1, prep.args);
    KeptUnchanged(s1, s');
    o := Got(Returned(ok, refusal));
  }

  /**
   * The check loop: one round per stimulus until a preparation fails or a
   * code differs from the expected one, both failure point 3. Every
   * command of the loop is refused, so every round that gets as far as the
   * command sees the monitor's error code.
   */
  method CheckLoop(s: State, c: Store, table: seq<Stimulus<Intent>>, refusals: seq<ErrorCode>)
    returns (stop: Option<int>, outs: seq<Outcome>, s': State)
    requires Valid(s) && Fresh(s) && StoreHolds(s, c) && |refusals| == |table|
    ensures Keeps(s, s') && s'.realms == s.realms && StoreHolds(s', c)
    ensures |outs| <= |table| && stop == LoopStop(outs, table, LOOP_POINTS)
    ensures stop == None ==> |outs| == |table|
    ensures forall i :: 0 <= i < |outs| ==> outs[i] == PrepFailed || outs[i] == Got(refusals[i])
  {
    outs, s', stop := [], s, None;
    KeptUnchanged(s, s);
    while |outs| < |table|
      invariant Keeps(s, s') && s'.realms == s.realms && StoreHolds(s', c)
      invariant |outs| <= |table| && stop == LoopStop(outs, table, LOOP_POINTS) == None
      invariant forall i :: 0 <= i < |outs| ==> outs[i] == PrepFailed || outs[i] == Got(refusals[i])
    {
      var o, s1 := CheckRound(s', c, table[|outs|], refusals[|outs|]);
      KeepsTrans(s, s', s1);
      LoopStopNext(outs, o, table, LOOP_POINTS);
      outs, s' := outs + [o], s1;
      stop := LoopStop(outs, table, LOOP_POINTS);
      if stop.Some? {
        return;
      }
    }
  }

  /** A loop whose table expects the monitor's own error codes stops only where a preparation failed. */
  lemma LoopStopsOnlyOnPrep(outs: seq<Outcome>, table: seq<Stimulus<Intent>>, refusals: seq<ErrorCode>)
    requires |outs| <= |table| == |refusals|
    requires forall i :: 0 <= i < |outs| ==> outs[i] == PrepFailed || outs[i] == Got(refusals[i])
    requires forall i :: 0 <= i < |table| ==> table[i].expected == refusals[i]
    requires PrepFailed !in outs
    ensures LoopStop(outs, table, LOOP_POINTS) == None
  {
    forall i | 0 <= i < |outs|
      ensures RoundStop(outs[i], table[i].expected, LOOP_POINTS) == None
    {
      assert outs[i] in outs;
    }
    LoopStopNoneIff(outs, table, LOOP_POINTS);
  }

  /** Undelegating the valid granule succeeds; undelegating it again fails (points 5 and 6 never fail). */
  method Observability(s: State, c: Store) returns (first: bool, second: bool, s': State)
    requires Valid(s) && Fresh(s) && StoreHolds(s, c)
    ensures Valid(s') && Fresh(s') && s'.platform == s.platform && s'.next == s.next && s'.realms == s.realms
    ensures first && !second
    ensures GranuleAt(s', c.addrValid) == Undelegated && ContentOf(s'.mem, c.addrValid) == FilledPage(0)
  {
    first, s' := GranuleUndelegate(s, c.addrValid);
    var s2;
    second, s2 := GranuleUndelegate(s', c.addrValid);
  }

  /** The source page the wipe sequence fills, and what it reads back from a wiped granule. */
  lemma FilledPagesDiffer()
    ensures FilledPage(0x0a) != FilledPage(0)
  {
    assert FilledPage(0x0a)[0] != FilledPage(0)[0];
  }

  /**
   * DATA_CREATE at IPA_ADDR_DATA1 of a fresh delegated granule from a
   * fresh host page filled with 0x0a; the page addresses are used whether
   * or not the allocator could provide them, so a failed allocation shows
   * as a refused DATA_CREATE.
   */
  method FilledData(s: State, rd: int) returns (ok: bool, data: int, src: int, s': State)
    requires Valid(s) && Fresh(s)
    ensures Valid(s') && s'.platform == s.platform && s'.realms == s.realms
    ensures ok ==> data != src && s.next <= data && s.next <= src
    ensures ok ==> ValidPa(s.platform, src) && GranuleAt(s', src) == Undelegated && ContentOf(s'.mem, src) == FilledPage(0x0a)
    ensures ok ==> GranuleAt(s', data) == Data && InIpaSpace(IPA_ADDR_DATA1)
    ensures ok ==> LeafIs(s', rd, 0, IPA_ADDR_DATA1, Assigned) && PageEntry(s', rd, IPA_ADDR_DATA1).desc.oa == data
    ensures DataCreateReady(s, rd, IPA_ADDR_DATA1) && Room(s) >= 2 * PAGE_SIZE ==> ok
  {
    var okd, s1, oks, s2, s3;
    okd, data, s1 := DelegatedGranule(s);
    oks, src, s2 := NewGranule(s1);
    ok, s3 := HostFill(s2, src, 0x0a);
    ok, s' := DataCreate(s3, rd, data, IPA_ADDR_DATA1, src);
    if ok {
      var e := Mapped(PageEntry(s3, rd, IPA_ADDR_DATA1), data);
      SetGrows(s3.rtts, rd, 0, IPA_ADDR_DATA1, e);
      EntryAfterSet(s3.rtts, rd, 0, RTT_MAX_LEVEL, IPA_ADDR_DATA1, e, rd, 0, RTT_MAX_LEVEL, IPA_ADDR_DATA1);
    }
  }

  /** DATA_DESTROY of the mapping FilledData made: it succeeds and returns the granule to Delegated (point 9). */
  method DestroyMapping(s: State, rd: int, data: int, src: int) returns (ok: bool, s': State)
    requires Valid(s) && rd in s.realms && !s.realms[rd].params.treePerPlane && data != src && InIpaSpace(IPA_ADDR_DATA1)
    requires ValidPa(s.platform, src) && GranuleAt(s, src) == Undelegated && ContentOf(s.mem, src) == FilledPage(0x0a)
    requires GranuleAt(s, data) == Data && LeafIs(s, rd, 0, IPA_ADDR_DATA1, Assigned) && PageEntry(s, rd, IPA_ADDR_DATA1).desc.oa == data
    ensures ok && Valid(s')
    ensures ValidPa(s'.platform, data) && GranuleAt(s', data) == Delegated
    ensures ValidPa(s'.platform, src) && GranuleAt(s', src) == Undelegated && ContentOf(s'.mem, src) == FilledPage(0x0a)
  {
    var out, top;
    assert DataDestroyOk(s, rd, IPA_ADDR_DATA1);
    ok, out, top, s' := DataDestroy(s, rd, IPA_ADDR_DATA1);
    assert s'.granules == s.granules[data := Delegated];
  }

  /**
   * GRANULE_UNDELEGATE of the destroyed data granule and the comparison
   * with the source page: neither fails (points 10 and 11), because
   * undelegating wipes the granule.
   */
  method UndelegateAndCompare(s: State, data: int, src: int) returns (point: Option<int>, s': State)
    requires Valid(s) && data != src
    requires ValidPa(s.platform, data) && GranuleAt(s, data) == Delegated
    requires ValidPa(s.platform, src) && GranuleAt(s, src) == Undelegated && ContentOf(s.mem, src) == FilledPage(0x0a)
    ensures point == None
    ensures GranuleAt(s', data) == Undelegated && ContentOf(s'.mem, data) == FilledPage(0)
  {
    var ok;
    ok, s' := GranuleUndelegate(s, data);
    if !ok {
      return Some(10), s';
    }
    var okc, same := HostCompare(s', src, data);
    FilledPagesDiffer();
    if !okc || same {
      return Some(11), s';
    }
    point := None;
  }

  /** The destroy, undelegate and compare steps of the wipe sequence (points 9 to 11): none of them fails. */
  method DestroyAndCompare(s: State, rd: int, data: int, src: int) returns (point: Option<int>, s': State)
    requires Valid(s) && rd in s.realms && !s.realms[rd].params.treePerPlane && data != src && InIpaSpace(IPA_ADDR_DATA1)
    requires ValidPa(s.platform, src) && GranuleAt(s, src) == Undelegated && ContentOf(s.mem, src) == FilledPage(0x0a)
    requires GranuleAt(s, data) == Data && LeafIs(s, rd, 0, IPA_ADDR_DATA1, Assigned) && PageEntry(s, rd, IPA_ADDR_DATA1).desc.oa == data
    ensures point == None
    ensures GranuleAt(s', data) == Undelegated && ContentOf(s'.mem, data) == FilledPage(0)
  {
    var ok, s1 := DestroyMapping(s, rd, data, src);
    s' := s1;
    if !ok {
      return Some(9), s';
    }
    point, s' := UndelegateAndCompare(s1, data, src);
  }

  /**
   * The wipe sequence: the tables for IPA_ADDR_DATA1 with RIPAS RAM, then
   * FilledData and DestroyAndCompare. Only the mapping (point 7) and
   * DATA_CREATE (point 8) can fail, and neither does when the IPA is an
   * unassigned page of the new realm and memory suffices.
   */
  method WipeSequence(s: State, rd: int) returns (point: Option<int>, s': State)
    requires Valid(s) && Fresh(s) && rd in s.realms && s.realms[rd].params == NEW_REALM
    ensures point == None || point == Some(7) || point == Some(8)
    ensures RipasInitOk(s, rd, IPA_ADDR_DATA1) && Room(s) >= TABLES_COST + 2 * PAGE_SIZE ==> point == None
  {
    var ok, s1 := CreateMapping(s, rd, IPA_ADDR_DATA1, true);
    s' := s1;
    if !ok {
      return Some(7), s';
    }
    var data, src, s2;
    ok, data, src, s2 := FilledData(s1, rd);
    s' := s2;
    if !ok {
      return Some(8), s';
    }
    point, s' := DestroyAndCompare(s2, rd, data, src);
  }

  /**
   * The test: the two preparation sequences (points 1 and 2), the check
   * loop (point 3), positive and negative observability (points 5 and 6)
   * and the wipe sequence (points 7 to 11). With the monitor behaving as
   * modelled, only the fixtures and the expected-code table can make it
   * fail.
   */
  method GranuleUndelegateHost(s: State, table: seq<Stimulus<Intent>>, refusals: seq<ErrorCode>)
    returns (v: Verdict, outs: seq<Outcome>)
    requires Valid(s) && Fresh(s) && |refusals| == |table|
    ensures v in {Pass, Fail(1), Fail(2), Fail(3), Fail(7), Fail(8)}
    ensures |outs| <= |table|
    ensures v == Fail(3) <==> LoopStop(outs, table, LOOP_POINTS) == Some(3)
    ensures forall i :: 0 <= i < |outs| ==> outs[i] == PrepFailed || outs[i] == Got(refusals[i])
  {
    outs := [];
    var point, c, s1 := PrepareStore(s);
    if point.Some? {
      return Fail(point.value), outs;
    }
    var stop, s2;
    stop, outs, s2 := CheckLoop(s1, c, table, refusals);
    if stop.Some? {
      return Fail(3), outs;
    }
    var first, second, s3 := Observability(s2, c);
    if !first {
      return Fail(5), outs;
    }
    if second {
      return Fail(6), outs;
    }
    var s4;
    point, s4 := WipeSequence(s3, c.rd);
    if point.Some? {
      return Fail(point.value), outs;
    }
    v := Pass;
  }
}
