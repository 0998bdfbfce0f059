/**
 * The RTT_SET_S2AP command test. The valid realm has two RECs and two
 * auxiliary planes (one tree per plane unless the monitor offers a single
 * shared tree). REC 0 powers REC 1 on with PSCI CPU_ON, the host completes
 * that request, and REC 0 then leaves with an S2AP change request over
 * [base, top): those are the valid arguments. The test maps the range in
 * the primary tree (and in both auxiliary trees) at level 2 steps, walks
 * its table of refused argument sets, and finally applies the valid request
 * call by call until the monitor reports that it reached `top`.
 *
 * How far one accepted call gets is the monitor's choice and comes in as an
 * input, as do the realm's exits and the codes of refused calls.
 */
module SetS2apTest {
  import opened RmmTypes
  import opened Rtt
  import opened Monitor
  import opened Host
  import opened Checks

  /** The valid realm: two auxiliary planes, one tree per plane unless the monitor offers a single tree. */
  function ValidParams(p: Platform): RealmParams
  {
    RealmParams(40, 0, 2, !p.treeSingle)
  }

  /** The realm whose REC REC_OTHER_OWNER passes: one auxiliary plane, trees as for the valid realm. */
  function OtherParams(p: Platform): RealmParams
  {
    RealmParams(40, 0, 1, !p.treeSingle)
  }

  /** The `top` both BASE_*_UNALIGNED checks pass. */
  const UNALIGNED_TOP: int := 2 * L2_SIZE

  const LOOP_POINTS := Points(2, 3, 3)

  datatype Intent =
    | RdUnaligned | RdOutsideOfPermittedPa | RdDevMemMmio | RdStateUndelegated | RdStateDelegated
    | RdStateRec | RdStateRtt | RdStateData
    | RecUnaligned | RecOutsideOfPermittedPa | RecDevMem | RecGranStateUndelegated | RecGranStateDelegated
    | RecGranStateRd | RecGranStateRtt | RecGranStateData | RecOtherOwner
    | InvalidSize | BaseMismatch | TopOutOfBound | TopGranUnaligned
    | BasePrimaryUnaligned | BaseAuxiliaryUnaligned
      /** A label intent_to_seq does not know. */
    | UnknownIntent

  predicate IsRdIntent(intent: Intent)
  {
    intent.RdUnaligned? || intent.RdOutsideOfPermittedPa? || intent.RdDevMemMmio? || intent.RdStateUndelegated?
    || intent.RdStateDelegated? || intent.RdStateRec? || intent.RdStateRtt? || intent.RdStateData?
  }

  predicate IsRecIntent(intent: Intent)
  {
    intent.RecUnaligned? || intent.RecOutsideOfPermittedPa? || intent.RecDevMem? || intent.RecGranStateUndelegated?
    || intent.RecGranStateDelegated? || intent.RecGranStateRd? || intent.RecGranStateRtt? || intent.RecGranStateData?
    || intent.RecOtherOwner?
  }

  /** The checks that derive the range from the valid one. */
  predicate RangeIntent(intent: Intent)
  {
    intent.InvalidSize? || intent.BaseMismatch? || intent.TopOutOfBound? || intent.TopGranUnaligned?
  }

  /** The checks whose fixture can fail, which intent_to_seq reports as VAL_ERROR. */
  predicate ChecksFixture(intent: Intent)
  {
    intent.RdStateDelegated? || intent.RecGranStateDelegated? || intent.RecOtherOwner?
    || intent.BasePrimaryUnaligned? || intent.BaseAuxiliaryUnaligned?
  }

  /**
   * The checks whose arguments the monitor refuses whatever the fixtures
   * did. The DATA checks pass the realm image, which this model does not
   * lay out, and the BASE_* checks depend on what the realm asks for.
   */
  predicate Refusing(intent: Intent)
  {
    !intent.RdStateData? && !intent.RecGranStateData? && !intent.BasePrimaryUnaligned?
    && !intent.BaseAuxiliaryUnaligned? && !intent.UnknownIntent?
  }

  /** The argument store: the valid realm, REC 0 and the range REC 0 asked for. */
  datatype Store = Store(rdValid: int, recValid: int, baseValid: int, topValid: int)

  /** RTT_SET_S2AP's arguments. */
  datatype Arguments = Arguments(rd: int, rec: int, base: int, top: int)

  function ValidArgs(c: Store): Arguments
  {
    Arguments(c.rdValid, c.recValid, c.baseValid, c.topValid)
  }

  /**
   * What else the test reads from the valid realm: its RECs, its root table
   * and the address of its image (the image itself is not part of this
   * model, so its address comes in as an input).
   */
  datatype ValidRealm = ValidRealm(rec0: int, rec1: int, root: int, image: int)

  /**
   * What a check's fixture returned: an address, whether it failed
   * (VAL_TEST_PREP_SEQ_FAILED) and whether it skipped the check.
   */
  datatype FixtureOut = FixtureOut(value: int, failed: bool, skip: bool)

  /**
   * The exit the test's `rec_exit` pointer shows: REC 0's last exit, or
   * REC 1's latest exit once BASE_PRIMARY_UNALIGNED pointed it there.
   */
  datatype ExitView = ExitView(run0: RecExit, atRun1: bool)

  function Shown(view: ExitView, run1: RecExit): RecExit
  {
    if view.atRun1 then run1 else view.run0
  }

  predicate PageAligned(c: Store)
  {
    c.baseValid % PAGE_SIZE == 0 && c.topValid % PAGE_SIZE == 0
  }

  /** The RD checks: the valid arguments with another RD. */
  function RdIntentArgs(intent: Intent, c: Store, g: ValidRealm, p: SanePlatform, fx: FixtureOut): (r: Prep<Arguments>)
    requires IsRdIntent(intent)
    ensures r == PrepError <==> intent.RdStateDelegated? && fx.failed
    ensures r.Args? ==> r.args.(rd := c.rdValid) == ValidArgs(c)
  {
    var v := ValidArgs(c);
    match intent
    case RdUnaligned => Args(v.(rd := Unaligned(c.rdValid)))
    case RdOutsideOfPermittedPa => Args(v.(rd := OutsidePa(p)))
    case RdDevMemMmio => Args(v.(rd := DevMem(p)))
    case RdStateUndelegated => Args(v.(rd := fx.value))
    case RdStateDelegated => if fx.failed then PrepError else Args(v.(rd := fx.value))
    case RdStateRec => Args(v.(rd := g.rec0))
    case RdStateRtt => Args(v.(rd := g.root))
    case RdStateData => Args(v.(rd := g.image))
  }

  /** The REC checks: the valid arguments with another REC. */
  function RecIntentArgs(intent: Intent, c: Store, g: ValidRealm, p: SanePlatform, fx: FixtureOut): (r: Prep<Arguments>)
    requires IsRecIntent(intent)
    ensures r == PrepError <==> (intent.RecGranStateDelegated? || intent.RecOtherOwner?) && fx.failed
    ensures r.Args? ==> r.args.(rec := c.recValid) == ValidArgs(c)
  {
    var v := ValidArgs(c);
    match intent
    case RecUnaligned => Args(v.(rec := Unaligned(c.recValid)))
    case RecOutsideOfPermittedPa => Args(v.(rec := OutsidePa(p)))
    case RecDevMem => Args(v.(rec := DevMem(p)))
    case RecGranStateUndelegated => Args(v.(rec := fx.value))
    case RecGranStateDelegated => if fx.failed then PrepError else Args(v.(rec := fx.value))
    case RecGranStateRd => Args(v.(rec := c.rdValid))
    case RecGranStateRtt => Args(v.(rec := g.root))
    case RecGranStateData => Args(v.(rec := g.image))
    case RecOtherOwner => if fx.failed then PrepError else Args(v.(rec := fx.value))
  }

  /** The range checks: the valid RD and REC with a range derived from the valid one. */
  function RangeIntentArgs(intent: Intent, c: Store): (r: Prep<Arguments>)
    requires RangeIntent(intent)
    ensures r.Args? && r.args.rd == c.rdValid && r.args.rec == c.recValid
    ensures intent.InvalidSize? ==> r == Args(ValidArgs(c).(top := c.baseValid))
    ensures intent.BaseMismatch? ==> r == Args(ValidArgs(c).(base := c.baseValid + 1))
    ensures intent.TopOutOfBound? ==> r == Args(ValidArgs(c).(top := c.topValid + PAGE_SIZE))
    ensures intent.TopGranUnaligned? ==> r == Args(ValidArgs(c).(top := c.topValid - PAGE_SIZE / 2))
  {
    var v := ValidArgs(c);
    match intent
    case InvalidSize => Args(v.(top := c.baseValid))
    case BaseMismatch => Args(v.(base := c.baseValid + 1))
    case TopOutOfBound => Args(v.(top := c.topValid + PAGE_SIZE))
    case TopGranUnaligned => Args(v.(top := c.topValid - PAGE_SIZE / 2))
  }

  /**
   * intent_to_seq: the arguments for each label, from the store, the valid
   * realm and what the label's fixture returned.
   */
  function IntentToSeq(intent: Intent, c: Store, g: ValidRealm, p: SanePlatform, fx: FixtureOut): (r: Prep<Arguments>)
    ensures r == PrepError <==> intent.UnknownIntent? || (ChecksFixture(intent) && fx.failed)
    ensures r == PrepSkip <==> intent.BaseAuxiliaryUnaligned? && !fx.failed && fx.skip
    ensures r.Args? && IsRdIntent(intent) ==> r.args.(rd := c.rdValid) == ValidArgs(c)
    ensures r.Args? && IsRecIntent(intent) ==> r.args.(rec := c.recValid) == ValidArgs(c)
    ensures r.Args? && RangeIntent(intent) ==> r.args.rd == c.rdValid && r.args.rec == c.recValid
    ensures r.Args? && (intent.BasePrimaryUnaligned? || intent.BaseAuxiliaryUnaligned?) ==>
              r.args == Arguments(c.rdValid, g.rec1, fx.value, UNALIGNED_TOP)
    ensures intent.InvalidSize? ==> r == Args(ValidArgs(c).(top := c.baseValid))
    ensures intent.BaseMismatch? ==> r == Args(ValidArgs(c).(base := c.baseValid + 1))
    ensures intent.TopOutOfBound? ==> r == Args(ValidArgs(c).(top := c.topValid + PAGE_SIZE))
    ensures intent.TopGranUnaligned? ==> r == Args(ValidArgs(c).(top := c.topValid - PAGE_SIZE / 2))
  {
    if IsRdIntent(intent) then RdIntentArgs(intent, c, g, p, fx)
    else if IsRecIntent(intent) then RecIntentArgs(intent, c, g, p, fx)
    else if RangeIntent(intent) then RangeIntentArgs(intent, c)
    else if intent.BasePrimaryUnaligned? then
      if fx.failed then PrepError else Args(Arguments(c.rdValid, g.rec1, fx.value, UNALIGNED_TOP))
    else if intent.BaseAuxiliaryUnaligned? then
      if fx.failed then PrepError
      else if fx.skip then PrepSkip
      else Args(Arguments(c.rdValid, g.rec1, fx.value, UNALIGNED_TOP))
    else PrepError
  }

  // ---------------------------------------------------------------- the store

  /**
   * The stored arguments still describe the state: the valid realm with its
   * parameters and root table, and REC 0, a REC of that realm with a pending
   * request that still ends at the valid `top`.
   */
  ghost predicate StoreHolds(s: State, c: Store, g: ValidRealm)
  {
    c.rdValid in s.realms && s.realms[c.rdValid].params == ValidParams(s.platform)
    && c.recValid == g.rec0 && g.rec0 != g.rec1
    && g.rec0 in s.recs && s.recs[g.rec0].owner == c.rdValid
    && s.recs[g.rec0].s2ap.S2ap? && s.recs[g.rec0].s2ap.top == c.topValid
    && g.root < s.next && GranuleAt(s, g.root) == Rtt
  }

  /**
   * REC 0's request is still as the preparation left it, [base, top) with
   * no tree visited, and its level 2 steps still end at level 3 leaves in
   * the primary tree and, with one tree per plane, in both auxiliary trees.
   */
  ghost predicate Prepared(s: State, c: Store)
  {
    c.recValid in s.recs && s.recs[c.recValid].s2ap == S2ap(c.baseValid, c.topValid, 0)
    && Mapped(s.rtts, c.rdValid, 0, c.baseValid, c.topValid, L2_SIZE)
    && (!s.platform.treeSingle ==> TreesMapped(s.rtts, c.rdValid, 1, 2, c.baseValid, c.topValid))
  }

  /** What the granule fixtures returned is what the checks rely on: no RD, no REC, or a REC of another realm. */
  ghost predicate FixtureFits(s: State, c: Store, intent: Intent, fx: FixtureOut)
  {
    ((intent.RdStateUndelegated? || intent.RdStateDelegated?) ==> fx.value !in s.realms)
    && ((intent.RecGranStateUndelegated? || intent.RecGranStateDelegated?) ==> fx.value !in s.recs)
    && (intent.RecOtherOwner? && !fx.failed ==> fx.value !in s.recs || s.recs[fx.value].owner != c.rdValid)
  }

  /** The RD checks pass an address that is no realm. */
  lemma RdIntentRefused(s: State, c: Store, g: ValidRealm, intent: Intent, fx: FixtureOut)
    requires Valid(s) && StoreHolds(s, c, g) && FixtureFits(s, c, intent, fx)
    requires IsRdIntent(intent) && Refusing(intent) && IntentToSeq(intent, c, g, s.platform, fx).Args?
    ensures IntentToSeq(intent, c, g, s.platform, fx).args.rd !in s.realms
  {
    var rd := IntentToSeq(intent, c, g, s.platform, fx).args.rd;
    if intent.RdUnaligned? || intent.RdOutsideOfPermittedPa? || intent.RdDevMemMmio? {
      assert StateOf(s.granules, c.rdValid) == Rd;
      UntrackedNotRealm(s, rd);
    } else if intent.RdStateRec? {
      assert StateOf(s.granules, g.rec0) == Rec;
    } else if intent.RdStateRtt? {
      assert StateOf(s.granules, g.root) == Rtt;
    }
  }

  /** The REC checks pass an address that is no REC of the valid realm. */
  lemma RecIntentRefused(s: State, c: Store, g: ValidRealm, intent: Intent, fx: FixtureOut)
    requires Valid(s) && StoreHolds(s, c, g) && FixtureFits(s, c, intent, fx)
    requires IsRecIntent(intent) && Refusing(intent) && IntentToSeq(intent, c, g, s.platform, fx).Args?
    ensures var rec := IntentToSeq(intent, c, g, s.platform, fx).args.rec;
            rec !in s.recs || s.recs[rec].owner != c.rdValid
  {
    var rec := IntentToSeq(intent, c, g, s.platform, fx).args.rec;
    if intent.RecUnaligned? || intent.RecOutsideOfPermittedPa? || intent.RecDevMem? {
      assert StateOf(s.granules, g.rec0) == Rec;
      UntrackedNotRealm(s, rec);
    } else if intent.RecGranStateRd? {
      assert StateOf(s.granules, c.rdValid) == Rd;
    } else if intent.RecGranStateRtt? {
      assert StateOf(s.granules, g.root) == Rtt;
    }
  }

  /** The range checks pass a range the pending request of REC 0 does not allow, when the valid range is page-aligned. */
  lemma RangeIntentRefused(s: State, c: Store, g: ValidRealm, intent: Intent, fx: FixtureOut)
    requires StoreHolds(s, c, g) && RangeIntent(intent) && PageAligned(c)
    ensures var a := IntentToSeq(intent, c, g, s.platform, fx).args;
            !SetS2apOk(s, a.rd, a.rec, a.base, a.top)
  {
    var a := IntentToSeq(intent, c, g, s.platform, fx).args;
    assert a.rec == g.rec0;
    if intent.BaseMismatch? {
      assert a.base % PAGE_SIZE != 0;
    } else if intent.TopOutOfBound? {
      assert a.top > s.recs[a.rec].s2ap.top;
    } else if intent.TopGranUnaligned? {
      assert a.top % PAGE_SIZE != 0;
    }
  }

  /**
   * Every refusing check's arguments are refused: an RD that is no realm, a
   * REC that is no REC of the realm, or (for a page-aligned valid range) a
   * range the pending request does not allow.
   */
  lemma IntentRefused(s: State, c: Store, g: ValidRealm, intent: Intent, fx: FixtureOut)
    requires Valid(s) && StoreHolds(s, c, g) && FixtureFits(s, c, intent, fx)
    requires Refusing(intent) && (RangeIntent(intent) ==> PageAligned(c))
    requires IntentToSeq(intent, c, g, s.platform, fx).Args?
    ensures var a := IntentToSeq(intent, c, g, s.platform, fx).args;
            !SetS2apOk(s, a.rd, a.rec, a.base, a.top)
  {
    if IsRdIntent(intent) {
      RdIntentRefused(s, c, g, intent, fx);
    } else if IsRecIntent(intent) {
      RecIntentRefused(s, c, g, intent, fx);
    } else {
      RangeIntentRefused(s, c, g, intent, fx);
    }
  }

  // ---------------------------------------------------------------- fixtures

  /** RD_STATE_* and REC_GRAN_STATE_* (UN)DELEGATED: a fresh granule, left undelegated or delegated. */
  method GranuleFixture(s: State, c: Store, g: ValidRealm, delegated: bool) returns (fx: FixtureOut, s': State)
    requires Valid(s) && Fresh(s) && StoreHolds(s, c, g)
    ensures Keeps(s, s') && StoreHolds(s', c, g) && !fx.skip
    ensures fx.failed <==> Room(s) < PAGE_SIZE
    ensures fx.value !in s'.realms && fx.value !in s'.recs
    ensures !fx.failed ==> GranuleAt(s', fx.value) == if delegated then Delegated else Undelegated
    ensures Prepared(s, c) ==> Prepared(s', c)
  {
    var ok, pa;
    if delegated {
      ok, pa, s' := DelegatedGranule(s);
    } else {
      ok, pa, s' := NewGranule(s);
    }
    UntrackedNotRealm(s, pa);
    fx := FixtureOut(pa, !ok, false);
  }

  /** REC_OTHER_OWNER: a new realm with one REC, whose REC the check passes. */
  method OtherOwnerFixture(s: State, c: Store, g: ValidRealm) returns (fx: FixtureOut, s': State)
    requires Valid(s) && Fresh(s) && StoreHolds(s, c, g)
    ensures Keeps(s, s') && (!fx.failed ==> StoreHolds(s', c, g)) && !fx.skip
    ensures !fx.failed <==> Room(s) >= SetupCost(s.platform, OtherParams(s.platform), 1)
                            && FeaturesOk(s.platform, OtherParams(s.platform))
    ensures !fx.failed ==> fx.value in s'.recs && s'.recs[fx.value].owner != c.rdValid
    ensures !fx.failed && Prepared(s, c) ==> Prepared(s', c)
  {
    var ok, rd, recs;
    ok, rd, recs, s' := RealmWithRecs(s, OtherParams(s.platform), 1);
    fx := FixtureOut(if ok then recs[0] else 0, !ok, false);
  }

  /** Entering a REC of the valid realm keeps the store. */
  lemma EnterKeepsStore(s: State, s': State, c: Store, g: ValidRealm, r: EnterResult, rec: int)
    requires StoreHolds(s, c, g) && rec != g.rec0 && s'.granules == s.granules && s'.next == s.next
    requires s'.platform == s.platform
    requires r.Entered? ==> rec in s.recs && s.recs[rec].owner in s.realms
    requires s'.recs == if r.Entered? then AfterExit(s, rec, s.recs[rec].owner, r.exit).recs else s.recs
    requires s'.realms == if r.Entered? then AfterExit(s, rec, s.recs[rec].owner, r.exit).realms else s.realms
    ensures StoreHolds(s', c, g)
  {
    if r.Entered? {
      var owner := s.recs[rec].owner;
      assert RealmAfter(s.realms[owner], r.exit).params == s.realms[owner].params;
    }
  }

  /**
   * BASE_PRIMARY_UNALIGNED: REC 1 runs and must leave with an S2AP change
   * request, whose base the check passes. Once REC 1 ran, the test's exit
   * pointer shows REC 1's exit.
   */
  method BasePrimaryFixture(s: State, c: Store, g: ValidRealm, view: ExitView, step: RealmStep)
    returns (fx: FixtureOut, view': ExitView, s': State)
    requires Valid(s) && Fresh(s) && StoreHolds(s, c, g)
    ensures Keeps(s, s') && StoreHolds(s', c, g) && !fx.skip
    ensures view' == if EnterOk(s, g.rec1) then view.(atRun1 := true) else view
    ensures !fx.failed <==> EnterOk(s, g.rec1) && ExitOf(s, s.recs[g.rec1].owner, step).S2apChangeExit?
    ensures !fx.failed ==> fx.value == ExitOf(s, s.recs[g.rec1].owner, step).base
    ensures Prepared(s, c) ==> Prepared(s', c)
  {
    var r;
    r, s' := RecEnter(s, g.rec1, step);
    KeptUnchanged(s, s');
    EnterKeepsStore(s, s', c, g, r, g.rec1);
    view' := view;
    fx := FixtureOut(0, true, false);
    if r.Entered? {
      view' := view.(atRun1 := true);
      if r.exit.S2apChangeExit? {
        fx := FixtureOut(r.exit.base, false, false);
      }
    }
  }

  /**
   * BASE_AUXILIARY_UNALIGNED, skipped for a realm with a single tree: REC 1
   * runs, the exit the test's pointer shows must be an S2AP change request,
   * its range is mapped in the primary tree page by page, and two accepted
   * RTT_SET_S2AP calls for REC 1 move its request past the primary tree
   * and the first auxiliary tree. The check passes the request's base.
   */
  method BaseAuxFixture(s: State, c: Store, g: ValidRealm, view: ExitView, step: RealmStep, pages: Chunk)
    returns (fx: FixtureOut, s': State)
    requires Valid(s) && Fresh(s) && StoreHolds(s, c, g)
    ensures Keeps(s, s') && StoreHolds(s', c, g)
    ensures fx.skip <==> s.platform.treeSingle
    ensures fx.skip ==> !fx.failed && s' == s
    ensures !fx.failed && !fx.skip ==>
              EnterOk(s, g.rec1)
              && Shown(view, ExitOf(s, s.recs[g.rec1].owner, step)).S2apChangeExit?
              && fx.value == Shown(view, ExitOf(s, s.recs[g.rec1].owner, step)).base
    ensures Prepared(s, c) ==> Prepared(s', c)
  {
    s' := s;
    KeptUnchanged(s, s);
    if s.platform.treeSingle {
      return FixtureOut(0, false, true), s';
    }
    fx := FixtureOut(0, true, false);
    var r, s1 := RecEnter(s, g.rec1, step);
    KeptUnchanged(s, s1);
    EnterKeepsStore(s, s1, c, g, r, g.rec1);
    s' := s1;
    if !r.Entered? {
      return;
    }
    var e := Shown(view, r.exit);
    if !e.S2apChangeExit? {
      return;
    }
    var ok, s2 := MapRange(s1, c.rdValid, e.base, e.top, PAGE_SIZE);
    KeepsTrans(s, s1, s2);
    if Prepared(s1, c) {
      PreparedAfterMapping(s1, s2, c);
    }
    s' := s2;
    if !ok {
      return;
    }
    var s3;
    ok, s3 := SetS2apTwice(s2, c, g, e.base, e.top, pages);
    KeepsTrans(s, s2, s3);
    s' := s3;
    if ok {
      fx := FixtureOut(e.base, false, false);
    }
  }

  /** Two RTT_SET_S2AP calls for REC 1 over the same range; it succeeds when both are accepted. */
  method SetS2apTwice(s: State, c: Store, g: ValidRealm, base: int, top: int, pages: Chunk)
    returns (ok: bool, s': State)
    requires Valid(s) && Fresh(s) && StoreHolds(s, c, g)
    ensures Keeps(s, s') && StoreHolds(s', c, g)
    ensures ok ==> SetS2apOk(s, c.rdValid, g.rec1, base, top)
    ensures Prepared(s, c) ==> Prepared(s', c)
  {
    var progress, s1;
    ok, progress, s1 := RttSetS2ap(s, c.rdValid, g.rec1, base, top, pages);
    KeptUnchanged(s, s1);
    s' := s1;
    if !ok {
      return;
    }
    var s2;
    ok, progress, s2 := RttSetS2ap(s1, c.rdValid, g.rec1, base, top, pages);
    KeptUnchanged(s1, s2);
    KeepsTrans(s, s1, s2);
    s' := s2;
  }

  /** What the monitor and the realm decide in one round: the realm's next step, the refusal code and the pages per call. */
  datatype RoundOracle = RoundOracle(step: RealmStep, refusal: ErrorCode, pages: Chunk)

  /** The fixture a check runs before intent_to_seq builds its arguments. */
  method RunFixture(s: State, c: Store, g: ValidRealm, view: ExitView, intent: Intent, o: RoundOracle)
    returns (fx: FixtureOut, view': ExitView, s': State)
    requires Valid(s) && Fresh(s) && StoreHolds(s, c, g)
    ensures Keeps(s, s') && FixtureFits(s', c, intent, fx)
    ensures !fx.failed || !intent.RecOtherOwner? ==> StoreHolds(s', c, g)
    ensures (!fx.failed || !intent.RecOtherOwner?) && Prepared(s, c) ==> Prepared(s', c)
    ensures fx.skip <==> intent.BaseAuxiliaryUnaligned? && s.platform.treeSingle
    ensures fx.skip ==> !fx.failed
    ensures !intent.BasePrimaryUnaligned? ==> view' == view
    ensures view'.run0 == view.run0
  {
    fx, view', s' := FixtureOut(0, false, false), view, s;
    KeptUnchanged(s, s);
    match intent
    case RdStateUndelegated => fx, s' := GranuleFixture(s, c, g, false);
    case RdStateDelegated => fx, s' := GranuleFixture(s, c, g, true);
    case RecGranStateUndelegated => fx, s' := GranuleFixture(s, c, g, false);
    case RecGranStateDelegated => fx, s' := GranuleFixture(s, c, g, true);
    case RecOtherOwner => fx, s' := OtherOwnerFixture(s, c, g);
    case BasePrimaryUnaligned => fx, view', s' := BasePrimaryFixture(s, c, g, view, o.step);
    case BaseAuxiliaryUnaligned => fx, s' := BaseAuxFixture(s, c, g, view, o.step, o.pages);
    case _ =>
  }

  // ---------------------------------------------------------------- mapping the range

  /** `x` is one of base, base + step, base + 2 * step, ... */
  predicate OnStep(base: int, step: int, x: int)
    requires step > 0
  {
    base <= x && (x - base) % step == 0
  }

  /** The step after a step is a step. */
  lemma OnStepNext(base: int, step: int, x: int)
    requires (step == PAGE_SIZE || step == L2_SIZE) && OnStep(base, step, x)
    ensures OnStep(base, step, x + step)
  {
    if step == PAGE_SIZE {
      assert (x - base + PAGE_SIZE) % PAGE_SIZE == (x - base) % PAGE_SIZE;
    } else {
      assert (x - base + L2_SIZE) % L2_SIZE == (x - base) % L2_SIZE;
    }
  }

  /** Every step from `base` below `top` has a level 3 leaf in tree `tree`. */
  ghost predicate Mapped(t: Tables, rd: int, tree: nat, base: int, top: int, step: int)
    requires step > 0
  {
    forall x :: OnStep(base, step, x) && x < top ==> InIpaSpace(x) && Leaf(t, rd, tree, x).level == RTT_MAX_LEVEL
  }

  /** Two steps below `ipa + step` from the same base: the lower one is at most `ipa`, and a step short of it if different. */
  lemma StepBelow(base: int, step: int, x: int, ipa: int)
    requires step > 0 && OnStep(base, step, x) && OnStep(base, step, ipa) && x < ipa + step
    ensures x <= ipa && (x < ipa ==> x + step <= ipa)
  {
    var qx, qi := (x - base) / step, (ipa - base) / step;
    assert x - base == step * qx;
    assert ipa - base == step * qi;
    if qx > qi {
      MulAtLeast(step, qx - qi, 1);
      assert false;
    }
    if qx < qi {
      MulAtLeast(step, qi - qx, 1);
    }
  }

  /** A new level 3 leaf for `ipa`, with the leaves off its path kept, extends the mapped steps by one. */
  lemma MappedStep(t: Tables, t': Tables, rd: int, tree: nat, base: int, ipa: int, step: int)
    requires step == PAGE_SIZE || step == L2_SIZE
    requires OnStep(base, step, ipa) && InIpaSpace(ipa) && Mapped(t, rd, tree, base, ipa, step)
    requires LeavesOffPathKept(t, t', rd, tree, ipa) && Leaf(t', rd, tree, ipa).level == RTT_MAX_LEVEL
    ensures Mapped(t', rd, tree, base, ipa + step, step)
  {
    forall x | OnStep(base, step, x) && x < ipa + step
      ensures InIpaSpace(x) && Leaf(t', rd, tree, x).level == RTT_MAX_LEVEL
    {
      StepBelow(base, step, x, ipa);
      if x < ipa {
        assert AlignDown(x, RTT_MAX_LEVEL) != AlignDown(ipa, RTT_MAX_LEVEL);
      }
    }
  }

  /** Changes confined to another tree keep the mapped steps of a tree. */
  lemma MappedOtherTree(t: Tables, t': Tables, rd: int, changed: nat, tree: nat, base: int, top: int, step: int)
    requires step > 0 && OnlyTreeChanged(t, t', rd, changed) && tree != changed
    requires Mapped(t, rd, tree, base, top, step)
    ensures Mapped(t', rd, tree, base, top, step)
  {
    forall x | OnStep(base, step, x) && x < top
      ensures InIpaSpace(x) && Leaf(t', rd, tree, x).level == RTT_MAX_LEVEL
    {
      WalkOtherTree(t, t', rd, changed, rd, tree, x);
    }
  }

  /** The primary tree's tables for `ipa`, one more step of a mapping loop. */
  method MapStep(s: State, rd: int, base: int, ipa: int, step: int) returns (ok: bool, s': State)
    requires Valid(s) && Fresh(s) && (step == PAGE_SIZE || step == L2_SIZE)
    requires OnStep(base, step, ipa) && Mapped(s.rtts, rd, 0, base, ipa, step)
    ensures Keeps(s, s') && s'.realms == s.realms && s'.recs == s.recs
    ensures OnlyTreeChanged(s.rtts, s'.rtts, rd, 0)
    ensures ok ==> Mapped(s'.rtts, rd, 0, base, ipa + step, step)
    ensures Level3Kept(s.rtts, s'.rtts, rd, 0)
  {
    ok, s' := CreateMapping(s, rd, ipa, false);
    if InIpaSpace(ipa) {
      Level3Grows(s.rtts, s'.rtts, rd, 0, ipa);
    }
    if ok {
      MappedStep(s.rtts, s'.rtts, rd, 0, base, ipa, step);
    }
  }

  /** create_mapping for every step of [base, top) in the primary tree. */
  method MapRange(s: State, rd: int, base: int, top: int, step: int) returns (ok: bool, s': State)
    requires Valid(s) && Fresh(s) && (step == PAGE_SIZE || step == L2_SIZE)
    ensures Keeps(s, s') && s'.realms == s.realms && s'.recs == s.recs
    ensures OnlyTreeChanged(s.rtts, s'.rtts, rd, 0)
    ensures ok ==> Mapped(s'.rtts, rd, 0, base, top, step)
    ensures Level3Kept(s.rtts, s'.rtts, rd, 0)
  {
    var ipa := base;
    ok, s' := true, s;
    KeptUnchanged(s, s);
    while ok && ipa < top
      invariant Keeps(s, s') && s'.realms == s.realms && s'.recs == s.recs
      invariant OnStep(base, step, ipa)
      invariant OnlyTreeChanged(s.rtts, s'.rtts, rd, 0)
      invariant ok ==> Mapped(s'.rtts, rd, 0, base, ipa, step)
      invariant Level3Kept(s.rtts, s'.rtts, rd, 0)
      decreases top - ipa, ok
    {
      var s1;
      ok, s1 := MapStep(s', rd, base, ipa, step);
      KeepsTrans(s, s', s1);
      s' := s1;
      if ok {
        OnStepNext(base, step, ipa);
        ipa := ipa + step;
      }
    }
  }

  /** Every auxiliary tree from `lo` to `hi` has the level 2 steps of [base, top) mapped. */
  ghost predicate TreesMapped(t: Tables, rd: int, lo: nat, hi: nat, base: int, top: int)
  {
    forall tree: nat :: lo <= tree <= hi ==> Mapped(t, rd, tree, base, top, L2_SIZE)
  }

  /** Mapped steps below `ipa` include those below any `top` up to `ipa`. */
  lemma TreesMappedBelow(t: Tables, rd: int, lo: nat, hi: nat, base: int, ipa: int, top: int)
    requires TreesMapped(t, rd, lo, hi, base, ipa) && top <= ipa
    ensures TreesMapped(t, rd, lo, hi, base, top)
  {
    forall tree: nat | lo <= tree <= hi
      ensures Mapped(t, rd, tree, base, top, L2_SIZE)
    {
      assert Mapped(t, rd, tree, base, ipa, L2_SIZE);
    }
  }

  /** Changes confined to one tree keep the mapped steps of every other tree in a range. */
  lemma TreesMappedOther(t: Tables, t': Tables, rd: int, changed: nat, lo: nat, hi: nat, base: int, top: int)
    requires OnlyTreeChanged(t, t', rd, changed) && (changed < lo || hi < changed)
    requires TreesMapped(t, rd, lo, hi, base, top)
    ensures TreesMapped(t', rd, lo, hi, base, top)
  {
    forall tree: nat | lo <= tree <= hi
      ensures Mapped(t', rd, tree, base, top, L2_SIZE)
    {
      MappedOtherTree(t, t', rd, changed, tree, base, top, L2_SIZE);
    }
  }

  /** Every level 3 leaf of tree `tree` of realm `rd` is still a level 3 leaf. */
  ghost predicate Level3Kept(t: Tables, t': Tables, rd: int, tree: nat)
  {
    forall x :: InIpaSpace(x) && Leaf(t, rd, tree, x).level == RTT_MAX_LEVEL ==> Leaf(t', rd, tree, x).level == RTT_MAX_LEVEL
  }

  /**
   * Building the tables for `ipa` keeps every level 3 leaf: the leaves off
   * its path are untouched, and one on its path means its walk was complete.
   */
  lemma Level3Grows(t: Tables, t': Tables, rd: int, tree: nat, ipa: int)
    requires InIpaSpace(ipa) && LeavesOffPathKept(t, t', rd, tree, ipa)
    requires Leaf(t, rd, tree, ipa).level == RTT_MAX_LEVEL ==> t' == t
    ensures Level3Kept(t, t', rd, tree)
  {
    forall x | InIpaSpace(x) && Leaf(t, rd, tree, x).level == RTT_MAX_LEVEL
      ensures Leaf(t', rd, tree, x).level == RTT_MAX_LEVEL
    {
      if AlignDown(x, RTT_MAX_LEVEL) == AlignDown(ipa, RTT_MAX_LEVEL) {
        WalkSameBlock(t, rd, tree, x, ipa, RTT_MAX_LEVEL);
      }
    }
  }

  /** Mapping REC 1's range in the primary tree keeps REC 0's request and the mapped steps of every tree. */
  lemma PreparedAfterMapping(s: State, s': State, c: Store)
    requires Prepared(s, c) && s'.recs == s.recs && s'.platform == s.platform
    requires OnlyTreeChanged(s.rtts, s'.rtts, c.rdValid, 0) && Level3Kept(s.rtts, s'.rtts, c.rdValid, 0)
    ensures Prepared(s', c)
  {
    if !s.platform.treeSingle {
      TreesMappedOther(s.rtts, s'.rtts, c.rdValid, 0, 1, 2, c.baseValid, c.topValid);
    }
  }

  /** val_host_create_aux_mapping for `ipa` in auxiliary tree `tree`: its tables down to level 3. */
  method AuxStep(s: State, rd: int, tree: nat, base: int, ipa: int) returns (ok: bool, s': State)
    requires Valid(s) && Fresh(s) && OnStep(base, L2_SIZE, ipa) && Mapped(s.rtts, rd, tree, base, ipa, L2_SIZE)
    ensures Keeps(s, s') && s'.realms == s.realms && s'.recs == s.recs
    ensures OnlyTreeChanged(s.rtts, s'.rtts, rd, tree)
    ensures ok ==> Mapped(s'.rtts, rd, tree, base, ipa + L2_SIZE, L2_SIZE)
  {
    ok, s' := CreateTables(s, rd, tree, ipa);
    if ok {
      MappedStep(s.rtts, s'.rtts, rd, tree, base, ipa, L2_SIZE);
    }
  }

  /** The auxiliary mappings for one level 2 step, in trees 1 to `planes`. */
  method AuxAtStep(s: State, rd: int, planes: nat, base: int, ipa: int, top: int) returns (ok: bool, s': State)
    requires Valid(s) && Fresh(s) && OnStep(base, L2_SIZE, ipa)
    requires TreesMapped(s.rtts, rd, 1, planes, base, ipa) && Mapped(s.rtts, rd, 0, base, top, L2_SIZE)
    ensures Keeps(s, s') && s'.realms == s.realms && s'.recs == s.recs
    ensures Mapped(s'.rtts, rd, 0, base, top, L2_SIZE)
    ensures ok ==> TreesMapped(s'.rtts, rd, 1, planes, base, ipa + L2_SIZE)
  {
    var i: nat := 0;
    ok, s' := true, s;
    KeptUnchanged(s, s);
    while i < planes && ok
      invariant i <= planes && Keeps(s, s') && s'.realms == s.realms && s'.recs == s.recs
      invariant Mapped(s'.rtts, rd, 0, base, top, L2_SIZE)
      invariant TreesMapped(s'.rtts, rd, i + 1, planes, base, ipa)
      invariant ok ==> TreesMapped(s'.rtts, rd, 1, i, base, ipa + L2_SIZE)
    {
      assert Mapped(s'.rtts, rd, i + 1, base, ipa, L2_SIZE);
      var s1;
      ok, s1 := AuxStep(s', rd, i + 1, base, ipa);
      KeepsTrans(s, s', s1);
      MappedOtherTree(s'.rtts, s1.rtts, rd, i + 1, 0, base, top, L2_SIZE);
      TreesMappedOther(s'.rtts, s1.rtts, rd, i + 1, i + 2, planes, base, ipa);
      if ok {
        TreesMappedOther(s'.rtts, s1.rtts, rd, i + 1, 1, i, base, ipa + L2_SIZE);
      }
      s' := s1;
      i := i + 1;
    }
  }

  /** The auxiliary mappings for every level 2 step of [base, top). */
  method AuxMappings(s: State, rd: int, planes: nat, base: int, top: int) returns (ok: bool, s': State)
    requires Valid(s) && Fresh(s) && Mapped(s.rtts, rd, 0, base, top, L2_SIZE)
    ensures Keeps(s, s') && s'.realms == s.realms && s'.recs == s.recs
    ensures Mapped(s'.rtts, rd, 0, base, top, L2_SIZE)
    ensures ok ==> TreesMapped(s'.rtts, rd, 1, planes, base, top)
  {
    var ipa := base;
    ok, s' := true, s;
    KeptUnchanged(s, s);
    while ok && ipa < top
      invariant Keeps(s, s') && s'.realms == s.realms && s'.recs == s.recs
      invariant OnStep(base, L2_SIZE, ipa)
      invariant Mapped(s'.rtts, rd, 0, base, top, L2_SIZE)
      invariant ok ==> TreesMapped(s'.rtts, rd, 1, planes, base, ipa)
      decreases top - ipa, ok
    {
      var s1;
      ok, s1 := AuxAtStep(s', rd, planes, base, ipa, top);
      KeepsTrans(s, s', s1);
      s' := s1;
      if ok {
        OnStepNext(base, L2_SIZE, ipa);
        ipa := ipa + L2_SIZE;
      }
    }
    if ok {
      TreesMappedBelow(s'.rtts, rd, 1, planes, base, ipa, top);
    }
  }

  // ---------------------------------------------------------------- the valid arguments

  /**
   * The valid realm is up: its parameters and root table, REC 0 and REC 1
   * both its RECs, and REC 1 runnable.
   */
  ghost predicate RealmUp(s: State, rd: int, rec0: int, rec1: int)
  {
    rd in s.realms && s.realms[rd].params == ValidParams(s.platform)
    && s.realms[rd].root < s.next && GranuleAt(s, s.realms[rd].root) == Rtt
    && rec0 != rec1 && rec0 in s.recs && rec1 in s.recs
    && s.recs[rec0].owner == rd && s.recs[rec1].owner == rd && s.recs[rec1].runnable
  }

  /**
   * The first part of rd_valid_prep_sequence: the valid realm with two
   * RECs, activated; REC 0 runs and must ask for PSCI CPU_ON, and the host
   * completes the request with success, which makes REC 1 runnable.
   */
  method PowerOnRec1(s: State, first: RealmStep) returns (ok: bool, rd: int, rec0: int, rec1: int, s': State)
    requires Valid(s) && Fresh(s)
    ensures Keeps(s, s') && s'.rtts == s.rtts
    ensures ok ==> Room(s) >= SetupCost(s.platform, ValidParams(s.platform), 2) && FeaturesOk(s.platform, ValidParams(s.platform))
    ensures (Room(s) >= SetupCost(s.platform, ValidParams(s.platform), 2) && FeaturesOk(s.platform, ValidParams(s.platform))
             && first == Exits(PsciExit(CpuOn, 1))) ==> ok
    ensures ok ==> RealmUp(s', rd, rec0, rec1) && EnterOk(s', rec0)
    ensures ok && first.Exits? ==> first.exit == PsciExit(CpuOn, 1)
  {
    var params := ValidParams(s.platform);
    var recs, s1;
    ok, rd, recs, s1 := RealmSetup(s, params, 2, true);
    rec0, rec1, s' := 0, 0, s1;
    if !ok {
      return;
    }
    rec0, rec1 := recs[0], recs[1];
    var r, s2 := RecEnter(s1, rec0, first);
    KeptUnchanged(s1, s2);
    KeepsTrans(s, s1, s2);
    s' := s2;
    ok := r.Entered? && r.exit.PsciExit? && r.exit.fid == CpuOn;
    if !ok {
      return;
    }
    assert s2.realms[rd] == s1.realms[rd];
    var s3;
    ok, s3 := PsciComplete(s2, rec0, rec1, PsciSuccess);
    KeptUnchanged(s2, s3);
    KeepsTrans(s, s2, s3);
    s' := s3;
  }

  /**
   * rd_valid_prep_sequence up to its mappings: after PowerOnRec1, REC 0
   * runs again and must leave with an S2AP change request.
   */
  method ValidRealmUp(s: State, first: RealmStep, second: RealmStep)
    returns (ok: bool, rd: int, rec0: int, rec1: int, exit: RecExit, s': State)
    requires Valid(s) && Fresh(s)
    ensures Keeps(s, s') && s'.rtts == s.rtts
    ensures ok ==> Room(s) >= SetupCost(s.platform, ValidParams(s.platform), 2) && FeaturesOk(s.platform, ValidParams(s.platform))
    ensures (Room(s) >= SetupCost(s.platform, ValidParams(s.platform), 2) && FeaturesOk(s.platform, ValidParams(s.platform))
             && first == Exits(PsciExit(CpuOn, 1)) && second.Exits? && second.exit.S2apChangeExit?) ==> ok
    ensures ok ==> RealmUp(s', rd, rec0, rec1)
    ensures ok ==> exit.S2apChangeExit? && s'.recs[rec0].s2ap == S2ap(exit.base, exit.top, 0)
    ensures ok ==> (first.Exits? ==> first.exit == PsciExit(CpuOn, 1)) && (second.Exits? ==> second.exit == exit)
  {
    var s1;
    ok, rd, rec0, rec1, s1 := PowerOnRec1(s, first);
    exit, s' := HostCallExit, s1;
    if !ok {
      return;
    }
    var r, s2 := RecEnter(s1, rec0, second);
    KeptUnchanged(s1, s2);
    KeepsTrans(s, s1, s2);
    s' := s2;
    ok := r.Entered? && r.exit.S2apChangeExit?;
    if ok {
      exit := r.exit;
      assert s2.realms[rd] == s1.realms[rd];
    }
  }

  /**
   * valid_input_args_prep_sequence: the valid realm and REC 0's request
   * [base, top), mapped at level 2 steps in the primary tree and, with one
   * tree per plane, in both auxiliary trees. The test's exit pointer shows
   * REC 0's exit.
   */
  method ValidPrep(s: State, image: int, first: RealmStep, second: RealmStep)
    returns (ok: bool, c: Store, g: ValidRealm, view: ExitView, s': State)
    requires Valid(s) && Fresh(s)
    ensures Keeps(s, s')
    ensures ok ==> Room(s) >= SetupCost(s.platform, ValidParams(s.platform), 2) && FeaturesOk(s.platform, ValidParams(s.platform))
    ensures ok ==> StoreHolds(s', c, g) && g.image == image
    ensures ok ==> view == ExitView(S2apChangeExit(c.baseValid, c.topValid), false)
    ensures ok ==> s'.recs[c.recValid].s2ap == S2ap(c.baseValid, c.topValid, 0) && g.rec1 in s'.recs && s'.recs[g.rec1].runnable
    ensures ok ==> (first.Exits? ==> first.exit == PsciExit(CpuOn, 1))
                   && (second.Exits? ==> second.exit == S2apChangeExit(c.baseValid, c.topValid))
    ensures ok ==> Mapped(s'.rtts, c.rdValid, 0, c.baseValid, c.topValid, L2_SIZE)
    ensures ok && !s.platform.treeSingle ==> TreesMapped(s'.rtts, c.rdValid, 1, 2, c.baseValid, c.topValid)
  {
    var rd, rec0, rec1, exit, s1;
    ok, rd, rec0, rec1, exit, s1 := ValidRealmUp(s, first, second);
    c, g, view, s' := Store(0, 0, 0, 0), ValidRealm(0, 0, 0, image), ExitView(HostCallExit, false), s1;
    if !ok {
      return;
    }
    var root := s1.realms[rd].root;
    view := ExitView(exit, false);
    var s2;
    ok, s2 := MapRange(s1, rd, exit.base, exit.top, L2_SIZE);
    KeepsTrans(s, s1, s2);
    s' := s2;
    if !ok {
      return;
    }
    if !s.platform.treeSingle {
      var s3;
      ok, s3 := AuxMappings(s2, rd, 2, exit.base, exit.top);
      KeepsTrans(s, s2, s3);
      s' := s3;
      if !ok {
        return;
      }
    }
    c := Store(rd, rec0, exit.base, exit.top);
    g := ValidRealm(rec0, rec1, root, image);
  }

  // ---------------------------------------------------------------- the check loop

  /**
   * One round of the check loop: the label's fixture, intent_to_seq, and
   * the command when the label gave arguments.
   */
  method CheckRound(s: State, c: Store, g: ValidRealm, view: ExitView, st: Stimulus<Intent>, o: RoundOracle)
    returns (out: Outcome, view': ExitView, s': State)
    requires Valid(s) && Fresh(s) && StoreHolds(s, c, g)
    ensures Keeps(s, s') && view'.run0 == view.run0
    ensures out != PrepFailed ==> StoreHolds(s', c, g)
    ensures out != PrepFailed && out != Got(SUCCESS) && Prepared(s, c) ==> Prepared(s', c)
    ensures RoundSaw(out, o.refusal, st.intent, PageAligned(c), s.platform.treeSingle)
  {
    var fx, s1;
    fx, view', s1 := RunFixture(s, c, g, view, st.intent, o);
    s' := s1;
    var prep := IntentToSeq(st.intent, c, g, s1.platform, fx);
    if prep == PrepSkip {
      return Skipped, view', s';
    } else if prep == PrepError {
      return PrepFailed, view', s';
    }
    var a := prep.args;
    if Refusing(st.intent) && (RangeIntent(st.intent) ==> PageAligned(c)) {
      IntentRefused(s1, c, g, st.intent, fx);
    }
    var ok, progress;
    ok, progress, s' := RttSetS2ap(s1, a.rd, a.rec, a.base, a.top, o.pages);
    KeptUnchanged(s1, s');
    KeepsTrans(s, s1, s');
    out := Got(Returned(ok, o.refusal));
  }

  /** What a round of the loop can have seen, given the refusal the monitor would give. */
  predicate RoundSaw(o: Outcome, refusal: ErrorCode, intent: Intent, aligned: bool, single: bool)
  {
    (o.Got? ==> o.code == SUCCESS || o.code == refusal)
    && (o.Got? && Refusing(intent) && (RangeIntent(intent) ==> aligned) ==> o.code == refusal)
    && !o.BadOutput?
    && (o.Skipped? <==> intent.BaseAuxiliaryUnaligned? && single)
    && (o.PrepFailed? ==> intent.UnknownIntent? || ChecksFixture(intent))
    && (intent.UnknownIntent? ==> o.PrepFailed?)
  }

  /** What the rounds `outs` of the loop over `table` have seen. */
  ghost predicate RoundsSaw(outs: seq<Outcome>, table: seq<Stimulus<Intent>>, oracles: seq<RoundOracle>, aligned: bool, single: bool)
    requires |outs| <= |table| == |oracles|
  {
    forall i :: 0 <= i < |outs| ==> RoundSaw(outs[i], oracles[i].refusal, table[i].intent, aligned, single)
  }

  lemma RoundsSawNext(outs: seq<Outcome>, o: Outcome, table: seq<Stimulus<Intent>>, oracles: seq<RoundOracle>, aligned: bool, single: bool)
    requires |outs| < |table| == |oracles|
    requires RoundsSaw(outs, table, oracles, aligned, single) && RoundSaw(o, oracles[|outs|].refusal, table[|outs|].intent, aligned, single)
    ensures RoundsSaw(outs + [o], table, oracles, aligned, single)
    ensures NoneAccepted(outs + [o]) <==> NoneAccepted(outs) && o != Got(SUCCESS)
  {
    assert forall i :: 0 <= i < |outs| ==> (outs + [o])[i] == outs[i];
    assert (outs + [o])[|outs|] == o;
  }

  /** One more round of the check loop, appended to the rounds before it. */
  method CheckNext(s: State, c: Store, g: ValidRealm, view: ExitView, table: seq<Stimulus<Intent>>,
                   oracles: seq<RoundOracle>, outs: seq<Outcome>)
    returns (outs': seq<Outcome>, view': ExitView, s': State)
    requires |outs| < |table| == |oracles|
    requires Valid(s) && Fresh(s) && StoreHolds(s, c, g) && LoopStop(outs, table, LOOP_POINTS) == None
    requires RoundsSaw(outs, table, oracles, PageAligned(c), s.platform.treeSingle)
    ensures Keeps(s, s') && |outs'| == |outs| + 1 && view'.run0 == view.run0
    ensures LoopStop(outs', table, LOOP_POINTS) == None ==> StoreHolds(s', c, g)
    ensures LoopStop(outs', table, LOOP_POINTS) == None && NoneAccepted(outs') ==>
              NoneAccepted(outs) && (Prepared(s, c) ==> Prepared(s', c))
    ensures RoundsSaw(outs', table, oracles, PageAligned(c), s.platform.treeSingle)
  {
    var k := |outs|;
    var o;
    o, view', s' := CheckRound(s, c, g, view, table[k], oracles[k]);
    LoopStopNext(outs, o, table, LOOP_POINTS);
    outs' := outs + [o];
    RoundsSawNext(outs, o, table, oracles, PageAligned(c), s.platform.treeSingle);
  }

  /**
   * The check loop: one round per stimulus until a preparation fails
   * (point 2) or a code differs from the expected one (point 3).
   */
  method CheckLoop(s: State, c: Store, g: ValidRealm, view: ExitView, table: seq<Stimulus<Intent>>, oracles: seq<RoundOracle>)
    returns (stop: Option<int>, outs: seq<Outcome>, s': State)
    requires Valid(s) && Fresh(s) && StoreHolds(s, c, g) && |oracles| == |table|
    ensures Keeps(s, s')
    ensures |outs| <= |table| && stop == LoopStop(outs, table, LOOP_POINTS)
    ensures stop == None ==> |outs| == |table| && StoreHolds(s', c, g)
    ensures stop == None && NoneAccepted(outs) && Prepared(s, c) ==> Prepared(s', c)
    ensures RoundsSaw(outs, table, oracles, PageAligned(c), s.platform.treeSingle)
  {
    var v := view;
    outs, s', stop := [], s, None;
    KeptUnchanged(s, s);
    while |outs| < |table| && stop == None
      invariant |outs| <= |table|
      invariant Keeps(s, s') && (stop == None ==> StoreHolds(s', c, g))
      invariant stop == LoopStop(outs, table, LOOP_POINTS)
      invariant stop == None && NoneAccepted(outs) && Prepared(s, c) ==> Prepared(s', c)
      invariant RoundsSaw(outs, table, oracles, PageAligned(c), s.platform.treeSingle)
    {
      var s1;
      outs, v, s1 := CheckNext(s', c, g, v, table, oracles, outs);
      KeepsTrans(s, s', s1);
      s' := s1;
      stop := LoopStop(outs, table, LOOP_POINTS);
    }
  }

  // ---------------------------------------------------------------- positive observability

  /** REC `rec` of realm `rd` has the request [base, top), page-aligned and not empty, with no tree visited yet. */
  predicate RequestFresh(s: State, rd: int, rec: int, base: int, top: int)
  {
    rd in s.realms && rec in s.recs && s.recs[rec].owner == rd && s.recs[rec].s2ap == S2ap(base, top, 0)
    && base % PAGE_SIZE == 0 && top % PAGE_SIZE == 0 && base < top
  }

  /** A call can start at `x` on every tree of the realm: `x` is the realm's and every tree's entry for it is aligned to `x`. */
  ghost predicate ReadyAt(s: State, rd: int, x: int)
    requires rd in s.realms
  {
    InRealm(s.realms[rd], x) && forall tree: nat :: tree < TreeCount(s.realms[rd]) ==> S2apBaseAligned(s, rd, tree, x)
  }

  /** A call can start at every page of [base, top). */
  ghost predicate RangeReady(s: State, rd: int, base: int, top: int)
  {
    rd in s.realms && forall x :: base <= x < top && x % PAGE_SIZE == 0 ==> ReadyAt(s, rd, x)
  }

  /**
   * The request the realm made is one the preparation's mappings cover
   * page by page: non-empty and page-aligned, from a level 2 boundary, and
   * inside the valid realm's 40-bit IPA space.
   */
  predicate RequestShaped(c: Store)
  {
    PageAligned(c) && c.baseValid < c.topValid && c.baseValid % L2_SIZE == 0 && c.topValid <= 2 * L0_SIZE
  }

  /** A page lies in the level 2 block of the step from an aligned base at or below it. */
  lemma StepOfPage(base: int, x: int)
    requires base % L2_SIZE == 0 && base <= x && 0 <= x < IPA_LIMIT
    ensures OnStep(base, L2_SIZE, AlignDown(x, 2)) && AlignDown(AlignDown(x, 2), 2) == AlignDown(x, 2)
  {
    var q, b := x / L2_SIZE, base / L2_SIZE;
    assert AlignDown(x, 2) == q * L2_SIZE;
    assert base == b * L2_SIZE;
    if b > q {
      MulAtLeast(L2_SIZE, b, q + 1);
      assert false;
    }
    assert AlignDown(x, 2) - base == (q - b) * L2_SIZE;
    assert (AlignDown(x, 2) / L2_SIZE) == q;
  }

  /** A page of a range whose level 2 steps end at level 3 leaves has a level 3 leaf itself. */
  lemma PageMapped(t: Tables, rd: int, tree: nat, base: int, top: int, x: int)
    requires Mapped(t, rd, tree, base, top, L2_SIZE) && base % L2_SIZE == 0
    requires base <= x < top && InIpaSpace(x)
    ensures Leaf(t, rd, tree, x).level == RTT_MAX_LEVEL
  {
    StepOfPage(base, x);
    var xs := AlignDown(x, 2);
    assert xs <= x < top;
    LeafSameTable(t, rd, tree, xs, x);
  }

  /** The mapped steps of the primary tree and, unless there is one tree, both auxiliary trees cover each tree of the realm. */
  lemma TreeMapped(t: Tables, rd: int, single: bool, tree: nat, base: int, top: int)
    requires Mapped(t, rd, 0, base, top, L2_SIZE) && (!single ==> TreesMapped(t, rd, 1, 2, base, top))
    requires tree < if single then 1 else 3
    ensures Mapped(t, rd, tree, base, top, L2_SIZE)
  {
  }

  /**
   * While the preparation still holds, a request of that shape is fresh
   * and every page of it is ready on every tree of the valid realm: the
   * page's level 2 step ends at a level 3 leaf, so the page's own walk does.
   */
  lemma PreparedReady(s: State, c: Store, g: ValidRealm)
    requires StoreHolds(s, c, g) && Prepared(s, c) && RequestShaped(c)
    ensures RequestFresh(s, c.rdValid, c.recValid, c.baseValid, c.topValid)
    ensures RangeReady(s, c.rdValid, c.baseValid, c.topValid)
  {
    var rd, base, top := c.rdValid, c.baseValid, c.topValid;
    var r := s.realms[rd];
    assert OnStep(base, L2_SIZE, base);
    assert base >= 0;
    Pow2Of39();
    assert Pow2(r.params.s2sz) == 2 * L0_SIZE;
    assert TreeCount(r) == if s.platform.treeSingle then 1 else 3;
    forall x | base <= x < top && x % PAGE_SIZE == 0
      ensures ReadyAt(s, rd, x)
    {
      assert InRealm(r, x);
      forall tree: nat | tree < TreeCount(r)
        ensures S2apBaseAligned(s, rd, tree, x)
      {
        TreeMapped(s.rtts, rd, s.platform.treeSingle, tree, base, top);
        PageMapped(s.rtts, rd, tree, base, top, x);
      }
    }
  }

  /** How far the REC's request still has to go. */
  function Dist(s: State, rec: int, top: int): nat
  {
    if rec in s.recs && s.recs[rec].s2ap.S2ap? && s.recs[rec].s2ap.base <= top then top - s.recs[rec].s2ap.base else 0
  }

  /** How many trees the REC's request still has to visit at its base. */
  function TreesLeft(s: State, rd: int, rec: int): nat
  {
    if rd in s.realms && rec in s.recs && s.recs[rec].s2ap.S2ap? && s.recs[rec].s2ap.tree < TreeCount(s.realms[rd])
    then TreeCount(s.realms[rd]) - s.recs[rec].s2ap.tree else 0
  }

  /** An accepted call moves the request's base towards `top`, or keeps it and leaves one tree fewer to visit there. */
  lemma CallProgresses(s: State, s1: State, rd: int, rec: int, base: int, top: int, pages: Chunk)
    requires SetS2apOk(s, rd, rec, base, top) && s1.realms == s.realms
    requires s1.recs == s.recs[rec := s.recs[rec].(s2ap := S2apAfter(s.recs[rec].s2ap, TreeCount(s.realms[rd]), top, pages))]
    ensures Dist(s1, rec, top) < Dist(s, rec, top)
            || (Dist(s1, rec, top) == Dist(s, rec, top) && TreesLeft(s1, rd, rec) < TreesLeft(s, rd, rec))
  {
  }

  /** Calls that change nothing but RECs. */
  ghost predicate OnlyRecsChanged(s: State, s': State)
  {
    Valid(s') && (Fresh(s) ==> Fresh(s'))
    && s'.platform == s.platform && s'.granules == s.granules && s'.mem == s.mem
    && s'.realms == s.realms && s'.rtts == s.rtts && s'.next == s.next
  }

  /** The REC's request, started as [lo, top), has reached `base` on some tree. */
  ghost predicate Tracking(s0: State, s: State, rd: int, rec: int, lo: int, base: int, top: int)
    requires rec in s0.recs && rd in s.realms
  {
    rec in s.recs && s.recs[rec].s2ap.S2ap?
    && s.recs[rec] == s0.recs[rec].(s2ap := S2ap(base, top, s.recs[rec].s2ap.tree))
    && s.recs[rec].s2ap.tree < TreeCount(s.realms[rd])
    && lo <= base <= top && base % PAGE_SIZE == 0
    && (base == top ==> s.recs[rec].s2ap.tree == 0)
  }

  /** A request that has reached `base` below `top` on a range whose pages are ready lets the next call start at `base`. */
  lemma ReadyCall(s0: State, s: State, rd: int, rec: int, lo: int, base: int, top: int)
    requires RequestFresh(s0, rd, rec, lo, top) && RangeReady(s0, rd, lo, top)
    requires s.realms == s0.realms && s.rtts == s0.rtts
    requires Tracking(s0, s, rd, rec, lo, base, top) && base != top
    ensures SetS2apOk(s, rd, rec, base, top)
  {
    assert ReadyAt(s0, rd, base);
    var tree := s.recs[rec].s2ap.tree;
    assert S2apBaseAligned(s0, rd, tree, base);
    assert LeafWalk(s, rd, tree, base) == LeafWalk(s0, rd, tree, base);
  }

  /** An accepted call keeps the request tracked at the address it returns. */
  lemma TrackingAfter(s0: State, s: State, s1: State, rd: int, rec: int, lo: int, base: int, top: int, pages: Chunk)
    requires rec in s0.recs && rd in s.realms && Tracking(s0, s, rd, rec, lo, base, top) && base < top
    requires top % PAGE_SIZE == 0 && s1.realms == s.realms
    requires s1.recs == s.recs[rec := s.recs[rec].(s2ap := S2apAfter(s.recs[rec].s2ap, TreeCount(s.realms[rd]), top, pages))]
    ensures Tracking(s0, s1, rd, rec, lo, S2apAfter(s.recs[rec].s2ap, TreeCount(s.realms[rd]), top, pages).base, top)
  {
    var req' := S2apAfter(s.recs[rec].s2ap, TreeCount(s.realms[rd]), top, pages);
    assert req' == S2ap(req'.base, top, req'.tree);
    if req'.base != base {
      assert (pages * PAGE_SIZE) % PAGE_SIZE == 0;
      AddPages(base, pages * PAGE_SIZE);
    }
  }

  /** On a fresh request whose pages are ready, a call from where the request stands is accepted and keeps it tracked. */
  lemma ToTopStep(s0: State, s: State, s1: State, rd: int, rec: int, lo: int, base: int, top: int,
                  pages: Chunk, ok: bool, progress: int)
    requires RequestFresh(s0, rd, rec, lo, top) && RangeReady(s0, rd, lo, top)
    requires s.realms == s0.realms && s.rtts == s0.rtts && s1.realms == s.realms
    requires Tracking(s0, s, rd, rec, lo, base, top) && base != top
    requires ok <==> SetS2apOk(s, rd, rec, base, top)
    requires ok ==> progress == S2apAfter(s.recs[rec].s2ap, TreeCount(s.realms[rd]), top, pages).base
    requires s1.recs == if ok then s.recs[rec := s.recs[rec].(s2ap := S2apAfter(s.recs[rec].s2ap, TreeCount(s.realms[rd]), top, pages))] else s.recs
    ensures ok && Tracking(s0, s1, rd, rec, lo, progress, top)
  {
    ReadyCall(s0, s, rd, rec, lo, base, top);
    TrackingAfter(s0, s, s1, rd, rec, lo, base, top, pages);
  }

  /**
   * The positive check as evidently intended: RTT_SET_S2AP with the valid
   * realm and REC, from the address the previous call returned to `top`,
   * until the monitor reports `top` (point 4 when a call is refused). For a
   * fresh request whose pages are all ready the loop reaches `top` and the
   * request is complete; `pages` is how many pages the monitor handles in
   * each call, by call number.
   */
  method AdvanceToTop(s: State, rd: int, rec: int, baseV: int, topV: int, pages: nat -> Chunk)
    returns (point: Option<int>, s': State)
    requires Valid(s)
    ensures OnlyRecsChanged(s, s')
    ensures point == None || point == Some(4)
    ensures point == None && baseV != topV ==> rec in s'.recs && s'.recs[rec].s2ap.S2ap? && s'.recs[rec].s2ap.base == topV
    ensures RequestFresh(s, rd, rec, baseV, topV) && RangeReady(s, rd, baseV, topV) ==>
              point == None && rec in s'.recs && s'.recs[rec] == s.recs[rec].(s2ap := S2ap(topV, topV, 0))
  {
    var base := baseV;
    var n: nat := 0;
    point, s' := None, s;
    ghost var cond := RequestFresh(s, rd, rec, baseV, topV) && RangeReady(s, rd, baseV, topV);
    while base != topV && point == None
      invariant OnlyRecsChanged(s, s')
      invariant point == None || point == Some(4)
      invariant point == None && base != baseV ==> rec in s'.recs && s'.recs[rec].s2ap.S2ap? && s'.recs[rec].s2ap.base == base
      invariant cond ==> point == None && Tracking(s, s', rd, rec, baseV, base, topV)
      decreases (if point == None then 1 else 0), Dist(s', rec, topV), TreesLeft(s', rd, rec)
    {
      var ok, progress, s1;
      ok, progress, s1 := RttSetS2ap(s', rd, rec, base, topV, pages(n));
      if cond {
        ToTopStep(s, s', s1, rd, rec, baseV, base, topV, pages(n), ok, progress);
      }
      if ok {
        CallProgresses(s', s1, rd, rec, base, topV, pages(n));
        base := progress;
      } else {
        point := Some(4);
      }
      s' := s1;
      n := n + 1;
    }
  }

  /**
   * Where the as-written loop stands after `n` calls on a fresh request:
   * before the calls on every tree are done it is still at the valid base
   * on tree `n`; after them the request has moved to `next`; one call later
   * it has been refused, because `next` is not the valid base.
   */
  ghost predicate AsWrittenAt(s0: State, s: State, rd: int, rec: int, baseV: int, topV: int,
                              n: nat, count: nat, next: int, base: int, point: Option<int>)
    requires rec in s0.recs && rd in s.realms
  {
    n <= count + 1 && rec in s.recs
    && (n < count ==> point == None && base == baseV && Tracking(s0, s, rd, rec, baseV, baseV, topV) && s.recs[rec].s2ap.tree == n)
    && (n == count ==> point == None && base == next && Tracking(s0, s, rd, rec, baseV, next, topV) && s.recs[rec].s2ap.tree == 0)
    && (n == count + 1 ==> point == Some(4) && next != topV)
  }

  /** One call of the as-written loop, with the valid base, keeps `AsWrittenAt` one call further on. */
  lemma AsWrittenStep(s0: State, s: State, s1: State, rd: int, rec: int, baseV: int, topV: int,
                      n: nat, count: nat, next: int, base: int, pages: Chunk, ok: bool, progress: int)
    requires RequestFresh(s0, rd, rec, baseV, topV) && RangeReady(s0, rd, baseV, topV)
    requires s.realms == s0.realms && s.rtts == s0.rtts && s1.realms == s.realms
    requires count == TreeCount(s0.realms[rd])
    requires baseV < next
    requires n + 1 == count ==> next == if baseV + pages * PAGE_SIZE < topV then baseV + pages * PAGE_SIZE else topV
    requires AsWrittenAt(s0, s, rd, rec, baseV, topV, n, count, next, base, None) && base != topV
    requires ok <==> SetS2apOk(s, rd, rec, baseV, topV)
    requires ok ==> progress == S2apAfter(s.recs[rec].s2ap, count, topV, pages).base
    requires s1.recs == if ok then s.recs[rec := s.recs[rec].(s2ap := S2apAfter(s.recs[rec].s2ap, count, topV, pages))] else s.recs
    ensures AsWrittenAt(s0, s1, rd, rec, baseV, topV, n + 1, count, next,
                        if ok then progress else base, if ok then None else Some(4))
  {
    if n < count {
      ReadyCall(s0, s, rd, rec, baseV, baseV, topV);
      TrackingAfter(s0, s, s1, rd, rec, baseV, baseV, topV, pages);
    }
  }

  /**
   * The positive check as written: every call passes the valid base, not
   * the address the previous call returned. For a fresh request whose
   * pages are all ready the loop passes exactly when the calls on the last
   * tree at the valid base cover the whole range; otherwise the next call
   * names a base the monitor has moved past and is refused (point 4).
   */
  method AdvanceAsWritten(s: State, rd: int, rec: int, baseV: int, topV: int, pages: nat -> Chunk)
    returns (point: Option<int>, s': State)
    requires Valid(s)
    ensures OnlyRecsChanged(s, s')
    ensures point == None || point == Some(4)
    ensures RequestFresh(s, rd, rec, baseV, topV) && RangeReady(s, rd, baseV, topV) ==>
              (point == None <==> topV <= baseV + pages(TreeCount(s.realms[rd]) - 1) * PAGE_SIZE)
  {
    var base := baseV;
    var n: nat := 0;
    point, s' := None, s;
    ghost var cond := RequestFresh(s, rd, rec, baseV, topV) && RangeReady(s, rd, baseV, topV);
    ghost var count := if rd in s.realms then TreeCount(s.realms[rd]) else 1;
    ghost var next := if baseV + pages(count - 1) * PAGE_SIZE < topV then baseV + pages(count - 1) * PAGE_SIZE else topV;
    while base != topV && point == None
      invariant OnlyRecsChanged(s, s')
      invariant point == None || point == Some(4)
      invariant cond ==> AsWrittenAt(s, s', rd, rec, baseV, topV, n, count, next, base, point)
      decreases (if point == None then 1 else 0), Dist(s', rec, topV), TreesLeft(s', rd, rec)
    {
      var ok, progress, s1;
      ok, progress, s1 := RttSetS2ap(s', rd, rec, baseV, topV, pages(n));
      if cond {
        AsWrittenStep(s, s', s1, rd, rec, baseV, topV, n, count, next, base, pages(n), ok, progress);
      }
      if ok {
        CallProgresses(s', s1, rd, rec, baseV, topV, pages(n));
        base := progress;
      } else {
        point := Some(4);
      }
      s' := s1;
      n := n + 1;
    }
  }

  /**
   * The input that shows the as-written loop's flaw: a request over two
   * pages in a realm with one tree, and a monitor that handles one page per
   * call. The as-written loop stops at point 4, the intended one completes.
   */
  method TwoPagesOneTree(s: State, rd: int, rec: int, base: int, pages: nat -> Chunk)
    returns (asWritten: Option<int>, corrected: Option<int>)
    requires Valid(s) && RequestFresh(s, rd, rec, base, base + 2 * PAGE_SIZE) && RangeReady(s, rd, base, base + 2 * PAGE_SIZE)
    requires TreeCount(s.realms[rd]) == 1 && pages(0) == 1
    ensures asWritten == Some(4) && corrected == None
  {
    var s1, s2;
    asWritten, s1 := AdvanceAsWritten(s, rd, rec, base, base + 2 * PAGE_SIZE, pages);
    corrected, s2 := AdvanceToTop(s, rd, rec, base, base + 2 * PAGE_SIZE, pages);
  }

  // ---------------------------------------------------------------- the test

  /**
   * cmd_rtt_set_s2ap_host: skipped without planes; point 1 when the valid
   * arguments cannot be prepared; then the check loop (points 2 and 3) and
   * the positive check (point 4), here in its intended form.
   */
  method CmdRttSetS2apHost(s: State, image: int, first: RealmStep, second: RealmStep,
                           table: seq<Stimulus<Intent>>, oracles: seq<RoundOracle>, pages: nat -> Chunk)
    returns (v: Verdict, c: Store, outs: seq<Outcome>, s': State)
    requires Valid(s) && Fresh(s) && |oracles| == |table|
    ensures Valid(s') && s'.platform == s.platform
    ensures v == Skip <==> !s.platform.planes
    ensures v == Skip || v == Pass || v == Fail(1) || v == Fail(2) || v == Fail(3) || v == Fail(4)
    ensures (s.platform.planes && (Room(s) < SetupCost(s.platform, ValidParams(s.platform), 2)
                                   || !FeaturesOk(s.platform, ValidParams(s.platform)))) ==> v == Fail(1)
    ensures v != Skip && v != Fail(1) ==>
              |outs| <= |table| && RoundsSaw(outs, table, oracles, PageAligned(c), s.platform.treeSingle)
    ensures v == Fail(2) || v == Fail(3) ==> LoopStop(outs, table, LOOP_POINTS) == Some(v.point)
    ensures v == Pass || v == Fail(4) ==> |outs| == |table| && LoopStop(outs, table, LOOP_POINTS) == None
    ensures v == Pass && c.baseValid != c.topValid ==>
              c.recValid in s'.recs && s'.recs[c.recValid].s2ap.S2ap? && s'.recs[c.recValid].s2ap.base == c.topValid
    ensures (v == Pass || v == Fail(4)) && NoneAccepted(outs) && RequestShaped(c) ==> v == Pass
  {
    outs, s', c := [], s, Store(0, 0, 0, 0);
    if !s.platform.planes {
      return Skip, c, outs, s';
    }
    var ok, g, view, s1;
    ok, c, g, view, s1 := ValidPrep(s, image, first, second);
    s' := s1;
    if !ok {
      return Fail(1), c, outs, s';
    }
    assert Prepared(s1, c);
    var stop, s2;
    stop, outs, s2 := CheckLoop(s1, c, g, view, table, oracles);
    s' := s2;
    if stop.Some? {
      return Fail(stop.value), c, outs, s';
    }
    if NoneAccepted(outs) && RequestShaped(c) {
      PreparedReady(s2, c, g);
    }
    var point, s3;
    point, s3 := AdvanceToTop(s2, c.rdValid, c.recValid, c.baseValid, c.topValid, pages);
    s' := s3;
    v := if point == None then Pass else Fail(4);
  }
}
