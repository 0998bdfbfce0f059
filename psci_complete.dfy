/**
 * The PSCI_COMPLETE command test. The valid realm has three RECs; REC 0
 * runs first and must leave asking for PSCI CPU_ON, which leaves a request
 * pending on it. The valid arguments are REC 0 as the calling REC, REC 1 as
 * the target and PSCI_E_SUCCESS. The test walks its table of refused
 * argument sets and finally completes the request with the valid ones.
 *
 * Which MPIDR the realm asks to power on, and the codes of refused calls,
 * are the realm's and the monitor's business and come in as inputs.
 */
module PsciCompleteTest {
  import opened RmmTypes
  import opened Monitor
  import opened Host
  import opened Checks

  const LOOP_POINTS := Points(2, 3, 3)

  datatype Intent =
    | Alias
    | CallingUnaligned | CallingDevMem | CallingOutOfPermittedPa | CallingGranStateUndelegated
    | CallingGranStateDelegated | CallingGranStateRd | CallingGranStateRtt | CallingGranStateData
    | TargetUnaligned | TargetDevMem | TargetOutOfPermittedPa | TargetGranStateUndelegated
    | TargetGranStateDelegated | TargetGranStateRd | TargetGranStateRtt | TargetGranStateData
    | NoPsciRequest | TargetOtherOwner | TargetOtherMpidr | StatusNotPermitted
      /** A label intent_to_seq does not know. */
    | UnknownIntent

  /** The checks that change only the calling REC. */
  predicate IsCallingIntent(intent: Intent)
  {
    intent.CallingUnaligned? || intent.CallingDevMem? || intent.CallingOutOfPermittedPa?
    || intent.CallingGranStateUndelegated? || intent.CallingGranStateDelegated? || intent.CallingGranStateRd?
    || intent.CallingGranStateRtt? || intent.CallingGranStateData?
  }

  /** The checks that change only the target REC. */
  predicate IsTargetIntent(intent: Intent)
  {
    intent.TargetUnaligned? || intent.TargetDevMem? || intent.TargetOutOfPermittedPa?
    || intent.TargetGranStateUndelegated? || intent.TargetGranStateDelegated? || intent.TargetGranStateRd?
    || intent.TargetGranStateRtt? || intent.TargetGranStateData? || intent.TargetOtherOwner?
    || intent.TargetOtherMpidr?
  }

  /** The checks whose fixture can fail, which intent_to_seq reports as VAL_ERROR. */
  predicate ChecksFixture(intent: Intent)
  {
    intent.CallingGranStateUndelegated? || intent.CallingGranStateDelegated?
    || intent.TargetGranStateUndelegated? || intent.TargetGranStateDelegated? || intent.NoPsciRequest?
  }

  /**
   * The checks whose arguments the monitor refuses whatever the fixtures
   * did. The DATA checks pass the realm image, which this model does not
   * create; TARGET_OTHER_OWNER depends on an earlier NO_PSCI_REQUEST and
   * has a lemma of its own.
   */
  predicate Refusing(intent: Intent)
  {
    !intent.CallingGranStateData? && !intent.TargetGranStateData? && !intent.TargetOtherOwner?
    && !intent.UnknownIntent?
  }

  /** The argument store: the calling REC, the target REC and the status of the valid completion. */
  datatype Store = Store(callingValid: int, targetValid: int, statusValid: PsciStatus)

  datatype Arguments = Arguments(calling: int, target: int, status: PsciStatus)

  function ValidArgs(c: Store): Arguments
  {
    Arguments(c.callingValid, c.targetValid, c.statusValid)
  }

  /**
   * What else the test keeps of the valid realm: its RD, REC 2, its root
   * table, its image, and the MPIDR its CPU_ON request names.
   */
  datatype ValidRealm = ValidRealm(rd: int, rec2: int, root: int, image: int, asked: nat)

  /** What a label's fixture returned: a granule or a REC, and whether it failed. */
  datatype FixtureOut = FixtureOut(value: int, failed: bool)

  // ---------------------------------------------------------------- intent_to_seq

  /** The checks on the calling REC: the valid arguments with another calling REC. */
  function CallingIntentArgs(intent: Intent, c: Store, g: ValidRealm, p: SanePlatform, fx: FixtureOut): (r: Prep<Arguments>)
    requires IsCallingIntent(intent)
    ensures r == PrepError <==> ChecksFixture(intent) && fx.failed
    ensures r.Args? ==> r.args.(calling := c.callingValid) == ValidArgs(c)
  {
    var v := ValidArgs(c);
    match intent
    case CallingUnaligned => Args(v.(calling := Unaligned(c.callingValid)))
    case CallingDevMem => Args(v.(calling := DevMem(p)))
    case CallingOutOfPermittedPa => Args(v.(calling := OutsidePa(p)))
    case CallingGranStateUndelegated => if fx.failed then PrepError else Args(v.(calling := fx.value))
    case CallingGranStateDelegated => if fx.failed then PrepError else Args(v.(calling := fx.value))
    case CallingGranStateRd => Args(v.(calling := g.rd))
    case CallingGranStateRtt => Args(v.(calling := g.root))
    case CallingGranStateData => Args(v.(calling := g.image))
  }

  /** The checks on the target REC: the valid arguments with another target REC. */
  function TargetIntentArgs(intent: Intent, c: Store, g: ValidRealm, p: SanePlatform, fx: FixtureOut, second: int)
    : (r: Prep<Arguments>)
    requires IsTargetIntent(intent)
    ensures r == PrepError <==> ChecksFixture(intent) && fx.failed
    ensures r.Args? ==> r.args.(target := c.targetValid) == ValidArgs(c)
    ensures intent.TargetOtherOwner? ==> r == Args(ValidArgs(c).(target := second))
    ensures intent.TargetOtherMpidr? ==> r == Args(ValidArgs(c).(target := g.rec2))
  {
    var v := ValidArgs(c);
    match intent
    case TargetUnaligned => Args(v.(target := Unaligned(c.targetValid)))
    case TargetDevMem => Args(v.(target := DevMem(p)))
    case TargetOutOfPermittedPa => Args(v.(target := OutsidePa(p)))
    case TargetGranStateUndelegated => if fx.failed then PrepError else Args(v.(target := fx.value))
    case TargetGranStateDelegated => if fx.failed then PrepError else Args(v.(target := fx.value))
    case TargetGranStateRd => Args(v.(target := g.rd))
    case TargetGranStateRtt => Args(v.(target := g.root))
    case TargetGranStateData => Args(v.(target := g.image))
    case TargetOtherOwner => Args(v.(target := second))
    case TargetOtherMpidr => Args(v.(target := g.rec2))
  }

  /**
   * intent_to_seq: the arguments for each label, from the store, the valid
   * realm, what the label's fixture returned and REC 1 of the second realm
   * as the host last recorded it (`second`, 0 before any NO_PSCI_REQUEST).
   */
  function IntentToSeq(intent: Intent, c: Store, g: ValidRealm, p: SanePlatform, fx: FixtureOut, second: int)
    : (r: Prep<Arguments>)
    ensures r != PrepSkip
    ensures r == PrepError <==> intent.UnknownIntent? || (ChecksFixture(intent) && fx.failed)
    ensures r.Args? && IsCallingIntent(intent) ==> r.args.(calling := c.callingValid) == ValidArgs(c)
    ensures r.Args? && IsTargetIntent(intent) ==> r.args.(target := c.targetValid) == ValidArgs(c)
    ensures intent.Alias? ==> r == Args(ValidArgs(c).(calling := c.targetValid))
    ensures intent.NoPsciRequest? && !fx.failed ==> r == Args(Arguments(fx.value, second, c.statusValid))
    ensures intent.TargetOtherOwner? ==> r == Args(ValidArgs(c).(target := second))
    ensures intent.StatusNotPermitted? ==> r == Args(ValidArgs(c).(status := PsciNotSupported))
  {
    if IsCallingIntent(intent) then CallingIntentArgs(intent, c, g, p, fx)
    else if IsTargetIntent(intent) then TargetIntentArgs(intent, c, g, p, fx, second)
    else
      match intent
      case Alias => Args(ValidArgs(c).(calling := c.targetValid))
      case NoPsciRequest => if fx.failed then PrepError else Args(Arguments(fx.value, second, c.statusValid))
      case StatusNotPermitted => Args(ValidArgs(c).(status := PsciNotSupported))
      case UnknownIntent => PrepError
  }

  // ---------------------------------------------------------------- the store

  /**
   * The stored arguments still describe the state: REC 0, REC 1 and REC 2
   * are RECs of the valid realm with MPIDRs 0, 1 and 2, and the root table
   * is a table granule. REC 0's request is the CPU_ON it asked for, or
   * none once completed. The completion status is PSCI_E_SUCCESS.
   */
  ghost predicate StoreHolds(s: State, c: Store, g: ValidRealm)
  {
    g.rd in s.realms && c.statusValid == PsciSuccess
    && c.callingValid in s.recs && s.recs[c.callingValid].owner == g.rd && s.recs[c.callingValid].mpidr == 0
    && (s.recs[c.callingValid].psci == NoRequest || s.recs[c.callingValid].psci == Pending(CpuOn, g.asked))
    && c.targetValid in s.recs && s.recs[c.targetValid].owner == g.rd && s.recs[c.targetValid].mpidr == 1
    && g.rec2 in s.recs && s.recs[g.rec2].owner == g.rd && s.recs[g.rec2].mpidr == 2
    && GranuleAt(s, g.root) == Rtt
  }

  /** REC 0's CPU_ON request is still pending and REC 1 has not been powered on. */
  ghost predicate RequestPending(s: State, c: Store, g: ValidRealm)
  {
    c.callingValid in s.recs && s.recs[c.callingValid].psci == Pending(CpuOn, g.asked)
    && c.targetValid in s.recs && !s.recs[c.targetValid].runnable
  }

  /** REC 1 of the second realm, once recorded, is a REC of another realm. */
  ghost predicate SecondHolds(s: State, g: ValidRealm, second: int)
  {
    second != 0 ==> second in s.recs && s.recs[second].owner != g.rd
  }

  /** What the fixtures returned is what the checks rely on: no REC, or a REC that has no request pending. */
  ghost predicate FixtureFits(s: State, intent: Intent, fx: FixtureOut)
  {
    ((intent.CallingGranStateUndelegated? || intent.CallingGranStateDelegated?
      || intent.TargetGranStateUndelegated? || intent.TargetGranStateDelegated?) ==> fx.value !in s.recs)
    && (intent.NoPsciRequest? && !fx.failed ==> fx.value in s.recs && s.recs[fx.value].psci == NoRequest)
  }

  /** An address that is no valid granule, or whose granule is no REC granule, is no REC. */
  lemma NotRec(s: State, pa: int)
    requires Valid(s) && (!ValidPa(s.platform, pa) || GranuleAt(s, pa) != Rec)
    ensures pa !in s.recs
  {
    if !ValidPa(s.platform, pa) {
      assert pa !in s.granules;
    }
  }

  /** REC granules are aligned. */
  lemma RecAligned(s: State, rec: int)
    requires Valid(s) && rec in s.recs
    ensures rec % PAGE_SIZE == 0
  {
    assert StateOf(s.granules, rec) == Rec;
    assert rec in s.granules;
  }

  /** The refused calling-REC checks pass an address that is no REC. */
  lemma CallingIntentRefused(s: State, c: Store, g: ValidRealm, intent: Intent, fx: FixtureOut)
    requires Valid(s) && StoreHolds(s, c, g) && FixtureFits(s, intent, fx)
    requires IsCallingIntent(intent) && Refusing(intent) && CallingIntentArgs(intent, c, g, s.platform, fx).Args?
    ensures CallingIntentArgs(intent, c, g, s.platform, fx).args.calling !in s.recs
  {
    var a := CallingIntentArgs(intent, c, g, s.platform, fx).args;
    if intent.CallingUnaligned? {
      RecAligned(s, c.callingValid);
    }
    if intent.CallingGranStateRd? {
      assert StateOf(s.granules, g.rd) == Rd;
    }
    if !intent.CallingGranStateUndelegated? && !intent.CallingGranStateDelegated? {
      NotRec(s, a.calling);
    }
  }

  /** The refused target-REC checks pass an address that is no REC, or REC 2, whose MPIDR REC 0 did not ask for. */
  lemma TargetIntentRefused(s: State, c: Store, g: ValidRealm, intent: Intent, fx: FixtureOut, second: int)
    requires Valid(s) && StoreHolds(s, c, g) && FixtureFits(s, intent, fx)
    requires IsTargetIntent(intent) && Refusing(intent) && TargetIntentArgs(intent, c, g, s.platform, fx, second).Args?
    requires !intent.TargetOtherMpidr?
    ensures TargetIntentArgs(intent, c, g, s.platform, fx, second).args.target !in s.recs
  {
    var a := TargetIntentArgs(intent, c, g, s.platform, fx, second).args;
    if intent.TargetUnaligned? {
      RecAligned(s, c.targetValid);
    }
    if intent.TargetGranStateRd? {
      assert StateOf(s.granules, g.rd) == Rd;
    }
    if !intent.TargetGranStateUndelegated? && !intent.TargetGranStateDelegated? {
      NotRec(s, a.target);
    }
  }

  /**
   * Every refusing check's arguments are refused, TARGET_OTHER_MPIDR when
   * REC 0 did not name REC 2's MPIDR.
   */
  lemma IntentRefused(s: State, c: Store, g: ValidRealm, intent: Intent, fx: FixtureOut, second: int)
    requires Valid(s) && StoreHolds(s, c, g) && FixtureFits(s, intent, fx)
    requires Refusing(intent) && (intent.TargetOtherMpidr? ==> g.asked != 2)
    requires IntentToSeq(intent, c, g, s.platform, fx, second).Args?
    ensures var a := IntentToSeq(intent, c, g, s.platform, fx, second).args;
            !PsciCompleteOk(s, a.calling, a.target, a.status)
  {
    if IsCallingIntent(intent) {
      CallingIntentRefused(s, c, g, intent, fx);
    } else if IsTargetIntent(intent) && !intent.TargetOtherMpidr? {
      assert IntentToSeq(intent, c, g, s.platform, fx, second) == TargetIntentArgs(intent, c, g, s.platform, fx, second);
      TargetIntentRefused(s, c, g, intent, fx, second);
    }
  }

  /** TARGET_OTHER_OWNER after a NO_PSCI_REQUEST: the target is a REC of another realm, which the monitor refuses. */
  lemma OtherOwnerRefused(s: State, c: Store, g: ValidRealm, fx: FixtureOut, second: int)
    requires StoreHolds(s, c, g) && SecondHolds(s, g, second) && second != 0
    ensures var a := IntentToSeq(TargetOtherOwner, c, g, s.platform, fx, second).args;
            !PsciCompleteOk(s, a.calling, a.target, a.status)
  {
  }

  /**
   * With REC 0's request pending, completing it with the valid arguments
   * succeeds exactly when REC 0 asked for REC 1's MPIDR.
   */
  lemma ValidCompletion(s: State, c: Store, g: ValidRealm)
    requires Valid(s) && StoreHolds(s, c, g) && RequestPending(s, c, g)
    ensures PsciCompleteOk(s, c.callingValid, c.targetValid, c.statusValid) <==> g.asked == 1
  {
    assert StateOf(s.granules, c.callingValid) == Rec && StateOf(s.granules, c.targetValid) == Rec;
    assert c.callingValid in s.granules && c.targetValid in s.granules;
  }

  // ---------------------------------------------------------------- fixtures

  /**
   * NO_PSCI_REQUEST: a second realm with two runnable RECs, never entered;
   * its REC 0 is the calling REC and its REC 1 is what TARGET_OTHER_OWNER
   * later passes.
   */
  method SecondRealm(s: State) returns (ok: bool, rec0: int, rec1: int, s': State)
    requires Valid(s) && Fresh(s)
    ensures Keeps(s, s') && s'.rtts == s.rtts
    ensures ok <==> Room(s) >= SetupCost(s.platform, DEFAULT_REALM, 2)
    ensures forall r :: r in s.recs ==> r in s'.recs && s'.recs[r] == s.recs[r]
    ensures forall rd :: rd in s.realms ==> rd in s'.realms && s'.realms[rd] == s.realms[rd]
    ensures ok ==> rec0 in s'.recs && rec0 !in s.recs && s'.recs[rec0].psci == NoRequest
    ensures ok ==> rec1 in s'.recs && rec1 !in s.recs && s'.recs[rec1].owner !in s.realms
  {
    var rd, root, aux, s1;
    ok, rd, root, aux, s1 := RealmCreateCommon(s, DEFAULT_REALM);
    rec0, rec1, s' := 0, 0, s1;
    if !ok {
      return;
    }
    var recs;
    ok, recs, s' := RecCreateCommon(s1, rd, 2, AllRunnable);
    KeepsTrans(s, s1, s');
    if ok {
      rec0, rec1 := recs[0], recs[1];
    }
  }

  /**
   * The fixture a check runs before intent_to_seq builds its arguments,
   * and REC 1 of the second realm as the host records it afterwards
   * (cleared when a NO_PSCI_REQUEST fixture fails).
   */
  method RunFixture(s: State, c: Store, g: ValidRealm, second: int, intent: Intent)
    returns (fx: FixtureOut, second': int, s': State)
    requires Valid(s) && Fresh(s) && StoreHolds(s, c, g) && SecondHolds(s, g, second)
    ensures Keeps(s, s') && StoreHolds(s', c, g) && SecondHolds(s', g, second') && FixtureFits(s', intent, fx)
    ensures RequestPending(s, c, g) ==> RequestPending(s', c, g)
    ensures !ChecksFixture(intent) ==> !fx.failed && s' == s
    ensures !intent.NoPsciRequest? ==> second' == second
    ensures ChecksFixture(intent) && !intent.NoPsciRequest? ==> (fx.failed <==> Room(s) < PAGE_SIZE)
    ensures intent.NoPsciRequest? ==> (fx.failed <==> Room(s) < SetupCost(s.platform, DEFAULT_REALM, 2))
  {
    fx, second', s' := FixtureOut(0, false), second, s;
    KeptUnchanged(s, s);
    var ok, pa;
    if intent.CallingGranStateUndelegated? || intent.TargetGranStateUndelegated? {
      ok, pa, s' := NewGranule(s);
      UntrackedNotRealm(s, pa);
      fx := FixtureOut(pa, !ok);
    } else if intent.CallingGranStateDelegated? || intent.TargetGranStateDelegated? {
      ok, pa, s' := DelegatedGranule(s);
      UntrackedNotRealm(s, pa);
      fx := FixtureOut(pa, !ok);
    } else if intent.NoPsciRequest? {
      var rec0, rec1;
      ok, rec0, rec1, s' := SecondRealm(s);
      fx := FixtureOut(rec0, !ok);
      second' := if ok then rec1 else 0;
    }
  }

  // ---------------------------------------------------------------- the valid arguments

  /**
   * valid_input_args_prep_sequence: the valid realm with three RECs,
   * activated; REC 0 runs and must leave with PSCI CPU_ON. When the
   * preparation succeeds the store holds, REC 0's request is pending, and
   * the MPIDR it names is the one the realm's exit carried.
   */
  method ValidPrep(s: State, image: int, first: RealmStep) returns (ok: bool, c: Store, g: ValidRealm, s': State)
    requires Valid(s) && Fresh(s)
    ensures Keeps(s, s')
    ensures ok ==> Room(s) >= SetupCost(s.platform, DEFAULT_REALM, 3)
    ensures (Room(s) >= SetupCost(s.platform, DEFAULT_REALM, 3) && first.Exits? && first.exit.PsciExit?
             && first.exit.fid == CpuOn) ==> ok
    ensures ok ==> StoreHolds(s', c, g) && RequestPending(s', c, g)
    ensures ok && first.Exits? ==> first.exit == PsciExit(CpuOn, g.asked)
  {
    var rd, recs, s1;
    ok, rd, recs, s1 := RealmSetup(s, DEFAULT_REALM, 3, true);
    c, g, s' := Store(0, 0, PsciSuccess), ValidRealm(0, 0, 0, image, 0), s1;
    if !ok {
      return;
    }
    var root := s1.realms[rd].root;
    var r, s2 := RecEnter(s1, recs[0], first);
    KeptUnchanged(s1, s2);
    KeepsTrans(s, s1, s2);
    s' := s2;
    ok := r.Entered? && r.exit.PsciExit? && r.exit.fid == CpuOn;
    if ok {
      c := Store(recs[0], recs[1], PsciSuccess);
      g := ValidRealm(rd, recs[2], root, image, r.exit.target);
    }
  }

  // ---------------------------------------------------------------- the check loop

  /** What a round of the loop can have seen, given the refusal the monitor would give. */
  predicate RoundSaw(o: Outcome, refusal: ErrorCode, intent: Intent, asked: nat)
  {
    (o.Got? ==> o.code == SUCCESS || o.code == refusal)
    && (o.Got? && Refusing(intent) && (intent.TargetOtherMpidr? ==> asked != 2) ==> o.code == refusal)
    && !o.BadOutput? && !o.Skipped?
    && (o.PrepFailed? ==> intent.UnknownIntent? || ChecksFixture(intent))
    && (intent.UnknownIntent? ==> o.PrepFailed?)
  }

  /** A PSCI_COMPLETE call, accepted or not, keeps the store and the second realm; a refused one keeps REC 0's request. */
  lemma CompletionKeeps(s: State, s': State, c: Store, g: ValidRealm, second: int, a: Arguments, ok: bool)
    requires StoreHolds(s, c, g) && SecondHolds(s, g, second)
    requires ok <==> PsciCompleteOk(s, a.calling, a.target, a.status)
    requires s'.granules == s.granules && s'.realms == s.realms
    requires s'.recs == if ok then s.recs[a.calling := s.recs[a.calling].(psci := NoRequest)]
                                         [a.target := s.recs[a.target].(runnable :=
                                             s.recs[a.target].runnable || s.recs[a.calling].psci.fid == CpuOn)] else s.recs
    ensures StoreHolds(s', c, g) && SecondHolds(s', g, second)
    ensures RequestPending(s, c, g) && !ok ==> RequestPending(s', c, g)
  {
  }

  /**
   * One round of the check loop after its fixture: intent_to_seq, and the
   * command when the label gave arguments. Only an accepted call changes
   * REC 0's request.
   */
  method Issue(s: State, c: Store, g: ValidRealm, second: int, intent: Intent, fx: FixtureOut, refusal: ErrorCode)
    returns (out: Outcome, s': State)
    requires Valid(s) && Fresh(s) && StoreHolds(s, c, g) && SecondHolds(s, g, second) && FixtureFits(s, intent, fx)
    requires !ChecksFixture(intent) ==> !fx.failed
    ensures Keeps(s, s') && StoreHolds(s', c, g) && SecondHolds(s', g, second)
    ensures RoundSaw(out, refusal, intent, g.asked)
    ensures intent.TargetOtherOwner? && second != 0 ==> out == Got(refusal)
    ensures RequestPending(s, c, g) && out != Got(SUCCESS) ==> RequestPending(s', c, g)
  {
    s' := s;
    KeptUnchanged(s, s);
    var prep := IntentToSeq(intent, c, g, s.platform, fx, second);
    if prep == PrepError {
      return PrepFailed, s';
    }
    var a := prep.args;
    if Refusing(intent) && (intent.TargetOtherMpidr? ==> g.asked != 2) {
      IntentRefused(s, c, g, intent, fx, second);
    } else if intent.TargetOtherOwner? && second != 0 {
      OtherOwnerRefused(s, c, g, fx, second);
    }
    var ok;
    ok, s' := PsciComplete(s, a.calling, a.target, a.status);
    KeptUnchanged(s, s');
    CompletionKeeps(s, s', c, g, second, a, ok);
    out := Got(Returned(ok, refusal));
  }

  /** One round of the check loop: the label's fixture, then intent_to_seq and the command. */
  method CheckRound(s: State, c: Store, g: ValidRealm, second: int, st: Stimulus<Intent>, refusal: ErrorCode)
    returns (out: Outcome, second': int, s': State)
    requires Valid(s) && Fresh(s) && StoreHolds(s, c, g) && SecondHolds(s, g, second)
    ensures Keeps(s, s') && StoreHolds(s', c, g) && SecondHolds(s', g, second')
    ensures RoundSaw(out, refusal, st.intent, g.asked)
    ensures st.intent.TargetOtherOwner? && second != 0 ==> out == Got(refusal)
    ensures RequestPending(s, c, g) && out != Got(SUCCESS) ==> RequestPending(s', c, g)
  {
    var fx, s1;
    fx, second', s1 := RunFixture(s, c, g, second, st.intent);
    out, s' := Issue(s1, c, g, second', st.intent, fx, refusal);
    KeepsTrans(s, s1, s');
  }

  /** What the rounds `outs` of the loop over `table` have seen. */
  ghost predicate RoundsSaw(outs: seq<Outcome>, table: seq<Stimulus<Intent>>, refusals: seq<ErrorCode>, asked: nat)
    requires |outs| <= |table| == |refusals|
  {
    forall i :: 0 <= i < |outs| ==> RoundSaw(outs[i], refusals[i], table[i].intent, asked)
  }

  lemma RoundsSawNext(outs: seq<Outcome>, o: Outcome, table: seq<Stimulus<Intent>>, refusals: seq<ErrorCode>, asked: nat)
    requires |outs| < |table| == |refusals|
    requires RoundsSaw(outs, table, refusals, asked) && RoundSaw(o, refusals[|outs|], table[|outs|].intent, asked)
    ensures RoundsSaw(outs + [o], table, refusals, asked)
    ensures NoneAccepted(outs + [o]) <==> NoneAccepted(outs) && o != Got(SUCCESS)
  {
    assert forall i :: 0 <= i < |outs| ==> (outs + [o])[i] == outs[i];
    assert (outs + [o])[|outs|] == o;
  }

  /** The loop state: the rounds so far and what they kept. */
  ghost predicate LoopHolds(s0: State, s: State, c: Store, g: ValidRealm, second: int,
                            table: seq<Stimulus<Intent>>, refusals: seq<ErrorCode>, outs: seq<Outcome>)
  {
    |outs| <= |table| == |refusals|
    && Keeps(s0, s) && StoreHolds(s, c, g) && SecondHolds(s, g, second)
    && RoundsSaw(outs, table, refusals, g.asked)
    && (RequestPending(s0, c, g) && NoneAccepted(outs) ==> RequestPending(s, c, g))
  }

  /** One more round of the check loop, appended to the rounds before it. */
  method CheckNext(s0: State, s: State, c: Store, g: ValidRealm, second: int, table: seq<Stimulus<Intent>>,
                   refusals: seq<ErrorCode>, outs: seq<Outcome>)
    returns (outs': seq<Outcome>, second': int, s': State)
    requires Valid(s0) && Fresh(s0) && |outs| < |table|
    requires LoopHolds(s0, s, c, g, second, table, refusals, outs)
    ensures LoopHolds(s0, s', c, g, second', table, refusals, outs') && |outs'| == |outs| + 1
    ensures LoopStop(outs, table, LOOP_POINTS) == None ==>
              LoopStop(outs', table, LOOP_POINTS) == RoundStop(outs'[|outs|], table[|outs|].expected, LOOP_POINTS)
  {
    var k := |outs|;
    var o;
    o, second', s' := CheckRound(s, c, g, second, table[k], refusals[k]);
    KeepsTrans(s0, s, s');
    if LoopStop(outs, table, LOOP_POINTS) == None {
      LoopStopNext(outs, o, table, LOOP_POINTS);
    }
    outs' := outs + [o];
    RoundsSawNext(outs, o, table, refusals, g.asked);
  }

  /**
   * The check loop: one round per stimulus until a preparation fails
   * (point 2) or a code differs from the expected one (point 3).
   */
  method CheckLoop(s: State, c: Store, g: ValidRealm, table: seq<Stimulus<Intent>>, refusals: seq<ErrorCode>)
    returns (stop: Option<int>, outs: seq<Outcome>, s': State)
    requires Valid(s) && Fresh(s) && StoreHolds(s, c, g) && |refusals| == |table|
    ensures Keeps(s, s') && StoreHolds(s', c, g)
    ensures |outs| <= |table| && stop == LoopStop(outs, table, LOOP_POINTS)
    ensures stop == None ==> |outs| == |table|
    ensures RoundsSaw(outs, table, refusals, g.asked)
    ensures RequestPending(s, c, g) && NoneAccepted(outs) ==> RequestPending(s', c, g)
  {
    var second := 0;
    outs, s', stop := [], s, None;
    KeptUnchanged(s, s);
    while |outs| < |table| && stop == None
      invariant LoopHolds(s, s', c, g, second, table, refusals, outs)
      invariant stop == LoopStop(outs, table, LOOP_POINTS)
      decreases |table| - |outs|
    {
      outs, second, s' := CheckNext(s, s', c, g, second, table, refusals, outs);
      stop := LoopStop(outs, table, LOOP_POINTS);
    }
  }

  // ---------------------------------------------------------------- the test

  /**
   * The positive check: PSCI_COMPLETE with the valid arguments. With REC
   * 0's request still pending it succeeds exactly when REC 0 asked for REC
   * 1's MPIDR; success leaves REC 0 with no request and REC 1 runnable.
   */
  method CompleteValid(s: State, c: Store, g: ValidRealm) returns (ok: bool, s': State)
    requires Valid(s) && StoreHolds(s, c, g)
    ensures Valid(s') && s'.platform == s.platform
    ensures RequestPending(s, c, g) ==> (ok <==> g.asked == 1)
    ensures ok ==> c.callingValid in s'.recs && s'.recs[c.callingValid].psci == NoRequest
                   && c.targetValid in s'.recs && s'.recs[c.targetValid].runnable
  {
    if RequestPending(s, c, g) {
      ValidCompletion(s, c, g);
    }
    ok, s' := PsciComplete(s, c.callingValid, c.targetValid, c.statusValid);
  }

  /**
   * cmd_psci_complete_host: point 1 when the valid arguments cannot be
   * prepared, then the check loop (points 2 and 3), then the completion
   * with the valid arguments (point 4). When no check was accepted the test
   * passes exactly when REC 0 asked to power on REC 1, and a pass leaves
   * REC 0 with no request pending and REC 1 runnable.
   */
  method CmdPsciCompleteHost(s: State, image: int, first: RealmStep, table: seq<Stimulus<Intent>>, refusals: seq<ErrorCode>)
    returns (v: Verdict, c: Store, g: ValidRealm, outs: seq<Outcome>, s': State)
    requires Valid(s) && Fresh(s) && |refusals| == |table|
    ensures Valid(s') && s'.platform == s.platform
    ensures v == Pass || v == Fail(1) || v == Fail(2) || v == Fail(3) || v == Fail(4)
    ensures Room(s) < SetupCost(s.platform, DEFAULT_REALM, 3) ==> v == Fail(1)
    ensures (Room(s) >= SetupCost(s.platform, DEFAULT_REALM, 3) && first.Exits? && first.exit.PsciExit?
             && first.exit.fid == CpuOn) ==> v != Fail(1)
    ensures v != Fail(1) ==> |outs| <= |table| && RoundsSaw(outs, table, refusals, g.asked)
    ensures v != Fail(1) && first.Exits? ==> first.exit == PsciExit(CpuOn, g.asked)
    ensures v == Fail(2) || v == Fail(3) ==> LoopStop(outs, table, LOOP_POINTS) == Some(v.point)
    ensures v == Pass || v == Fail(4) ==> |outs| == |table| && LoopStop(outs, table, LOOP_POINTS) == None
    ensures (v == Pass || v == Fail(4)) && NoneAccepted(outs) ==> (v == Pass <==> g.asked == 1)
    ensures v == Pass ==> c.callingValid in s'.recs && s'.recs[c.callingValid].psci == NoRequest
                          && c.targetValid in s'.recs && s'.recs[c.targetValid].runnable
  {
    outs := [];
    var ok, s1;
    ok, c, g, s1 := ValidPrep(s, image, first);
    s' := s1;
    v := Fail(1);
    if ok {
      var stop, s2;
      stop, outs, s2 := CheckLoop(s1, c, g, table, refusals);
      s' := s2;
      if stop.Some? {
        v := Fail(stop.value);
      } else {
        ok, s' := CompleteValid(s2, c, g);
        v := if ok then Pass else Fail(4);
      }
    }
  }
}
