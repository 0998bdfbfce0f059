/**
 * The SYSTEM_RESET command test. A realm with one REC is set up and
 * activated; its REC calls PSCI SYSTEM_RESET, which the monitor reports
 * as a PSCI exit and records by switching the realm off. Entering the REC
 * again must then be refused with (ERROR_REALM, 1).
 */
module SystemResetTest {
  import opened RmmTypes
  import opened Rtt
  import opened Monitor
  import opened Host
  import opened Checks

  /**
   * The code REC_ENTER returns: SUCCESS when the REC ran, (ERROR_REALM, 1)
   * for a REC of a switched-off realm, and the monitor's refusal otherwise.
   */
  function EnterCode(r: EnterResult, refusal: ErrorCode): (c: Code)
    ensures c == SUCCESS <==> r.Entered?
    ensures r.RealmOff? ==> c == REALM_OFF_CODE
    ensures r.Refused? ==> c == refusal
  {
    match r
    case Entered(_) => SUCCESS
    case RealmOff => REALM_OFF_CODE
    case Refused => refusal
  }

  /** The first exit is the one the test waits for: a PSCI exit for SYSTEM_RESET. */
  predicate IsReset(e: RecExit)
  {
    e.PsciExit? && e.fid == SystemReset
  }

  /**
   * The realm and its REC: setup of an active realm with one REC, and
   * the first REC_ENTER. `first` is what the realm's code does when REC 0
   * runs. A new active realm's first REC always runs.
   */
  method FirstEntry(s: State, first: RealmStep) returns (ok: bool, rec: int, r: EnterResult, s': State)
    requires Valid(s) && Fresh(s)
    ensures Keeps(s, s')
    ensures ok <==> Room(s) >= SetupCost(s.platform, DEFAULT_REALM, 1)
    ensures ok ==> r.Entered? && rec in s'.recs && s'.recs[rec].owner in s'.realms
    ensures ok && first.Exits? ==> r.exit == first.exit
    ensures ok && IsReset(r.exit) ==> RealmIsOff(s', rec)
  {
    var rd, recs, s1;
    ok, rd, recs, s1 := RealmSetup(s, DEFAULT_REALM, 1, true);
    rec, r, s' := 0, Refused, s1;
    if ok {
      rec := recs[0];
      assert EnterOk(s1, rec);
      r, s' := RecEnter(s1, rec, first);
      KeptUnchanged(s1, s');
      KeepsTrans(s, s1, s');
    }
  }

  /**
   * cmd_system_reset_host: point 1 when the realm cannot be set up, point
   * 2 when the first REC_ENTER fails, point 3 when its exit is not a PSCI
   * SYSTEM_RESET, point 4 when the second REC_ENTER returns anything but
   * (ERROR_REALM, 1). Points 2 and 4 are never reached: the test passes
   * exactly when there is room for the realm and its REC calls
   * SYSTEM_RESET, and the realm is then off.
   */
  method CmdSystemResetHost(s: State, first: RealmStep, again: RealmStep, refusal: ErrorCode)
    returns (v: Verdict, exit: RecExit, second: Code, s': State)
    requires Valid(s) && Fresh(s)
    ensures Valid(s') && s'.platform == s.platform
    ensures v == Pass || v == Fail(1) || v == Fail(3)
    ensures v == Fail(1) <==> Room(s) < SetupCost(s.platform, DEFAULT_REALM, 1)
    ensures v != Fail(1) && first.Exits? ==> exit == first.exit
    ensures v == Pass <==> v != Fail(1) && IsReset(exit)
    ensures v == Pass ==> second == REALM_OFF_CODE
    ensures Room(s) >= SetupCost(s.platform, DEFAULT_REALM, 1) && first.Exits? ==> (v == Pass <==> IsReset(first.exit))
  {
    second := SUCCESS;
    var ok, rec, r, s1 := FirstEntry(s, first);
    s', exit := s1, HostCallExit;
    if !ok {
      return Fail(1), exit, second, s';
    }
    exit := r.exit;
    if !IsReset(exit) {
      return Fail(3), exit, second, s';
    }
    var r2;
    r2, s' := RecEnter(s1, rec, again);
    second := EnterCode(r2, refusal);
    v := if second == REALM_OFF_CODE then Pass else Fail(4);
  }
}
