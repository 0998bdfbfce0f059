/**
 * The multithreaded realm bring-up test. REC 0 of an active realm with two
 * RECs asks PSCI CPU_ON for MPIDR 1; the host completes the request with
 * REC 1 as the target, which makes REC 1 runnable; REC 1 runs and calls
 * CPU_OFF; REC 0 resumes and makes a host call.
 */
module MultithreadRealmUpTest {
  import opened RmmTypes
  import opened Rtt
  import opened Monitor
  import opened Host
  import opened Checks

  predicate IsPsci(e: RecExit, fid: PsciFn)
  {
    e.PsciExit? && e.fid == fid
  }

  /** Both RECs belong to one active realm, are distinct, and can be entered. */
  ghost predicate BothRun(s: State, rec0: int, rec1: int)
  {
    rec0 != rec1 && EnterOk(s, rec0) && EnterOk(s, rec1) && s.recs[rec0].owner == s.recs[rec1].owner
  }

  /**
   * The host side up to PSCI_COMPLETE: setup of an active realm with two
   * RECs (point 1), REC_ENTER of REC 0 (point 2), its exit checked for
   * CPU_ON (point 3), and PSCI_COMPLETE(REC 0, REC 1, SUCCESS) (point 4).
   * `first` is what the realm's code does when REC 0 runs. The completion
   * is accepted exactly when REC 0 asked for the MPIDR REC 1 has, 1; the
   * entry never fails.
   */
  method PowerOn(s: State, first: RealmStep) returns (point: Option<int>, rec0: int, rec1: int, e0: RecExit, s': State)
    requires Valid(s) && Fresh(s)
    ensures Keeps(s, s')
    ensures point == None || point == Some(1) || point == Some(3) || point == Some(4)
    ensures point == Some(1) <==> Room(s) < SetupCost(s.platform, DEFAULT_REALM, 2)
    ensures point != Some(1) && first.Exits? ==> e0 == first.exit
    ensures point != Some(1) ==> (point == Some(3) <==> !IsPsci(e0, CpuOn))
    ensures point != Some(1) && IsPsci(e0, CpuOn) ==> (point == Some(4) <==> e0.target != 1)
    ensures point == None ==> e0 == PsciExit(CpuOn, 1) && BothRun(s', rec0, rec1)
  {
    var rd, recs, s1;
    var ok;
    ok, rd, recs, s1 := RealmSetup(s, DEFAULT_REALM, 2, true);
    rec0, rec1, e0, s' := 0, 0, HostCallExit, s1;
    if !ok {
      return Some(1), rec0, rec1, e0, s';
    }
    rec0, rec1 := recs[0], recs[1];
    assert EnterOk(s1, rec0);
    var r, s2 := RecEnter(s1, rec0, first);
    KeptUnchanged(s1, s2);
    KeepsTrans(s, s1, s2);
    s', e0 := s2, r.exit;
    if !IsPsci(e0, CpuOn) {
      return Some(3), rec0, rec1, e0, s';
    }
    assert s2.recs[rec1] == s1.recs[rec1] && s2.realms[rd] == s1.realms[rd];
    var s3;
    ok, s3 := PsciComplete(s2, rec0, rec1, PsciSuccess);
    KeptUnchanged(s2, s3);
    KeepsTrans(s, s2, s3);
    s' := s3;
    point := if ok then None else Some(4);
  }

  /**
   * The host side after PSCI_COMPLETE: REC_ENTER of REC 1 (point 5), its
   * exit checked for CPU_OFF (point 6), REC_ENTER of REC 0 (point 7) and
   * its exit checked for a host call (point 8). Neither entry fails, and
   * REC 1 is left not runnable.
   */
  method PowerOff(s: State, rec0: int, rec1: int, second: RealmStep, third: RealmStep)
    returns (point: Option<int>, e1: RecExit, e2: RecExit, s': State)
    requires Valid(s) && Fresh(s) && BothRun(s, rec0, rec1)
    ensures Keeps(s, s')
    ensures point == None || point == Some(6) || point == Some(8)
    ensures second.Exits? ==> e1 == second.exit
    ensures point == Some(6) <==> !IsPsci(e1, CpuOff)
    ensures IsPsci(e1, CpuOff) && third.Exits? ==> e2 == third.exit
    ensures IsPsci(e1, CpuOff) ==> (point == Some(8) <==> !e2.HostCallExit?)
    ensures point == None ==> rec0 in s'.recs && rec1 in s'.recs && !s'.recs[rec1].runnable && s'.recs[rec0].psci == NoRequest
  {
    var r, s1 := RecEnter(s, rec1, second);
    KeptUnchanged(s, s1);
    s', e1, e2 := s1, r.exit, HostCallExit;
    if !IsPsci(e1, CpuOff) {
      return Some(6), e1, e2, s';
    }
    assert EnterOk(s1, rec0);
    var r2;
    r2, s' := RecEnter(s1, rec0, third);
    KeptUnchanged(s1, s');
    KeepsTrans(s, s1, s');
    e2 := r2.exit;
    point := if e2.HostCallExit? then None else Some(8);
  }

  /**
   * cmd_multithread_realm_up_host. Points 2, 5 and 7 (a failed REC_ENTER)
   * are never reached. The test passes exactly when there is room for the
   * realm and the realm's code does what the test expects of it: REC 0
   * asks CPU_ON for MPIDR 1, REC 1 calls CPU_OFF, and REC 0 then makes a
   * host call; REC 1 is then off again and REC 0 has no pending request.
   */
  method CmdMultithreadRealmUpHost(s: State, first: RealmStep, second: RealmStep, third: RealmStep)
    returns (v: Verdict, rec0: int, rec1: int, exits: seq<RecExit>, s': State)
    requires Valid(s) && Fresh(s)
    ensures Valid(s') && s'.platform == s.platform
    ensures v == Pass || v == Fail(1) || v == Fail(3) || v == Fail(4) || v == Fail(6) || v == Fail(8)
    ensures v == Fail(1) <==> Room(s) < SetupCost(s.platform, DEFAULT_REALM, 2)
    ensures v == Fail(4) ==> |exits| == 1 && IsPsci(exits[0], CpuOn) && exits[0].target != 1
    ensures v == Pass ==> |exits| == 3 && exits[0] == PsciExit(CpuOn, 1) && IsPsci(exits[1], CpuOff) && exits[2] == HostCallExit
    ensures v == Pass ==> rec0 in s'.recs && rec1 in s'.recs && !s'.recs[rec1].runnable && s'.recs[rec0].psci == NoRequest
    ensures v != Fail(1) ==> 1 <= |exits| <= 3
    ensures v != Fail(1) && first.Exits? ==> exits[0] == first.exit
    ensures |exits| >= 2 && second.Exits? ==> exits[1] == second.exit
    ensures |exits| == 3 && third.Exits? ==> exits[2] == third.exit
    ensures (Room(s) >= SetupCost(s.platform, DEFAULT_REALM, 2) && first == Exits(PsciExit(CpuOn, 1))
             && second.Exits? && IsPsci(second.exit, CpuOff) && third == Exits(HostCallExit)) ==> v == Pass
  {
    var point, e0, s1;
    point, rec0, rec1, e0, s1 := PowerOn(s, first);
    s', exits := s1, [];
    if point.Some? {
      v := Fail(point.value);
      if point != Some(1) {
        exits := [e0];
      }
      return;
    }
    var e1, e2;
    point, e1, e2, s' := PowerOff(s1, rec0, rec1, second, third);
    exits := if point == Some(6) then [e0, e1] else [e0, e1, e2];
    v := if point.Some? then Fail(point.value) else Pass;
  }
}
