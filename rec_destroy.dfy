/**
 * The REC_DESTROY command test. The valid REC is the one REC of a new
 * realm; every intent of the table names a granule that is no REC, which
 * the command must refuse, and then the valid REC is destroyed. The table
 * is an input: a row that expects SUCCESS can let a round destroy a REC.
 *
 * The driver's check of the valid preparation compares the code
 * valid_input_args_prep_sequence returns (VAL_ERROR on failure) with
 * VAL_TEST_PREP_SEQ_FAILED. The framework's status constants are not part
 * of this model; they come in as `ValCodes`, and the driver as written is
 * modelled beside the corrected one.
 */
module RecDestroyTest {
  import opened RmmTypes
  import opened Rtt
  import opened Monitor
  import opened Host
  import opened Checks

  const IPA_ADDR_DATA: int := 5 * PAGE_SIZE

  const LOOP_POINTS := Points(2, 3, 3)

  datatype Intent =
    | RecUnaligned | RecOutsideOfPermittedPa | RecDevMem | RecGranStateUndelegated
    | RecGranStateRd | RecGranStateRecAux | RecGranStateRtt | RecGranStateData
      /** A label intent_to_seq does not know. */
    | UnknownIntent

  /** The checks whose fixture can fail, which intent_to_seq reports as VAL_ERROR. */
  predicate ChecksFixture(intent: Intent)
  {
    intent.RecGranStateUndelegated? || intent.RecGranStateRecAux? || intent.RecGranStateData?
  }

  /** The argument store, and the valid realm's RD and root table. */
  datatype Store = Store(recValid: int, rd: int, rttL0: int)

  /**
   * What every round keeps of the stored arguments: the valid realm, not
   * yet activated, with its root table, and the aligned address of the
   * valid REC.
   */
  ghost predicate StoreBase(s: State, c: Store)
  {
    c.rd in s.realms && s.realms[c.rd].state == RealmNew && GranuleAt(s, c.rttL0) == Rtt
    && c.recValid % PAGE_SIZE == 0
  }

  /** The stored arguments still describe the state: StoreBase, and the valid REC is one of the realm's RECs. */
  ghost predicate StoreHolds(s: State, c: Store)
  {
    StoreBase(s, c) && c.recValid in s.recs && s.recs[c.recValid].owner == c.rd
  }

  // ---------------------------------------------------------------- the valid arguments

  /**
   * rec_valid_prep_sequence: a new realm and one REC of it, created with
   * all-zero parameters (so not runnable). It succeeds exactly when there
   * is memory for the realm and the REC.
   */
  method ValidPrep(s: State) returns (ok: bool, c: Store, s': State)
    requires Valid(s) && Fresh(s)
    ensures Keeps(s, s')
    ensures ok <==> Room(s) >= SetupCost(s.platform, DEFAULT_REALM, 1)
    ensures ok ==> StoreHolds(s', c) && !s'.recs[c.recValid].runnable
  {
    var rd, root, aux, s1;
    ok, rd, root, aux, s1 := RealmCreateCommon(s, DEFAULT_REALM);
    c, s' := Store(0, rd, root), s1;
    if !ok {
      return;
    }
    var recs;
    ok, recs, s' := RecCreateCommon(s1, rd, 1, NoneRunnable);
    KeepsTrans(s, s1, s');
    if ok {
      c := Store(recs[0], rd, root);
      assert StateOf(s'.granules, recs[0]) == Rec;
    }
  }

  // ---------------------------------------------------------------- intent_to_seq

  /**
   * The granules the REC_GRAN_STATE_REC_AUX fixture gives REC_CREATE: a
   * delegated REC granule, a host page for the REC parameters, and as many
   * delegated auxiliary granules as RMI_REC_AUX_COUNT reports. A failed
   * allocation of the parameter page fails the fixture, as the other
   * fixtures' allocations do (ParamsAsWritten is the unchecked original).
   */
  method RecAuxGranules(s: State, c: Store) returns (ok: bool, rec: int, aux: seq<int>, s': State)
    requires Valid(s) && Fresh(s) && StoreBase(s, c)
    ensures Keeps(s, s') && s'.realms == s.realms && s'.recs == s.recs && s'.mem == s.mem
    ensures ok <==> Room(s) >= (2 + s.platform.auxCount) * PAGE_SIZE
    ensures ok ==> RecCreateOk(s', c.rd, rec, aux) && s.next <= rec && forall a :: a in aux ==> s.next <= a
  {
    aux := [];
    var params, s1, s2;
    ok, rec, s1 := DelegatedGranule(s);
    s' := s1;
    if !ok {
      return;
    }
    ok, params, s2 := NewGranule(s1);
    KeepsTrans(s, s1, s2);
    s' := s2;
    if !ok {
      return;
    }
    var okc, count := RecAuxCount(s2, c.rd);
    var s3;
    ok, aux, s3 := DelegatedGranules(s2, count);
    KeepsTrans(s, s2, s3);
    s' := s3;
    if ok {
      assert GranuleAt(s3, rec) == Delegated && rec !in aux;
      assert NoDup([rec] + aux) by {
        assert forall i :: 0 < i < |[rec] + aux| ==> ([rec] + aux)[i] == aux[i - 1];
      }
    }
  }

  /**
   * The start of g_rec_aux_prep_sequence as written: the REC granule is
   * delegated, and a failure there returns VAL_TEST_PREP_SEQ_FAILED; then
   * the page for the REC parameters is allocated and written, with no check
   * that the allocation succeeded. `writesNull` holds when the writes
   * into the parameters go through the null pointer of a failed
   * allocation, which happens exactly when there is room for the REC
   * granule but not for the parameter page.
   */
  method ParamsAsWritten(s: State) returns (recOk: bool, writesNull: bool, s': State)
    requires Valid(s) && Fresh(s)
    ensures Keeps(s, s')
    ensures recOk <==> Room(s) >= PAGE_SIZE
    ensures writesNull <==> PAGE_SIZE <= Room(s) < 2 * PAGE_SIZE
  {
    var rec, s1;
    recOk, rec, s1 := DelegatedGranule(s);
    s', writesNull := s1, false;
    if recOk {
      var ok, params, s2;
      ok, params, s2 := NewGranule(s1);
      KeepsTrans(s, s1, s2);
      s', writesNull := s2, !ok;
    }
  }

  /**
   * With room for the REC granule alone, the fixture as written writes
   * the parameters through a null pointer; RecAuxGranules, which checks
   * the allocation, fails cleanly.
   */
  method RecGranuleOnly(s: State, c: Store) returns (writesNull: bool, ok: bool)
    requires Valid(s) && Fresh(s) && StoreBase(s, c) && Room(s) == PAGE_SIZE
    ensures writesNull && !ok
  {
    var recOk, s1, rec, aux, s2;
    recOk, writesNull, s1 := ParamsAsWritten(s);
    ok, rec, aux, s2 := RecAuxGranules(s, c);
  }

  /**
   * REC_GRAN_STATE_REC_AUX: the granules of RecAuxGranules and REC_CREATE
   * (MPIDR 1, runnable); the check passes the first auxiliary granule.
   * With no auxiliary granules the parameter slot it reads was never
   * written: `unset` stands for what it holds.
   */
  method RecAuxFixture(s: State, c: Store, unset: int) returns (ok: bool, pa: int, s': State)
    requires Valid(s) && Fresh(s) && StoreBase(s, c)
    ensures Keeps(s, s') && StoreBase(s', c) && (StoreHolds(s, c) ==> StoreHolds(s', c))
    ensures ok <==> Room(s) >= (2 + s.platform.auxCount) * PAGE_SIZE
    ensures ok && s.platform.auxCount > 0 ==> GranuleAt(s', pa) == RecAux
    ensures ok && s.platform.auxCount == 0 ==> pa == unset
  {
    pa := unset;
    var rec, aux, s1;
    ok, rec, aux, s1 := RecAuxGranules(s, c);
    s' := s1;
    if ok {
      ok, s' := RecCreate(s1, c.rd, rec, 1, true, aux);
      ghost var sa := s1.(granules := s1.granules[rec := Rec]);
      KeptRetyped(s, s1, sa, rec, Rec);
      KeptRetypedAll(s, sa, s', aux, RecAux);
      if |aux| > 0 {
        pa := aux[0];
        assert StateOf(s'.granules, pa) == RecAux;
      }
    }
  }

  /**
   * intent_to_seq: the address each intent stands for, with the fixture it
   * needs. Every address it produces, but an unset auxiliary slot, is no
   * REC, which REC_DESTROY refuses.
   */
  method IntentToSeq(s: State, c: Store, intent: Intent, unset: int) returns (prep: Prep<int>, s': State)
    requires Valid(s) && Fresh(s) && StoreBase(s, c)
    ensures Keeps(s, s') && StoreBase(s', c) && (StoreHolds(s, c) ==> StoreHolds(s', c))
    ensures prep.Args? && (intent.RecGranStateRecAux? ==> s.platform.auxCount > 0) ==> !RecDestroyOk(s', prep.args)
    ensures intent.RecUnaligned? ==> prep == Args(Unaligned(c.recValid))
    ensures intent.RecOutsideOfPermittedPa? ==> prep == Args(OutsidePa(s.platform))
    ensures intent.RecDevMem? ==> prep == Args(DevMem(s.platform))
    ensures intent.RecGranStateUndelegated? && prep.Args? ==> GranuleAt(s', prep.args) == Undelegated
    ensures intent.RecGranStateRd? ==> prep == Args(c.rd)
    ensures intent.RecGranStateRecAux? && prep.Args? && s.platform.auxCount > 0 ==> GranuleAt(s', prep.args) == RecAux
    ensures intent.RecGranStateRtt? ==> prep == Args(c.rttL0)
    ensures intent.RecGranStateData? && prep.Args? ==> GranuleAt(s', prep.args) == Data
    ensures prep != PrepSkip
    ensures prep == PrepError ==> ChecksFixture(intent) || intent.UnknownIntent?
    ensures intent.UnknownIntent? ==> prep == PrepError
    ensures intent.RecGranStateUndelegated? && Room(s) >= PAGE_SIZE ==> prep.Args?
    ensures intent.RecGranStateRecAux? && Room(s) >= (2 + s.platform.auxCount) * PAGE_SIZE ==> prep.Args?
  {
    s' := s;
    KeptUnchanged(s, s);
    match intent
    case RecUnaligned =>
      prep := Args(Unaligned(c.recValid));
    case RecOutsideOfPermittedPa =>
      prep := Args(OutsidePa(s.platform));
    case RecDevMem =>
      prep := Args(DevMem(s.platform));
    case RecGranStateUndelegated =>
      var ok, pa;
      ok, pa, s' := NewGranule(s);
      prep := if ok then Args(pa) else PrepError;
    case RecGranStateRd =>
      prep := Args(c.rd);
      assert StateOf(s.granules, c.rd) == Rd;
    case RecGranStateRecAux =>
      var ok, pa;
      ok, pa, s' := RecAuxFixture(s, c, unset);
      prep := if ok then Args(pa) else PrepError;
    case RecGranStateRtt =>
      prep := Args(c.rttL0);
    case RecGranStateData =>
      var ok, data;
      ok, data, s' := DataPrep(s, c.rd, IPA_ADDR_DATA);
      prep := if ok then Args(data) else PrepError;
    case UnknownIntent =>
      prep := PrepError;
  }

  // ---------------------------------------------------------------- the check loop

  /** What a round of the loop can have seen, given the refusal the monitor would give. */
  predicate RoundSaw(o: Outcome, refusal: ErrorCode, intent: Intent, auxCount: nat)
  {
    (o.Got? ==> o.code == SUCCESS || o.code == refusal)
    && (o.Got? && (intent.RecGranStateRecAux? ==> auxCount > 0) ==> o.code == refusal)
    && !o.BadOutput? && !o.Skipped?
    && (o.PrepFailed? ==> ChecksFixture(intent) || intent.UnknownIntent?)
    && (intent.UnknownIntent? ==> o.PrepFailed?)
  }

  /**
   * One round of the check loop: prepare, REC_DESTROY, and what the driver
   * saw. A refused command changes nothing, so the valid REC survives
   * every round whose command was refused; an accepted one keeps the
   * valid realm.
   */
  method CheckRound(s: State, c: Store, st: Stimulus<Intent>, refusal: ErrorCode, unset: int)
    returns (o: Outcome, s': State)
    requires Valid(s) && Fresh(s) && StoreBase(s, c)
    ensures Valid(s') && Fresh(s') && s'.platform == s.platform && StoreBase(s', c)
    ensures o != Got(SUCCESS) ==> Keeps(s, s') && (StoreHolds(s, c) ==> StoreHolds(s', c))
    ensures RoundSaw(o, refusal, st.intent, s.platform.auxCount)
  {
    var prep, s1 := IntentToSeq(s, c, st.intent, unset);
    s' := s1;
    if prep.PrepError? {
      return PrepFailed, s';
    }
    var ok;
    ok, s' := RecDestroy(s1, prep.args);
    if !ok {
      KeptUnchanged(s1, s');
      KeepsTrans(s, s1, s');
    } else {
      assert StateOf(s1.granules, c.rttL0) == Rtt;
    }
    o := Got(Returned(ok, refusal));
  }

  /** What the rounds `outs` of the loop over `table` have seen. */
  ghost predicate RoundsSaw(outs: seq<Outcome>, table: seq<Stimulus<Intent>>, refusals: seq<ErrorCode>, auxCount: nat)
    requires |outs| <= |table| == |refusals|
  {
    forall i :: 0 <= i < |outs| ==> RoundSaw(outs[i], refusals[i], table[i].intent, auxCount)
  }

  lemma RoundsSawNext(outs: seq<Outcome>, o: Outcome, table: seq<Stimulus<Intent>>, refusals: seq<ErrorCode>, auxCount: nat)
    requires |outs| < |table| == |refusals|
    requires RoundsSaw(outs, table, refusals, auxCount) && RoundSaw(o, refusals[|outs|], table[|outs|].intent, auxCount)
    ensures RoundsSaw(outs + [o], table, refusals, auxCount)
    ensures NoneAccepted(outs + [o]) <==> NoneAccepted(outs) && o != Got(SUCCESS)
  {
    assert forall i :: 0 <= i < |outs| ==> (outs + [o])[i] == outs[i];
    assert (outs + [o])[|outs|] == o;
  }

  /**
   * A round the monitor accepted is a REC_AUX round on a platform without
   * auxiliary granules, which passed the unset parameter slot; one the loop
   * ran past expected SUCCESS. So a table without SUCCESS rows that the
   * loop runs through had every command refused.
   */
  lemma {:induction false} AcceptedRound(outs: seq<Outcome>, table: seq<Stimulus<Intent>>, refusals: seq<ErrorCode>, auxCount: nat)
    requires |outs| <= |table| == |refusals| && RoundsSaw(outs, table, refusals, auxCount)
    requires LoopStop(outs, table, LOOP_POINTS) == None && !NoneAccepted(outs)
    ensures auxCount == 0
    ensures exists i :: 0 <= i < |outs| && outs[i] == Got(SUCCESS)
                        && table[i].intent.RecGranStateRecAux? && table[i].expected == SUCCESS
  {
    var i :| 0 <= i < |outs| && outs[i] == Got(SUCCESS);
    assert RoundSaw(outs[i], refusals[i], table[i].intent, auxCount);
    LoopStopNoneIff(outs, table, LOOP_POINTS);
    assert RoundStop(outs[i], table[i].expected, LOOP_POINTS) == None;
  }

  /**
   * The check loop: one round per stimulus until a preparation fails
   * (point 2) or a code differs from the expected one (point 3). While
   * no round so far saw the command accepted, the valid REC is still there.
   */
  method CheckLoop(s: State, c: Store, table: seq<Stimulus<Intent>>, refusals: seq<ErrorCode>, unset: seq<int>)
    returns (stop: Option<int>, outs: seq<Outcome>, s': State)
    requires Valid(s) && Fresh(s) && StoreHolds(s, c) && |refusals| == |table| == |unset|
    ensures Valid(s') && Fresh(s') && s'.platform == s.platform
    ensures |outs| <= |table| && stop == LoopStop(outs, table, LOOP_POINTS)
    ensures stop == None ==> |outs| == |table| && StoreBase(s', c)
    ensures stop == None && NoneAccepted(outs) ==> Keeps(s, s') && StoreHolds(s', c)
    ensures RoundsSaw(outs, table, refusals, s.platform.auxCount)
  {
    outs, s', stop := [], s, None;
    KeptUnchanged(s, s);
    while |outs| < |table| && stop == None
      invariant Valid(s') && Fresh(s') && s'.platform == s.platform
      invariant |outs| <= |table| && stop == LoopStop(outs, table, LOOP_POINTS)
      invariant stop == None ==> StoreBase(s', c)
      invariant stop == None && NoneAccepted(outs) ==> Keeps(s, s') && StoreHolds(s', c)
      invariant RoundsSaw(outs, table, refusals, s.platform.auxCount)
      decreases |table| - |outs|
    {
      var k := |outs|;
      var o, s1;
      o, s1 := CheckRound(s', c, table[k], refusals[k], unset[k]);
      LoopStopNext(outs, o, table, LOOP_POINTS);
      RoundsSawNext(outs, o, table, refusals, s.platform.auxCount);
      if RoundStop(o, table[k].expected, LOOP_POINTS) == None && NoneAccepted(outs) && o != Got(SUCCESS) {
        KeepsTrans(s, s', s1);
      }
      outs := outs + [o];
      s' := s1;
      stop := LoopStop(outs, table, LOOP_POINTS);
    }
  }

  // ---------------------------------------------------------------- the test

  /**
   * cmd_rec_destroy_host, with the check of the valid preparation as
   * evidently intended: point 1 when the valid REC cannot be made, then
   * the check loop (points 2 and 3), then REC_DESTROY of the valid REC
   * (point 4). Once the loop runs through with every command refused, the
   * valid REC is destroyed and the test passes: its granule is delegated
   * again and it is no REC. Point 4 needs a round the monitor accepted,
   * which only a REC_AUX row that expects SUCCESS, on a platform without
   * auxiliary granules, can give.
   */
  method CmdRecDestroyHost(s: State, table: seq<Stimulus<Intent>>, refusals: seq<ErrorCode>, unset: seq<int>)
    returns (v: Verdict, c: Store, outs: seq<Outcome>, s': State)
    requires Valid(s) && Fresh(s) && |refusals| == |table| == |unset|
    ensures Valid(s') && s'.platform == s.platform
    ensures v == Pass || v == Fail(1) || v == Fail(2) || v == Fail(3) || v == Fail(4)
    ensures v == Fail(1) <==> Room(s) < SetupCost(s.platform, DEFAULT_REALM, 1)
    ensures v != Fail(1) ==> |outs| <= |table| && RoundsSaw(outs, table, refusals, s.platform.auxCount)
    ensures v == Fail(2) || v == Fail(3) ==> LoopStop(outs, table, LOOP_POINTS) == Some(v.point)
    ensures v == Pass || v == Fail(4) <==> v != Fail(1) && |outs| == |table| && LoopStop(outs, table, LOOP_POINTS) == None
    ensures (v == Pass || v == Fail(4)) && NoneAccepted(outs) ==> v == Pass
    ensures v == Fail(4) ==> s.platform.auxCount == 0
                             && exists i :: 0 <= i < |outs| && outs[i] == Got(SUCCESS)
                                            && table[i].intent.RecGranStateRecAux? && table[i].expected == SUCCESS
    ensures v == Pass ==> c.recValid !in s'.recs && GranuleAt(s', c.recValid) == Delegated
  {
    outs := [];
    var ok, s1;
    ok, c, s1 := ValidPrep(s);
    s' := s1;
    v := Fail(1);
    if ok {
      var stop, s2;
      stop, outs, s2 := CheckLoop(s1, c, table, refusals, unset);
      s' := s2;
      if stop.Some? {
        v := Fail(stop.value);
      } else {
        if NoneAccepted(outs) {
          assert GranuleAt(s2, c.recValid) == Rec && c.recValid in s2.granules;
        } else {
          AcceptedRound(outs, table, refusals, s.platform.auxCount);
        }
        ok, s' := RecDestroy(s2, c.recValid);
        v := if ok then Pass else Fail(4);
      }
    }
  }

  // ---------------------------------------------------------------- the check as written

  /** The framework's status codes, whose values are not part of this model. */
  datatype ValCodes = ValCodes(success: int, error: int, prepFailed: int)

  /**
   * valid_input_args_prep_sequence as written: VAL_ERROR when the valid
   * REC cannot be made, VAL_SUCCESS otherwise; on failure the stored REC
   * is the VAL_TEST_PREP_SEQ_FAILED sentinel rec_valid_prep_sequence returned.
   */
  method ValidInputArgs(s: State, codes: ValCodes) returns (ret: int, c: Store, s': State)
    requires Valid(s) && Fresh(s)
    ensures Keeps(s, s')
    ensures ret == if Room(s) >= SetupCost(s.platform, DEFAULT_REALM, 1) then codes.success else codes.error
    ensures ret == codes.error && codes.success != codes.error ==> c.recValid == codes.prepFailed
  {
    var ok;
    ok, c, s' := ValidPrep(s);
    if ok {
      ret := codes.success;
    } else {
      ret := codes.error;
      c := c.(recValid := codes.prepFailed);
    }
  }

  /**
   * The driver's first check as written: it stops at point 1 only when
   * the returned code equals VAL_TEST_PREP_SEQ_FAILED. With no memory for
   * the valid REC and VAL_ERROR distinct from that constant the guard
   * lets the failure through, and the check loop runs with the sentinel
   * as the valid REC.
   */
  method FirstCheckAsWritten(s: State, codes: ValCodes) returns (stopsAtOne: bool, c: Store)
    requires Valid(s) && Fresh(s)
    requires codes.success != codes.prepFailed
    ensures stopsAtOne <==> Room(s) < SetupCost(s.platform, DEFAULT_REALM, 1) && codes.error == codes.prepFailed
    ensures (Room(s) < SetupCost(s.platform, DEFAULT_REALM, 1) && codes.error != codes.prepFailed
             && codes.success != codes.error) ==> !stopsAtOne && c.recValid == codes.prepFailed
  {
    var ret, s';
    ret, c, s' := ValidInputArgs(s, codes);
    stopsAtOne := ret == codes.prepFailed;
  }
}
