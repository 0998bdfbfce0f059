/**
 * The RIPAS change rejection test, realm side. REC 0 learns a protected
 * range [base, base + size) from a host call and asks the monitor, with
 * RSI_IPA_STATE_SET and the RSI_NO_CHANGE_DESTROYED flag, to change
 * RIPAS: to EMPTY over the whole range, then to EMPTY over its first two
 * pages, then back to RAM over the whole range. Each request goes to the
 * host, which accepts or rejects it; the host's answers are inputs here.
 *
 * The realm's RIPAS is modelled page by page as a map of its own, not as
 * the monitor's translation tables.
 */
module RipasChangeRejectTest {
  import opened RmmTypes
  import opened Checks

  /** The flags argument of RSI_IPA_STATE_SET: whether DESTROYED pages may change. */
  datatype ChangeFlag = NoChangeDestroyed | ChangeDestroyed

  /** The host's answer to a RIPAS change request. */
  datatype HostAnswer = Accept | Reject

  /** RIPAS of the realm's pages; a page never written reads as EMPTY. */
  type Ripases = map<int, Ripas>

  function RipasAt(r: Ripases, p: int): Ripas
  {
    if p in r then r[p] else Empty
  }

  /** A page with RIPAS `v` may change under `flag`. */
  predicate Changes(flag: ChangeFlag, v: Ripas)
  {
    flag == ChangeDestroyed || v != Destroyed
  }

  /** A range RSI_IPA_STATE_SET and RSI_IPA_STATE_GET accept: page aligned and not empty. */
  predicate RangeOk(base: int, top: int)
  {
    base % PAGE_SIZE == 0 && top % PAGE_SIZE == 0 && base < top
  }

  /**
   * How far an accepted change of [base, top) gets: up to the first page
   * that may not change under `flag`, or to `top`.
   */
  function StopAt(r: Ripases, base: int, top: int, flag: ChangeFlag): (t: int)
    requires base % PAGE_SIZE == 0 && top % PAGE_SIZE == 0 && base <= top
    ensures base <= t <= top && t % PAGE_SIZE == 0
    ensures forall p :: base <= p < t && p % PAGE_SIZE == 0 ==> Changes(flag, RipasAt(r, p))
    ensures t < top ==> !Changes(flag, RipasAt(r, t))
    decreases top - base
  {
    if base == top || !Changes(flag, RipasAt(r, base)) then base
    else StopAt(r, base + PAGE_SIZE, top, flag)
  }

  /** The pages of [lo, hi) given RIPAS `v`. */
  function SetRange(r: Ripases, lo: int, hi: int, v: Ripas): (r': Ripases)
    requires lo % PAGE_SIZE == 0
    ensures forall p :: RipasAt(r', p) == if lo <= p < hi && p % PAGE_SIZE == 0 then v else RipasAt(r, p)
    decreases hi - lo
  {
    if hi <= lo then r else SetRange(r[lo := v], lo + PAGE_SIZE, hi, v)
  }

  /** Where the run of pages that share the RIPAS of `base` ends, within [base, top). */
  function RunEnd(r: Ripases, base: int, top: int): (t: int)
    requires base % PAGE_SIZE == 0 && top % PAGE_SIZE == 0 && base < top
    ensures base < t <= top && t % PAGE_SIZE == 0
    ensures forall p :: base <= p < t && p % PAGE_SIZE == 0 ==> RipasAt(r, p) == RipasAt(r, base)
    ensures t < top ==> RipasAt(r, t) != RipasAt(r, base)
  {
    RunFrom(r, base, base + PAGE_SIZE, top)
  }

  function RunFrom(r: Ripases, base: int, from: int, top: int): (t: int)
    requires from % PAGE_SIZE == 0 && top % PAGE_SIZE == 0 && base < from <= top
    ensures from <= t <= top && t % PAGE_SIZE == 0
    ensures forall p :: from <= p < t && p % PAGE_SIZE == 0 ==> RipasAt(r, p) == RipasAt(r, base)
    ensures t < top ==> RipasAt(r, t) != RipasAt(r, base)
    decreases top - from
  {
    if from == top || RipasAt(r, from) != RipasAt(r, base) then from
    else RunFrom(r, base, from + PAGE_SIZE, top)
  }

  /**
   * RSI_IPA_STATE_SET as the realm sees it: `x0` is 0 for success and the
   * monitor's error code `err` for a range it does not accept; `x1` is the
   * new base, the end of what changed. A rejected request changes nothing;
   * an accepted one changes the pages up to StopAt.
   */
  method IpaStateSet(r: Ripases, base: int, top: int, v: Ripas, flag: ChangeFlag, answer: HostAnswer, err: nat)
    returns (x0: nat, x1: int, r': Ripases)
    requires err != 0
    ensures x0 == 0 <==> RangeOk(base, top)
    ensures x0 != 0 ==> x0 == err && r' == r
    ensures x0 == 0 && answer == Reject ==> x1 == base && r' == r
    ensures x0 == 0 && answer == Accept ==> x1 == StopAt(r, base, top, flag) && r' == SetRange(r, base, x1, v)
  {
    x1, r' := base, r;
    if !RangeOk(base, top) {
      return err, x1, r';
    }
    x0 := 0;
    if answer == Accept {
      x1 := StopAt(r, base, top, flag);
      r' := SetRange(r, base, x1, v);
    }
  }

  /** RSI_IPA_STATE_GET: `x2` is the RIPAS at `base`, `x1` the end of the run of pages that share it. */
  method IpaStateGet(r: Ripases, base: int, top: int, err: nat) returns (x0: nat, x1: int, x2: Ripas)
    requires err != 0
    ensures x0 == 0 <==> RangeOk(base, top)
    ensures x0 != 0 ==> x0 == err
    ensures x0 == 0 ==> x2 == RipasAt(r, base) && x1 == RunEnd(r, base, top)
  {
    x0, x1, x2 := err, base, Empty;
    if RangeOk(base, top) {
      x0, x1, x2 := 0, RunEnd(r, base, top), RipasAt(r, base);
    }
  }

  /**
   * The setting the test is written for: a page-aligned range of more than
   * two pages whose first two pages are RAM and whose third is DESTROYED.
   */
  predicate IntendedFor(r: Ripases, base: int, size: int)
  {
    base % PAGE_SIZE == 0 && size % PAGE_SIZE == 0 && size > 0x2000
    && RipasAt(r, base) == Ram && RipasAt(r, base + PAGE_SIZE) == Ram && RipasAt(r, base + 0x2000) == Destroyed
  }

  /** The host's answers to the three requests of the test. */
  datatype Answers = Answers(first: HostAnswer, second: HostAnswer, third: HostAnswer)

  /**
   * mm_ripas_change_reject_realm with the range [base, base + size) from
   * the host call. Point 1: the first request failed or made progress.
   * Point 2: the RIPAS at `base` is then not RAM; this check does not stop
   * the test, and a later failure replaces it. Point 3: the second request
   * did not reach base + 0x2000. Point 4: the third request did not stop
   * at base + 0x2000.
   */
  method MmRipasChangeRejectRealm(r: Ripases, base: int, size: int, answers: Answers, err: nat)
    returns (v: Verdict, r': Ripases)
    requires err != 0
    ensures v == Pass || v == Fail(1) || v == Fail(2) || v == Fail(3) || v == Fail(4)
    ensures v == Fail(1) <==> !RangeOk(base, base + size)
                              || (answers.first == Accept && RipasAt(r, base) != Destroyed)
    ensures v == Pass ==> RangeOk(base, base + size) && RipasAt(r, base) == Ram
    ensures v == Pass ==> answers.second == Accept && answers.third == Accept
                          && RipasAt(r, base + PAGE_SIZE) != Destroyed
                          && (size == 0x2000 || (size > 0x2000 && RipasAt(r, base + 0x2000) == Destroyed))
    ensures v == Pass ==> forall p :: RipasAt(r', p) == if base <= p < base + 0x2000 && p % PAGE_SIZE == 0 then Ram else RipasAt(r, p)
    ensures IntendedFor(r, base, size) && answers == Answers(Reject, Accept, Accept) ==> v == Pass
  {
    var x0, x1, x2, r1;
    x0, x1, r1 := IpaStateSet(r, base, base + size, Empty, NoChangeDestroyed, answers.first, err);
    r' := r1;
    if x0 != 0 || x1 != base {
      return Fail(1), r';
    }
    v := Pass;
    x0, x1, x2 := IpaStateGet(r1, base, base + size, err);
    if x0 != 0 || x2 != Ram {
      v := Fail(2);
    }
    if IntendedFor(r, base, size) && answers == Answers(Reject, Accept, Accept) {
      IntendedSetting(r1, base, size);
    }
    var r2, r3;
    x0, x1, r2 := IpaStateSet(r1, base, base + 0x2000, Empty, NoChangeDestroyed, answers.second, err);
    r' := r2;
    if x0 != 0 || x1 != base + 0x2000 {
      return Fail(3), r';
    }
    x0, x1, r3 := IpaStateSet(r2, base, base + size, Ram, NoChangeDestroyed, answers.third, err);
    r' := r3;
    if x0 != 0 || x1 != base + 0x2000 {
      return Fail(4), r';
    }
  }

  /**
   * In the setting the test is written for, the second request changes
   * both of its pages and the third stops at the DESTROYED page.
   */
  lemma IntendedSetting(r: Ripases, base: int, size: int)
    requires IntendedFor(r, base, size)
    ensures StopAt(r, base, base + 0x2000, NoChangeDestroyed) == base + 0x2000
    ensures StopAt(SetRange(r, base, base + 0x2000, Empty), base, base + size, NoChangeDestroyed) == base + 0x2000
  {
    var r2 := SetRange(r, base, base + 0x2000, Empty);
    assert StopAt(r, base + 0x2000, base + 0x2000, NoChangeDestroyed) == base + 0x2000;
    assert StopAt(r, base + PAGE_SIZE, base + 0x2000, NoChangeDestroyed) == base + 0x2000;
    assert StopAt(r2, base + 0x2000, base + size, NoChangeDestroyed) == base + 0x2000;
    assert StopAt(r2, base + PAGE_SIZE, base + size, NoChangeDestroyed) == base + 0x2000;
  }
}
