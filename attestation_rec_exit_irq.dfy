/**
 * The attestation token retrieval of the REC exit IRQ test, realm side.
 * Each pass asks the monitor for a token with RSI_ATTESTATION_TOKEN_INIT
 * and then fetches it page by page with RSI_ATTESTATION_TOKEN_CONTINUE:
 * within a page, each call asks for the rest of the page from `offset` and
 * `offset` grows by the length the monitor returns; a page is left for the
 * next one when it is full and the monitor still reports INCOMPLETE, as
 * long as the next page is inside the token. The passes repeat until the
 * host raises a shared flag, modelled as a number of passes `rounds`.
 *
 * The monitor's replies are inputs: `inits(p)` answers the INIT of pass
 * `p`, and `replies` answer the CONTINUE calls in order. A run that needs
 * more replies than given stops early, with no verdict.
 *
 * Granule addresses are byte offsets from the start of the token buffer.
 * The source steps them as a `uint64_t` pointer; the model steps them by
 * PAGE_SIZE bytes (see NextGranule and NextGranuleAsWritten).
 */
module AttestationRecExitIrqTest {
  import opened RmmTypes
  import opened Checks

  const U64_MOD: int := 0x1_0000_0000_0000_0000

  type U64 = x: int | 0 <= x < U64_MOD

  /** uint64_t arithmetic: `x` modulo 2^64. */
  function Wrap(x: int): (r: U64)
    ensures 0 <= x < U64_MOD ==> r == x
  {
    x % U64_MOD
  }

  lemma WrapAdd(a: int, b: int)
    ensures Wrap(Wrap(a) + b) == Wrap(a + b)
  {
    var q := a / U64_MOD;
    assert a == q * U64_MOD + Wrap(a);
    assert a + b == (Wrap(a) + b) + q * U64_MOD;
    ModShift(Wrap(a) + b, q);
  }

  lemma {:induction false} ModShift(x: int, q: int)
    ensures (x + q * U64_MOD) % U64_MOD == x % U64_MOD
    decreases if q < 0 then -q else q
  {
    if q > 0 {
      ModShift(x, q - 1);
      assert x + q * U64_MOD == (x + (q - 1) * U64_MOD) + U64_MOD;
    } else if q < 0 {
      ModShift(x, q + 1);
      assert x + q * U64_MOD == (x + (q + 1) * U64_MOD) - U64_MOD;
    }
  }

  /** The status a token command returns: SUCCESS, INCOMPLETE, or any other error. */
  datatype RsiStatus = RsiSuccess | RsiIncomplete | RsiOtherError

  /** The monitor's answer to RSI_ATTESTATION_TOKEN_INIT: its status and the token's upper bound size (`x1`). */
  datatype InitReply = InitReply(status: RsiStatus, maxSize: U64)

  /** The monitor's answer to RSI_ATTESTATION_TOKEN_CONTINUE: its status and the number of bytes written (`len`). */
  datatype ContinueReply = ContinueReply(status: RsiStatus, len: U64)

  /** One RSI_ATTESTATION_TOKEN_CONTINUE call: pass, granule, offset and size it was given, and its reply. */
  datatype Call = Call(pass: nat, granule: int, offset: U64, size: U64, reply: ContinueReply)

  /** `offset` after the call: the returned length added, as uint64_t. */
  function OffsetAfter(c: Call): U64
  {
    Wrap(c.offset + c.reply.len)
  }

  /** The granule after `g` when the loop moves on: the next page of the token. */
  function NextGranule(g: int): int
  {
    g + PAGE_SIZE
  }

  /** Whether the granule `g` is still inside a token of `maxSize` bytes. */
  predicate MoreGranules(g: int, maxSize: int)
  {
    g < maxSize
  }

  /**
   * Call `d` comes right after call `c`, `maxSize` being the token size of
   * `c`'s pass. In the same pass, `c` reported INCOMPLETE, and `d` goes on
   * in the same granule at the new offset while the page is not full, or
   * starts the next granule at offset 0 if that is inside the token. A new
   * pass follows a call that reported SUCCESS, starting at offset 0 in the
   * same granule.
   */
  predicate Follows(c: Call, d: Call, maxSize: int)
  {
    if d.pass == c.pass then
      c.reply.status == RsiIncomplete
      && if OffsetAfter(c) < PAGE_SIZE then d.granule == c.granule && d.offset == OffsetAfter(c)
         else MoreGranules(NextGranule(c.granule), maxSize) && d.granule == NextGranule(c.granule) && d.offset == 0
    else
      d.pass == c.pass + 1 && c.reply.status == RsiSuccess && d.granule == c.granule && d.offset == 0
  }

  /** Every call asks for the rest of the page from its offset, and each call follows the one before. */
  ghost predicate Linked(calls: seq<Call>, inits: nat -> InitReply)
  {
    (forall i :: 0 <= i < |calls| ==> calls[i].size == Wrap(PAGE_SIZE - calls[i].offset))
    && (forall i :: 0 <= i < |calls| - 1 ==> Follows(calls[i], calls[i + 1], inits(calls[i].pass).maxSize))
  }

  /** The run starts in pass 0 at the first byte of the token buffer. */
  predicate Starts(calls: seq<Call>)
  {
    |calls| > 0 ==> calls[0].pass == 0 && calls[0].granule == 0 && calls[0].offset == 0
  }

  /** The calls got the replies from index `n0` on, in order. */
  ghost predicate Answered(calls: seq<Call>, replies: seq<ContinueReply>, n0: nat)
  {
    n0 + |calls| <= |replies| && forall i :: 0 <= i < |calls| ==> calls[i].reply == replies[n0 + i]
  }

  /** The sum of the lengths the calls returned. */
  function Lengths(calls: seq<Call>): (sum: int)
    ensures sum >= 0
  {
    if |calls| == 0 then 0 else Lengths(calls[..|calls| - 1]) + calls[|calls| - 1].reply.len
  }

  lemma {:induction false} LengthsAppend(a: seq<Call>, b: seq<Call>)
    ensures Lengths(a + b) == Lengths(a) + Lengths(b)
    decreases |b|
  {
    if |b| > 0 {
      assert (a + b)[..|a + b| - 1] == a + b[..|b| - 1];
      LengthsAppend(a, b[..|b| - 1]);
    } else {
      assert a + b == a;
    }
  }

  lemma LinkedAppend(a: seq<Call>, b: seq<Call>, inits: nat -> InitReply)
    requires Linked(a, inits) && Linked(b, inits)
    requires |a| > 0 && |b| > 0 ==> Follows(a[|a| - 1], b[0], inits(a[|a| - 1].pass).maxSize)
    ensures Linked(a + b, inits)
  {
    var ab := a + b;
    forall i | 0 <= i < |ab| - 1
      ensures Follows(ab[i], ab[i + 1], inits(ab[i].pass).maxSize)
    {
      if i < |a| - 1 {
        assert ab[i] == a[i] && ab[i + 1] == a[i + 1];
      } else if i == |a| - 1 {
        assert ab[i] == a[i] && ab[i + 1] == b[0];
      } else {
        assert ab[i] == b[i - |a|] && ab[i + 1] == b[i - |a| + 1];
      }
    }
    forall i | 0 <= i < |ab|
      ensures ab[i].size == Wrap(PAGE_SIZE - ab[i].offset)
    {
      if i < |a| {
        assert ab[i] == a[i];
      } else {
        assert ab[i] == b[i - |a|];
      }
    }
  }

  lemma AnsweredAppend(a: seq<Call>, b: seq<Call>, replies: seq<ContinueReply>, n0: nat)
    requires Answered(a, replies, n0) && Answered(b, replies, n0 + |a|)
    ensures Answered(a + b, replies, n0)
  {
    forall i | 0 <= i < |a + b|
      ensures (a + b)[i].reply == replies[n0 + i]
    {
      if i < |a| {
        assert (a + b)[i] == a[i];
      } else {
        var j := i - |a|;
        assert (a + b)[i] == b[j];
        assert n0 + |a| + j == n0 + i;
      }
    }
  }

  function Last(calls: seq<Call>): Call
    requires |calls| > 0
  {
    calls[|calls| - 1]
  }

  /**
   * The calls made so far: `n - n0` of them, answered by the replies from
   * `n0` on, linked, with `ts` the token size `ts0` plus their lengths.
   */
  ghost predicate Fetched(calls: seq<Call>, inits: nat -> InitReply, replies: seq<ContinueReply>, n0: nat, n: nat, ts0: int, ts: int)
  {
    n == n0 + |calls| <= |replies| && Answered(calls, replies, n0) && Linked(calls, inits)
    && ts == Wrap(ts0 + Lengths(calls))
  }

  /** Calls made after calls, the first of them following the last before, extend what was fetched. */
  lemma FetchedAppend(a: seq<Call>, b: seq<Call>, inits: nat -> InitReply, replies: seq<ContinueReply>,
                      n0: nat, n1: nat, n2: nat, ts0: int, ts1: int, ts2: int)
    requires Fetched(a, inits, replies, n0, n1, ts0, ts1) && Fetched(b, inits, replies, n1, n2, ts1, ts2)
    requires |a| > 0 && |b| > 0 ==> Follows(Last(a), b[0], inits(Last(a).pass).maxSize)
    ensures Fetched(a + b, inits, replies, n0, n2, ts0, ts2)
  {
    LinkedAppend(a, b, inits);
    AnsweredAppend(a, b, replies, n0);
    SizeAppend(a, b, ts0, ts1, ts2);
  }

  lemma SizeAppend(a: seq<Call>, b: seq<Call>, ts0: int, ts1: int, ts2: int)
    requires ts1 == Wrap(ts0 + Lengths(a)) && ts2 == Wrap(ts1 + Lengths(b))
    ensures ts2 == Wrap(ts0 + Lengths(a + b))
  {
    LengthsAppend(a, b);
    WrapAdd(ts0 + Lengths(a), Lengths(b));
    assert ts0 + Lengths(a + b) == ts0 + Lengths(a) + Lengths(b);
  }

  /** All calls belong to pass `pass`. */
  ghost predicate InPass(calls: seq<Call>, pass: nat)
  {
    forall i :: 0 <= i < |calls| ==> calls[i].pass == pass
  }

  /** All calls belong to pass `pass` and granule `g`. */
  ghost predicate InGranule(calls: seq<Call>, pass: nat, g: int)
  {
    forall i :: 0 <= i < |calls| ==> calls[i].pass == pass && calls[i].granule == g
  }

  /** The state of the inner loop: its calls so far, the offset after the last and its status. */
  ghost predicate PageSoFar(calls: seq<Call>, pass: nat, g: int, offset: int, status: RsiStatus)
  {
    InGranule(calls, pass, g)
    && (|calls| == 0 ==> offset == 0)
    && (|calls| > 0 ==> calls[0].offset == 0 && offset == OffsetAfter(Last(calls)) && status == Last(calls).reply.status)
  }

  /** Between two pages of a pass: the last call left its page full and INCOMPLETE, and the next granule `g` is inside the token. */
  predicate MidPass(c: Call, g: int, maxSize: int)
  {
    c.reply.status == RsiIncomplete && OffsetAfter(c) >= PAGE_SIZE && g == NextGranule(c.granule) && MoreGranules(g, maxSize)
  }

  /**
   * How a pass whose last call is `c` ended with `status` and granule `g`:
   * not INCOMPLETE, still at `c`'s granule, or INCOMPLETE with `c`'s page
   * full, `g` moved on to the next granule, and that granule outside the
   * token.
   */
  predicate PassEnd(c: Call, status: RsiStatus, g: int, maxSize: int)
  {
    status == c.reply.status
    && (status != RsiIncomplete ==> g == c.granule)
    && (status == RsiIncomplete ==> g == NextGranule(c.granule) && TokenFull(c, maxSize))
  }

  /** The call `c` filled its page and the next granule is outside the token of `maxSize` bytes. */
  predicate TokenFull(c: Call, maxSize: int)
  {
    OffsetAfter(c) >= PAGE_SIZE && !MoreGranules(NextGranule(c.granule), maxSize)
  }

  /** One CONTINUE call of the inner loop, from `offset`, answered by `replies[n]`. */
  method ContinueCall(pass: nat, g: int, offset: U64, inits: nat -> InitReply, replies: seq<ContinueReply>,
                      n0: nat, n: nat, ts0: U64, ts: U64, calls: seq<Call>, status: RsiStatus)
    returns (n': nat, ts': U64, calls': seq<Call>, offset': U64, status': RsiStatus)
    requires Fetched(calls, inits, replies, n0, n, ts0, ts) && n < |replies| && PageSoFar(calls, pass, g, offset, status)
    requires |calls| > 0 ==> status == RsiIncomplete && offset < PAGE_SIZE
    ensures Fetched(calls', inits, replies, n0, n', ts0, ts') && PageSoFar(calls', pass, g, offset', status')
    ensures |calls'| == |calls| + 1 && status' == replies[n].status
  {
    var r := replies[n];
    var c := Call(pass, g, offset, Wrap(PAGE_SIZE - offset), r);
    FetchedOne(c, inits, replies, n, ts);
    FetchedAppend(calls, [c], inits, replies, n0, n, n + 1, ts0, ts, Wrap(ts + r.len));
    PageAppend(calls, c, pass, g, offset, status);
    calls', n', ts' := calls + [c], n + 1, Wrap(ts + r.len);
    offset', status' := Wrap(offset + r.len), r.status;
  }

  /** A single call asking for the rest of its page, answered by `replies[n]`, is fetched. */
  lemma FetchedOne(c: Call, inits: nat -> InitReply, replies: seq<ContinueReply>, n: nat, ts: int)
    requires n < |replies| && c.reply == replies[n] && c.size == Wrap(PAGE_SIZE - c.offset)
    ensures Fetched([c], inits, replies, n, n + 1, ts, Wrap(ts + c.reply.len))
  {
    assert [c][..0] == [];
  }

  /** A call at the page's granule from the offset after the last one extends the page's calls. */
  lemma PageAppend(calls: seq<Call>, c: Call, pass: nat, g: int, offset: int, status: RsiStatus)
    requires PageSoFar(calls, pass, g, offset, status) && c.pass == pass && c.granule == g && c.offset == offset
    ensures PageSoFar(calls + [c], pass, g, OffsetAfter(c), c.reply.status)
  {
    assert Last(calls + [c]) == c;
    assert |calls| > 0 ==> (calls + [c])[0] == calls[0];
    assert forall i :: 0 <= i < |calls| ==> (calls + [c])[i] == calls[i];
  }

  /**
   * The inner loop for the granule `g` of pass `pass`: CONTINUE calls from
   * offset 0, each asking for `PAGE_SIZE - offset` bytes, until a call does
   * not report INCOMPLETE or `offset` reaches PAGE_SIZE. `tokenSize` adds
   * every returned length.
   */
  method PageCalls(pass: nat, g: int, inits: nat -> InitReply, replies: seq<ContinueReply>, n0: nat, ts0: U64)
    returns (status: RsiStatus, n: nat, ts: U64, calls: seq<Call>, finished: bool)
    requires n0 <= |replies|
    ensures Fetched(calls, inits, replies, n0, n, ts0, ts) && InGranule(calls, pass, g) && (|calls| > 0 ==> calls[0].offset == 0)
    ensures finished ==> |calls| > 0 && status == Last(calls).reply.status
    ensures finished ==> status != RsiIncomplete || OffsetAfter(Last(calls)) >= PAGE_SIZE
    ensures !finished ==> n == |replies|
  {
    n, ts, calls, finished, status := n0, ts0, [], false, RsiIncomplete;
    var offset: U64 := 0;
    var more := true;
    while more
      invariant Fetched(calls, inits, replies, n0, n, ts0, ts) && PageSoFar(calls, pass, g, offset, status)
      invariant more ==> !finished && (|calls| > 0 ==> status == RsiIncomplete && offset < PAGE_SIZE)
      invariant !more && finished ==> |calls| > 0 && (status != RsiIncomplete || offset >= PAGE_SIZE)
      invariant !more && !finished ==> n == |replies|
      decreases |replies| - n, more
    {
      if n == |replies| {
        more := false;
      } else {
        n, ts, calls, offset, status := ContinueCall(pass, g, offset, inits, replies, n0, n, ts0, ts, calls, status);
        more := status == RsiIncomplete && offset < PAGE_SIZE;
        finished := !more;
      }
    }
  }

  /**
   * The middle loop of pass `pass`, from granule `g0`: PageCalls, then the
   * next granule if the page ended INCOMPLETE, until the status is not
   * INCOMPLETE or the next granule is outside the token of
   * `inits(pass).maxSize` bytes.
   */
  method TokenPass(pass: nat, g0: int, inits: nat -> InitReply, replies: seq<ContinueReply>, n0: nat, ts0: U64)
    returns (status: RsiStatus, g: int, n: nat, ts: U64, calls: seq<Call>, finished: bool)
    requires n0 <= |replies|
    ensures Fetched(calls, inits, replies, n0, n, ts0, ts) && InPass(calls, pass)
    ensures |calls| > 0 ==> calls[0].granule == g0 && calls[0].offset == 0
    ensures finished ==> |calls| > 0 && PassEnd(Last(calls), status, g, inits(pass).maxSize)
    ensures !finished ==> n == |replies|
  {
    g, n, ts, calls, finished, status := g0, n0, ts0, [], false, RsiIncomplete;
    var maxSize := inits(pass).maxSize;
    var more := true;
    while more
      invariant Fetched(calls, inits, replies, n0, n, ts0, ts) && InPass(calls, pass)
      invariant |calls| == 0 ==> g == g0
      invariant |calls| > 0 ==> calls[0].granule == g0 && calls[0].offset == 0
      invariant more && |calls| > 0 ==> MidPass(Last(calls), g, maxSize)
      invariant more ==> !finished
      invariant !more && finished ==> |calls| > 0 && PassEnd(Last(calls), status, g, maxSize)
      invariant !more && !finished ==> n == |replies|
      decreases |replies| - n, more
    {
      var st, n1, ts1, pc, fin := PageCalls(pass, g, inits, replies, n, ts);
      FetchedAppend(calls, pc, inits, replies, n0, n, n1, ts0, ts, ts1);
      if |calls| > 0 && |pc| > 0 {
        assert (calls + pc)[0] == calls[0];
      }
      if |pc| > 0 {
        assert Last(calls + pc) == Last(pc) && (calls + pc)[0].granule == g0;
      }
      calls, n, ts := calls + pc, n1, ts1;
      if !fin {
        more := false;
      } else {
        status := st;
        if st == RsiIncomplete {
          g := NextGranule(g);
        }
        more := st == RsiIncomplete && MoreGranules(g, maxSize);
        finished := !more;
      }
    }
  }

  /**
   * Between two passes: every call so far belongs to an earlier pass whose
   * INIT succeeded, and the last one ended its pass with SUCCESS at the
   * granule `g` the next pass starts from.
   */
  ghost predicate Between(calls: seq<Call>, passes: nat, g: int, inits: nat -> InitReply)
  {
    Starts(calls)
    && (forall i :: 0 <= i < |calls| ==> calls[i].pass < passes && inits(calls[i].pass).status == RsiSuccess)
    && (|calls| == 0 ==> passes == 0 && g == 0)
    && (|calls| > 0 ==> Last(calls).pass == passes - 1 && Last(calls).reply.status == RsiSuccess && g == Last(calls).granule)
  }

  /** The calls of pass `pass` after those of earlier passes, all of them in passes whose INIT succeeded. */
  lemma NextPass(a: seq<Call>, b: seq<Call>, pass: nat, inits: nat -> InitReply)
    requires forall i :: 0 <= i < |a| ==> a[i].pass < pass && inits(a[i].pass).status == RsiSuccess
    requires InPass(b, pass) && inits(pass).status == RsiSuccess
    ensures forall i :: 0 <= i < |a + b| ==> (a + b)[i].pass <= pass && inits((a + b)[i].pass).status == RsiSuccess
    ensures |b| > 0 ==> Last(a + b) == Last(b)
    ensures |a| > 0 ==> (a + b)[0] == a[0]
  {
    forall i | 0 <= i < |a + b|
      ensures (a + b)[i].pass <= pass && inits((a + b)[i].pass).status == RsiSuccess
    {
      if i < |a| {
        assert (a + b)[i] == a[i];
      } else {
        assert (a + b)[i] == b[i - |a|];
      }
    }
  }

  /**
   * One pass after a successful INIT: TokenPass from the granule `g` the
   * previous pass ended at, its calls appended to those before.
   */
  method RunPass(pass: nat, g: int, inits: nat -> InitReply, replies: seq<ContinueReply>, n: nat, ts: U64, calls: seq<Call>)
    returns (status: RsiStatus, g': int, n': nat, ts': U64, calls': seq<Call>, finished: bool)
    requires Fetched(calls, inits, replies, 0, n, 0, ts) && Between(calls, pass, g, inits) && inits(pass).status == RsiSuccess
    ensures Fetched(calls', inits, replies, 0, n', 0, ts') && Starts(calls')
    ensures forall i :: 0 <= i < |calls'| ==> calls'[i].pass <= pass && inits(calls'[i].pass).status == RsiSuccess
    ensures finished ==> |calls'| > 0 && Last(calls').pass == pass && PassEnd(Last(calls'), status, g', inits(pass).maxSize)
    ensures !finished ==> n' == |replies|
  {
    var pc;
    status, g', n', ts', pc, finished := TokenPass(pass, g, inits, replies, n, ts);
    FetchedAppend(calls, pc, inits, replies, 0, n, n', 0, ts, ts');
    NextPass(calls, pc, pass, inits);
    calls' := calls + pc;
  }

  /**
   * attestation_rec_exit_irq_realm. Pass `p` starts with the INIT answered
   * by `inits(p)`: a failure ends the test at point 1 before any CONTINUE
   * of that pass. Otherwise TokenPass fetches the token, from the granule
   * the previous pass ended at; a final status other than SUCCESS ends the
   * test at point 2. The test passes after `rounds` passes (at least one).
   * `tokenSize` is the sum of every returned length over all passes.
   * `v` is None when the replies run out first.
   */
  method AttestationRecExitIrqRealm(inits: nat -> InitReply, replies: seq<ContinueReply>, rounds: nat)
    returns (v: Option<Verdict>, passes: nat, tokenSize: U64, calls: seq<Call>)
    ensures Fetched(calls, inits, replies, 0, |calls|, 0, tokenSize) && Starts(calls)
    ensures v == None || v == Some(Pass) || v == Some(Fail(1)) || v == Some(Fail(2))
    ensures v == None ==> |calls| == |replies|
    ensures forall p: nat :: p < passes ==> inits(p).status == RsiSuccess
    ensures forall i :: 0 <= i < |calls| ==> calls[i].pass <= passes && inits(calls[i].pass).status == RsiSuccess
    ensures v == Some(Fail(1)) ==> inits(passes).status != RsiSuccess && forall i :: 0 <= i < |calls| ==> calls[i].pass < passes
    ensures v == Some(Fail(2)) ==> |calls| > 0 && Last(calls).pass == passes && Last(calls).reply.status != RsiSuccess
    ensures v == Some(Fail(2)) && Last(calls).reply.status == RsiIncomplete ==> TokenFull(Last(calls), inits(passes).maxSize)
    ensures v == Some(Pass) ==> passes == (if rounds == 0 then 1 else rounds) && |calls| > 0
                                && Last(calls).pass == passes - 1 && Last(calls).reply.status == RsiSuccess
  {
    var g := 0;
    var n := 0;
    v, passes, tokenSize, calls := None, 0, 0, [];
    var more := true;
    while more
      invariant Fetched(calls, inits, replies, 0, n, 0, tokenSize) && Starts(calls)
      invariant v == None || v == Some(Pass) || v == Some(Fail(1)) || v == Some(Fail(2))
      invariant forall p: nat :: p < passes ==> inits(p).status == RsiSuccess
      invariant forall i :: 0 <= i < |calls| ==> calls[i].pass <= passes && inits(calls[i].pass).status == RsiSuccess
      invariant more ==> v == None && (passes == 0 || passes < rounds) && Between(calls, passes, g, inits)
      invariant !more && v == None ==> n == |replies|
      invariant v == Some(Fail(1)) ==> inits(passes).status != RsiSuccess && forall i :: 0 <= i < |calls| ==> calls[i].pass < passes
      invariant v == Some(Fail(2)) ==> |calls| > 0 && Last(calls).pass == passes && Last(calls).reply.status != RsiSuccess
                                       && (Last(calls).reply.status == RsiIncomplete ==> TokenFull(Last(calls), inits(passes).maxSize))
      invariant v == Some(Pass) ==> passes == (if rounds == 0 then 1 else rounds) && |calls| > 0
                                    && Last(calls).pass == passes - 1 && Last(calls).reply.status == RsiSuccess
      decreases more, if passes <= rounds then rounds - passes else 0
    {
      if inits(passes).status != RsiSuccess {
        v, more := Some(Fail(1)), false;
      } else {
        var st, g1, fin;
        st, g1, n, tokenSize, calls, fin := RunPass(passes, g, inits, replies, n, tokenSize, calls);
        if !fin {
          more := false;
        } else if st != RsiSuccess {
          v, more := Some(Fail(2)), false;
        } else {
          passes := passes + 1;
          g := g1;
          if passes >= rounds {
            v, more := Some(Pass), false;
          }
        }
      }
    }
  }

  /** Every call starts inside its page and asks for exactly the rest of it, with no wrap-around. */
  lemma CallsWithinPage(calls: seq<Call>, inits: nat -> InitReply)
    requires Linked(calls, inits) && Starts(calls)
    ensures forall i :: 0 <= i < |calls| ==> calls[i].offset < PAGE_SIZE && calls[i].size == PAGE_SIZE - calls[i].offset
  {
    forall i | 0 <= i < |calls|
      ensures calls[i].offset < PAGE_SIZE && calls[i].size == PAGE_SIZE - calls[i].offset
    {
      if i > 0 {
        assert Follows(calls[i - 1], calls[i], inits(calls[i - 1].pass).maxSize);
      }
    }
  }

  /**
   * When the monitor never returns more than was asked for, `offset`
   * stays within the page: after each call it is the offset plus the
   * returned length, at most PAGE_SIZE.
   */
  lemma OffsetWithinPage(calls: seq<Call>, inits: nat -> InitReply)
    requires Linked(calls, inits) && Starts(calls)
    requires forall i :: 0 <= i < |calls| ==> calls[i].reply.len <= calls[i].size
    ensures forall i :: 0 <= i < |calls| ==> OffsetAfter(calls[i]) == calls[i].offset + calls[i].reply.len <= PAGE_SIZE
  {
    CallsWithinPage(calls, inits);
  }

  /** The granule of call `i` is a page-aligned offset into the token buffer. */
  lemma {:induction false} GranuleAligned(calls: seq<Call>, inits: nat -> InitReply, i: int)
    requires Linked(calls, inits) && Starts(calls) && 0 <= i < |calls|
    ensures calls[i].granule >= 0 && calls[i].granule % PAGE_SIZE == 0
    decreases i
  {
    if i > 0 {
      GranuleAligned(calls, inits, i - 1);
      assert Follows(calls[i - 1], calls[i], inits(calls[i - 1].pass).maxSize);
    }
  }

  /** Granules never move back: a later call is at the same granule or a later one. */
  lemma {:induction false} GranulesGrow(calls: seq<Call>, inits: nat -> InitReply, i: int, j: int)
    requires Linked(calls, inits) && 0 <= i <= j < |calls|
    ensures calls[i].granule <= calls[j].granule
    decreases j - i
  {
    if i < j {
      GranulesGrow(calls, inits, i, j - 1);
      assert Follows(calls[j - 1], calls[j], inits(calls[j - 1].pass).maxSize);
    }
  }

  /**
   * A call at a new granule goes on the pass of the call before, after a
   * page it left full and INCOMPLETE, at the next page of the token, which
   * starts inside the token of that pass.
   */
  lemma GranuleStep(calls: seq<Call>, inits: nat -> InitReply, i: int)
    requires Linked(calls, inits) && 0 < i < |calls| && calls[i].granule != calls[i - 1].granule
    ensures calls[i].pass == calls[i - 1].pass && calls[i - 1].reply.status == RsiIncomplete
    ensures OffsetAfter(calls[i - 1]) >= PAGE_SIZE && calls[i].offset == 0
    ensures calls[i].granule == calls[i - 1].granule + PAGE_SIZE && calls[i].granule < inits(calls[i].pass).maxSize
  {
    assert Follows(calls[i - 1], calls[i], inits(calls[i - 1].pass).maxSize);
  }

  /**
   * `granule += PAGE_SIZE` as written: `granule` is a `uint64_t *`, so the
   * step is PAGE_SIZE elements of 8 bytes each.
   */
  function NextGranuleAsWritten(g: int): int
  {
    g + 8 * PAGE_SIZE
  }

  /** `granule < token + max_size` as written: `token + max_size` is `max_size` elements, 8 bytes each, past the token. */
  predicate InTokenAsWritten(g: int, maxSize: int)
  {
    g < 8 * maxSize
  }

  /** The granule after `k` moves of the loop from the start of the token, as intended. */
  function GranuleAfter(k: nat): int
  {
    if k == 0 then 0 else NextGranule(GranuleAfter(k - 1))
  }

  /** The granule after `k` moves of the loop from the start of the token, as written. */
  function GranuleAfterAsWritten(k: nat): int
  {
    if k == 0 then 0 else NextGranuleAsWritten(GranuleAfterAsWritten(k - 1))
  }

  /**
   * The as-written granule is always 8 times the intended one, and so is
   * its bound: the loop as written moves on exactly as often as intended,
   * and only the address each later call names is 8 times as far on.
   */
  lemma {:induction false} AsWrittenSamePages(k: nat, maxSize: int)
    ensures GranuleAfterAsWritten(k) == 8 * GranuleAfter(k)
    ensures InTokenAsWritten(GranuleAfterAsWritten(k), maxSize) <==> MoreGranules(GranuleAfter(k), maxSize)
  {
    if k > 0 {
      AsWrittenSamePages(k - 1, maxSize);
    }
  }

  /**
   * For a token of more than one and at most eight pages, the loop as
   * written goes on after the first page as intended, but at a granule past
   * the end of the token; NextGranule and MoreGranules go on at the second
   * page, which is inside it.
   */
  lemma AsWrittenLeavesToken(maxSize: int)
    requires PAGE_SIZE < maxSize <= 8 * PAGE_SIZE
    ensures InTokenAsWritten(NextGranuleAsWritten(0), maxSize) && NextGranuleAsWritten(0) >= maxSize
    ensures NextGranule(0) == PAGE_SIZE && MoreGranules(NextGranule(0), maxSize)
  {
  }
}
