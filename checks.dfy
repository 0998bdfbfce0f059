/**
 * The check loop the command tests share. Every test walks a table of
 * stimuli (an intent label and the packed return code the command must
 * give); for each one it prepares arguments from the label, issues the
 * command and compares the returned code with the expected one. A skipped
 * check moves on, a failed preparation and a mismatch end the test at their
 * failure points. Which error code a refused command reports is the
 * monitor's business: it reaches the driver as an input.
 */
module Checks {
  import opened RmmTypes

  datatype Option<T> = None | Some(value: T)

  /** A packed code a refusing monitor returns: never SUCCESS. */
  type ErrorCode = c: Code | c.status != Success witness Code(ErrorInput, 0)

  /** One row of a test's table: an intent label and the expected PACK_CODE(status, index). */
  datatype Stimulus<L> = Stimulus(intent: L, expected: Code)

  /** What intent_to_seq made of a label: arguments, a skip (VAL_SKIP_CHECK), or VAL_ERROR. */
  datatype Prep<A> = Args(args: A) | PrepSkip | PrepError

  /** The code a command returns: SUCCESS when the monitor accepts it, its error code otherwise. */
  function Returned(ok: bool, refusal: ErrorCode): (c: Code)
    ensures c == SUCCESS <==> ok
    ensures !ok ==> c == refusal
  {
    if ok then SUCCESS else refusal
  }

  /**
   * The failure points of a check loop: a failed preparation, a code other
   * than the expected one, and an output the test also checks that differs
   * from what it expects.
   */
  datatype Points = Points(prep: int, cmd: int, output: int)

  /**
   * What one round of a check loop saw: a skipped check, a failed
   * preparation, the code the command returned, or that code together with
   * an output the round's own check rejects.
   */
  datatype Outcome = Skipped | PrepFailed | Got(code: Code) | BadOutput(code: Code)

  /** Where one round ends the test: nowhere, or at one of the loop's failure points. */
  function RoundStop(o: Outcome, expected: Code, pts: Points): (r: Option<int>)
    ensures r == None <==> o.Skipped? || (o.Got? && o.code == expected)
    ensures o.PrepFailed? ==> r == Some(pts.prep)
    ensures (o.Got? || o.BadOutput?) && o.code != expected ==> r == Some(pts.cmd)
    ensures o.BadOutput? && o.code == expected ==> r == Some(pts.output)
  {
    match o
    case Skipped => None
    case PrepFailed => Some(pts.prep)
    case Got(c) => if c == expected then None else Some(pts.cmd)
    case BadOutput(c) => if c == expected then Some(pts.output) else Some(pts.cmd)
  }

  /** No round saw the command accepted. */
  predicate NoneAccepted(outs: seq<Outcome>)
  {
    forall i :: 0 <= i < |outs| ==> outs[i] != Got(SUCCESS)
  }

  /**
   * The failure point at which the rounds `outs` of a loop over `table` end
   * the test, if any. The ensures only bounds the result; what it is, the
   * first round that stops the loop, is stated by LoopStopNoneIff and
   * LoopStopFirst.
   */
  function LoopStop<L>(outs: seq<Outcome>, table: seq<Stimulus<L>>, pts: Points): (r: Option<int>)
    requires |outs| <= |table|
    ensures r == None || r == Some(pts.prep) || r == Some(pts.cmd) || r == Some(pts.output)
  {
    if |outs| == 0 then None
    else
      var before := LoopStop(outs[..|outs| - 1], table, pts);
      if before.Some? then before
      else RoundStop(outs[|outs| - 1], table[|outs| - 1].expected, pts)
  }

  /** A loop runs on while no round has stopped it. */
  lemma LoopStopNext<L>(outs: seq<Outcome>, o: Outcome, table: seq<Stimulus<L>>, pts: Points)
    requires |outs| < |table| && LoopStop(outs, table, pts) == None
    ensures LoopStop(outs + [o], table, pts) == RoundStop(o, table[|outs|].expected, pts)
  {
    assert (outs + [o])[..|outs|] == outs;
  }

  /** A loop runs through exactly when every round skipped or saw the expected code. */
  lemma {:induction false} LoopStopNoneIff<L>(outs: seq<Outcome>, table: seq<Stimulus<L>>, pts: Points)
    requires |outs| <= |table|
    ensures LoopStop(outs, table, pts) == None
        <==> forall i :: 0 <= i < |outs| ==> RoundStop(outs[i], table[i].expected, pts) == None
  {
    if |outs| > 0 {
      var init := outs[..|outs| - 1];
      LoopStopNoneIff(init, table, pts);
      assert forall i :: 0 <= i < |init| ==> init[i] == outs[i];
    }
  }

  /** A loop that stops does so at the first round that stops it. */
  lemma {:induction false} LoopStopFirst<L>(outs: seq<Outcome>, table: seq<Stimulus<L>>, pts: Points)
    requires |outs| <= |table| && LoopStop(outs, table, pts).Some?
    ensures exists k :: 0 <= k < |outs|
              && RoundStop(outs[k], table[k].expected, pts) == LoopStop(outs, table, pts)
              && forall i :: 0 <= i < k ==> RoundStop(outs[i], table[i].expected, pts) == None
  {
    var init := outs[..|outs| - 1];
    var k := |outs| - 1;
    if LoopStop(init, table, pts).Some? {
      LoopStopFirst(init, table, pts);
      var j :| 0 <= j < |init|
              && RoundStop(init[j], table[j].expected, pts) == LoopStop(init, table, pts)
              && forall i :: 0 <= i < j ==> RoundStop(init[i], table[i].expected, pts) == None;
      assert forall i :: 0 <= i <= j ==> init[i] == outs[i];
      k := j;
    } else {
      LoopStopNoneIff(init, table, pts);
      assert forall i :: 0 <= i < |init| ==> init[i] == outs[i];
    }
  }
}
