/** The decision logic of the NormDispOrUnbalance convergence test, stated on values.

    A `State` is a snapshot of every field of the test object; `TestStep` and
    `StartStep` say what one call of `test()` or `start()` returns and what the
    object's fields are afterwards.  The class in module ConvergenceTest is
    proved to follow these functions, and the lemmas below state what the
    functions promise to the solution algorithm that drives the test. */
module Decision {

  /** Control codes shared by every convergence test. */
  const Continue: int := -1
  const NotReady: int := -2

  /** A non-owning handle to the linear system of equations whose X and B
      vectors the test measures; the system itself is external. */
  datatype SoeHandle = SoeHandle(id: nat)

  datatype Option<T> = None | Some(value: T)

  /** Every field of the test object. `norms` is the history buffer. */
  datatype State = State(
    soe: Option<SoeHandle>,
    tolDisp: real,
    tolUnbalance: real,
    maxNumIter: int,
    currentIter: nat,
    printFlag: int,
    nType: int,
    norms: seq<real>)

  /** What every constructor establishes and every operation keeps: a
      positive budget comes with a buffer of either `maxNumIter` (after a
      restore) or `2 * maxNumIter` entries.  (The counter is a `nat`: it
      starts at 0 and only `start()` and increments change it.) */
  predicate Wellformed(s: State) {
    s.maxNumIter <= 0 || |s.norms| == s.maxNumIter || |s.norms| == 2 * s.maxNumIter
  }

  /** Print flags 5 and 6 ask the test to accept an exhausted budget. */
  predicate SoftAccept(printFlag: int) {
    printFlag == 5 || printFlag == 6
  }

  /** Either criterion alone is enough. */
  predicate Converged(s: State, normX: real, normB: real) {
    normX <= s.tolDisp || normB <= s.tolUnbalance
  }

  /** A buffer write that leaves the buffer alone when the index is outside it. */
  function Put(h: seq<real>, i: int, v: real): (r: seq<real>)
    ensures |r| == |h|
    ensures forall k :: 0 <= k < |h| ==> r[k] == (if k == i then v else h[k])
  {
    if 0 <= i < |h| then h[i := v] else h
  }

  /** The buffer after `test()` stores the two norms of the current iteration:
      normX at `currentIter-1` and, as the source writes it, normB at
      `2*maxNumIter+currentIter-1`. */
  function RecordNorms(s: State, normX: real, normB: real): (r: seq<real>)
    ensures |r| == |s.norms|
    // inside the budget, normX lands at currentIter-1 whenever that is in the buffer
    ensures 1 <= s.currentIter <= s.maxNumIter && s.currentIter - 1 < |s.norms| ==>
              r[s.currentIter - 1] == normX
    // no entry other than the two target indices changes, and past the budget none does
    ensures forall k :: 0 <= k < |s.norms| && r[k] != s.norms[k] ==>
              s.currentIter <= s.maxNumIter &&
              (k == s.currentIter - 1 || k == 2 * s.maxNumIter + s.currentIter - 1)
  {
    if s.currentIter <= s.maxNumIter then
      Put(Put(s.norms, s.currentIter - 1, normX), 2 * s.maxNumIter + s.currentIter - 1, normB)
    else
      s.norms
  }

  datatype Outcome = Outcome(code: int, after: State)

  /** One call of `test()` with the norms of the current increment and residual. */
  function TestStep(s: State, normX: real, normB: real): (r: Outcome)
    // only the history and the counter ever change
    ensures r.after.(norms := s.norms, currentIter := s.currentIter) == s
    // every answer is a control code: continue, not ready, or an iteration count
    ensures r.code >= 0 || r.code == Continue || r.code == NotReady
    // a success reports the counter and leaves it alone
    ensures r.code >= 0 ==> r.code == s.currentIter && r.after.currentIter == s.currentIter
    // continuing advances the counter by exactly one
    ensures r.code == Continue ==> r.after.currentIter == s.currentIter + 1
    ensures r.code == NotReady ==>
              r.after.currentIter == s.currentIter || r.after.currentIter == s.currentIter + 1
  {
    if s.soe.None? || s.currentIter == 0 then
      Outcome(NotReady, s)
    else
      var recorded := s.(norms := RecordNorms(s, normX, normB));
      if Converged(s, normX, normB) then
        Outcome(s.currentIter, recorded)
      else if SoftAccept(s.printFlag) && s.currentIter >= s.maxNumIter then
        Outcome(s.currentIter, recorded)
      else if s.currentIter >= s.maxNumIter then
        Outcome(NotReady, recorded.(currentIter := s.currentIter + 1))
      else
        Outcome(Continue, recorded.(currentIter := s.currentIter + 1))
  }

  /** One call of `start()`. */
  function StartStep(s: State): (r: Outcome)
    // only the history and the counter change, and the history keeps its length
    ensures r.after.(norms := s.norms, currentIter := s.currentIter) == s
    ensures |r.after.norms| == |s.norms|
    // the start succeeds exactly when a system is bound
    ensures r.code == 0 <==> s.soe.Some?
    ensures r.code == -1 <==> s.soe.None?
    ensures s.soe.None? ==> r.after == s
  {
    if s.soe.None? then
      Outcome(-1, s)
    else
      Outcome(0, s.(norms := seq(|s.norms|, _ => 0.0), currentIter := 1))
  }

  /** The object a constructor builds: unbound, not started, zeroed history of
      `2 * maxIter` entries. */
  function Initial(tolDisp: real, tolUnbalance: real, maxIter: nat, printIt: int, normType: int): (s: State)
    ensures Wellformed(s) && s.soe.None? && s.currentIter == 0
    ensures s.maxNumIter == maxIter && s.tolDisp == tolDisp && s.tolUnbalance == tolUnbalance
    ensures s.printFlag == printIt && s.nType == normType
    ensures |s.norms| == 2 * s.maxNumIter
    ensures forall k :: 0 <= k < |s.norms| ==> s.norms[k] == 0.0
  {
    State(None, tolDisp, tolUnbalance, maxIter, 0, printIt, normType, seq(2 * maxIter, _ => 0.0))
  }

  /** The object `getCopy(iterations)` builds from `s`. */
  function CopyOf(s: State, iterations: nat): (c: State)
    ensures Wellformed(c) && c.soe == s.soe && c.currentIter == 0
    ensures c.maxNumIter == iterations && |c.norms| == 2 * iterations
  {
    Initial(s.tolDisp, s.tolUnbalance, iterations, s.printFlag, s.nType).(soe := s.soe)
  }

  /** The norms the driving algorithm measures at one iteration. */
  datatype NormPair = NormPair(normX: real, normB: real)

  datatype Trace = Trace(codes: seq<int>, final: State)

  /** A sequence of `test()` calls, one per measured pair, without `start()`
      in between. */
  function Run(s: State, inputs: seq<NormPair>): (t: Trace)
    ensures |t.codes| == |inputs|
    ensures t.final.soe == s.soe && t.final.maxNumIter == s.maxNumIter
    ensures |t.final.norms| == |s.norms|
    decreases |inputs|
  {
    if inputs == [] then
      Trace([], s)
    else
      var step := TestStep(s, inputs[0].normX, inputs[0].normB);
      var rest := Run(step.after, inputs[1..]);
      Trace([step.code] + rest.codes, rest.final)
  }

  // ---------------------------------------------------------------------
  // test()

  /** Without a bound system, or before `start()`, `test()` answers "not
      ready" and changes nothing. */
  lemma NotReadyWhenUnboundOrUnstarted(s: State, normX: real, normB: real)
    requires s.soe.None? || s.currentIter == 0
    ensures TestStep(s, normX, normB) == Outcome(NotReady, s)
  {
  }

  /** Either norm under its tolerance is a success reported at the current
      iteration, without advancing the counter. */
  lemma ConvergedOnEitherNorm(s: State, normX: real, normB: real)
    requires s.soe.Some? && s.currentIter != 0
    requires normX <= s.tolDisp || normB <= s.tolUnbalance
    ensures TestStep(s, normX, normB).code == s.currentIter
    ensures TestStep(s, normX, normB).after.currentIter == s.currentIter
  {
  }

  /** The three outcomes when neither norm is under its tolerance. */
  lemma NotConvergedBranches(s: State, normX: real, normB: real)
    requires s.soe.Some? && s.currentIter != 0
    requires normX > s.tolDisp && normB > s.tolUnbalance
    ensures s.currentIter < s.maxNumIter ==>
              TestStep(s, normX, normB).code == Continue &&
              TestStep(s, normX, normB).after.currentIter == s.currentIter + 1
    ensures s.currentIter >= s.maxNumIter && SoftAccept(s.printFlag) ==>
              TestStep(s, normX, normB).code == s.currentIter &&
              TestStep(s, normX, normB).after.currentIter == s.currentIter
    ensures s.currentIter >= s.maxNumIter && !SoftAccept(s.printFlag) ==>
              TestStep(s, normX, normB).code == NotReady &&
              TestStep(s, normX, normB).after.currentIter == s.currentIter + 1
  {
  }

  /** A success code is returned exactly when the test is bound and started
      and either a norm is under its tolerance or the budget is spent under a
      soft-accept print flag. */
  lemma SuccessIff(s: State, normX: real, normB: real)
    ensures TestStep(s, normX, normB).code >= 0 <==>
              s.soe.Some? && s.currentIter >= 1 &&
              (Converged(s, normX, normB) ||
               (SoftAccept(s.printFlag) && s.currentIter >= s.maxNumIter))
  {
  }

  /** History writes (lines 112-115 of the source): the displacement norm lands
      at `currentIter-1`, inside the buffer; the residual index
      `2*maxNumIter+currentIter-1` (line 114) is never inside a buffer of
      `maxNumIter` or `2*maxNumIter` entries, so that write never happens and
      no other entry changes.  Past the budget nothing is written. */
  lemma HistoryWrite(s: State, normX: real, normB: real)
    requires Wellformed(s) && s.soe.Some? && s.currentIter >= 1
    ensures s.currentIter <= s.maxNumIter ==>
              s.currentIter - 1 < |s.norms| <= 2 * s.maxNumIter + s.currentIter - 1 &&
              TestStep(s, normX, normB).after.norms == s.norms[s.currentIter - 1 := normX]
    ensures s.currentIter > s.maxNumIter ==>
              TestStep(s, normX, normB).after.norms == s.norms
  {
  }

  lemma TestKeepsWellformed(s: State, normX: real, normB: real)
    requires Wellformed(s)
    ensures Wellformed(TestStep(s, normX, normB).after)
  {
  }

  /** After an exhausted budget without soft acceptance every further call
      keeps failing, and the counter keeps growing past `maxNumIter + 1`. */
  lemma ExhaustedStaysFailed(s: State, normX: real, normB: real)
    requires s.soe.Some? && s.currentIter > s.maxNumIter && s.currentIter >= 1
    requires !SoftAccept(s.printFlag)
    requires normX > s.tolDisp && normB > s.tolUnbalance
    ensures TestStep(s, normX, normB).code == NotReady
    ensures TestStep(s, normX, normB).after.currentIter == s.currentIter + 1
    ensures TestStep(s, normX, normB).after.norms == s.norms
  {
  }

  // ---------------------------------------------------------------------
  // start()

  /** Unbound: -1 and nothing changes.  Bound: 0, counter 1, every entry of
      the history zero, nothing else changes. */
  lemma StartResets(s: State)
    ensures s.soe.None? ==> StartStep(s) == Outcome(-1, s)
    ensures s.soe.Some? ==>
              StartStep(s).code == 0 &&
              StartStep(s).after.currentIter == 1 &&
              |StartStep(s).after.norms| == |s.norms| &&
              (forall k :: 0 <= k < |s.norms| ==> StartStep(s).after.norms[k] == 0.0) &&
              StartStep(s).after.(norms := s.norms, currentIter := s.currentIter) == s
  {
  }

  /** Calling `start()` twice in a row is the same as calling it once. */
  lemma StartIdempotent(s: State)
    ensures StartStep(StartStep(s).after) == StartStep(s)
  {
  }

  lemma StartKeepsWellformed(s: State)
    requires Wellformed(s)
    ensures Wellformed(StartStep(s).after)
  {
  }

  // ---------------------------------------------------------------------
  // getCopy()

  /** The copy keeps the configuration and the binding, takes the new budget,
      is not started, and has a zeroed history sized for the new budget. */
  lemma CopyKeepsConfiguration(s: State, iterations: nat)
    ensures CopyOf(s, iterations).(maxNumIter := s.maxNumIter,
                                   currentIter := s.currentIter,
                                   norms := s.norms) == s
    ensures CopyOf(s, iterations).maxNumIter == iterations
    ensures CopyOf(s, iterations).currentIter == 0
    ensures CopyOf(s, iterations).norms == seq(2 * iterations, _ => 0.0)
    ensures Wellformed(CopyOf(s, iterations))
  {
  }

  // ---------------------------------------------------------------------
  // Runs of several test() calls

  /** With neither norm ever under its tolerance, a started test answers
      "continue" until the counter reaches the budget, and at the budget
      answers with the counter (print flag 5 or 6) or "not ready". */
  lemma {:induction false} BudgetPolicy(s: State, inputs: seq<NormPair>)
    requires s.soe.Some? && 1 <= s.currentIter <= s.maxNumIter
    requires |inputs| == s.maxNumIter - s.currentIter + 1
    requires forall i :: 0 <= i < |inputs| ==>
               inputs[i].normX > s.tolDisp && inputs[i].normB > s.tolUnbalance
    ensures Run(s, inputs).codes ==
              seq(|inputs| - 1, _ => Continue) +
              [if SoftAccept(s.printFlag) then s.maxNumIter else NotReady]
    ensures Run(s, inputs).final.currentIter ==
              if SoftAccept(s.printFlag) then s.maxNumIter else s.maxNumIter + 1
    decreases |inputs|
  {
    var step := TestStep(s, inputs[0].normX, inputs[0].normB);
    NotConvergedBranches(s, inputs[0].normX, inputs[0].normB);
    if |inputs| == 1 {
      assert Run(step.after, inputs[1..]) == Trace([], step.after);
    } else {
      var rest := inputs[1..];
      assert forall i :: 0 <= i < |rest| ==>
               rest[i].normX > step.after.tolDisp && rest[i].normB > step.after.tolUnbalance by {
        forall i | 0 <= i < |rest|
          ensures rest[i].normX > step.after.tolDisp && rest[i].normB > step.after.tolUnbalance
        {
          assert rest[i] == inputs[i + 1];
        }
      }
      BudgetPolicy(step.after, rest);
      var last := if SoftAccept(s.printFlag) then s.maxNumIter else NotReady;
      assert [Continue] + (seq(|rest| - 1, _ => Continue) + [last]) ==
             seq(|inputs| - 1, _ => Continue) + [last];
    }
  }

  /** The residual half of the history is never written: if it holds only
      zeros (as after `start()`), it still does after any run of `test()`. */
  lemma {:induction false} ResidualHalfNeverWritten(s: State, inputs: seq<NormPair>)
    requires Wellformed(s)
    requires forall k :: s.maxNumIter <= k < |s.norms| && 0 <= k ==> s.norms[k] == 0.0
    ensures forall k :: s.maxNumIter <= k < |s.norms| && 0 <= k ==> Run(s, inputs).final.norms[k] == 0.0
    decreases |inputs|
  {
    if inputs != [] {
      var step := TestStep(s, inputs[0].normX, inputs[0].normB);
      TestKeepsWellformed(s, inputs[0].normX, inputs[0].normB);
      if step.after.norms != s.norms {
        HistoryWrite(s, inputs[0].normX, inputs[0].normB);
      }
      ResidualHalfNeverWritten(step.after, inputs[1..]);
    }
  }

  /** What a run records: with neither norm under its tolerance and every
      call inside the budget, the i-th call stores its normX at index
      `currentIter-1+i`; no other entry changes (the residual norms are not
      stored anywhere, see HistoryWrite). */
  lemma {:induction false} HistoryOfRun(s: State, inputs: seq<NormPair>)
    requires Wellformed(s) && s.soe.Some? && s.currentIter >= 1
    requires s.currentIter + |inputs| - 1 <= s.maxNumIter
    requires forall i :: 0 <= i < |inputs| ==>
               inputs[i].normX > s.tolDisp && inputs[i].normB > s.tolUnbalance
    ensures forall k :: 0 <= k < |s.norms| ==>
              Run(s, inputs).final.norms[k] ==
                (if s.currentIter - 1 <= k < s.currentIter - 1 + |inputs|
                 then inputs[k - s.currentIter + 1].normX else s.norms[k])
    decreases |inputs|
  {
    if inputs != [] {
      var c := s.currentIter;
      var step := TestStep(s, inputs[0].normX, inputs[0].normB);
      HistoryWrite(s, inputs[0].normX, inputs[0].normB);
      assert step.after.norms == s.norms[c - 1 := inputs[0].normX];
      if |inputs| == 1 {
        assert Run(step.after, inputs[1..]) == Trace([], step.after);
      } else {
        NotConvergedBranches(s, inputs[0].normX, inputs[0].normB);
        TestKeepsWellformed(s, inputs[0].normX, inputs[0].normB);
        var rest := inputs[1..];
        assert forall i :: 0 <= i < |rest| ==>
                 rest[i].normX > step.after.tolDisp && rest[i].normB > step.after.tolUnbalance by {
          forall i | 0 <= i < |rest|
            ensures rest[i].normX > step.after.tolDisp && rest[i].normB > step.after.tolUnbalance
          {
            assert rest[i] == inputs[i + 1];
          }
        }
        HistoryOfRun(step.after, rest);
        forall k | 0 <= k < |s.norms|
          ensures Run(s, inputs).final.norms[k] ==
                    (if c - 1 <= k < c - 1 + |inputs| then inputs[k - c + 1].normX else s.norms[k])
        {
          if c <= k < c + |rest| {
            assert rest[k - c] == inputs[k - c + 1];
          }
        }
      }
    }
  }

  /** After `start()` and k <= maxNumIter calls whose norms never meet the
      tolerances, the history holds the k displacement norms in its first k
      entries and zeros everywhere else: the residual norms are lost. */
  lemma HistoryAfterStart(s: State, inputs: seq<NormPair>)
    requires Wellformed(s) && s.soe.Some?
    requires |inputs| <= s.maxNumIter
    requires forall i :: 0 <= i < |inputs| ==>
               inputs[i].normX > s.tolDisp && inputs[i].normB > s.tolUnbalance
    ensures |Run(StartStep(s).after, inputs).final.norms| == |s.norms|
    ensures forall k :: 0 <= k < |s.norms| ==>
              Run(StartStep(s).after, inputs).final.norms[k] ==
                (if k < |inputs| then inputs[k].normX else 0.0)
  {
    HistoryOfRun(StartStep(s).after, inputs);
  }
}
