/** The NormDispOrUnbalance convergence test as an object: the fields the
    source updates in place, a history buffer held in an array, and methods
    proved to follow the value-level functions of module Decision and module
    Checkpoint. */
module ConvergenceTest {
  import opened Decision
  import opened Checkpoint

  class NormDispOrUnbalance {
    var theSOE: Option<SoeHandle>
    var tolDisp: real
    var tolUnbalance: real
    var maxNumIter: int
    var currentIter: nat
    var printFlag: int
    var nType: int
    var norms: array<real>

    /** Every field, as a value. */
    ghost function Model(): State
      reads this, norms
    {
      State(theSOE, tolDisp, tolUnbalance, maxNumIter, currentIter, printFlag, nType, norms[..])
    }

    ghost predicate Valid()
      reads this, norms
    {
      Wellformed(Model())
    }

    /** The fields a checkpoint carries. */
    function Settings(): Config
      reads this
    {
      Config(tolDisp, maxNumIter, printFlag, nType, tolUnbalance)
    }

    /** The default constructor: no budget, yet a 25-entry history. */
    constructor Default()
      ensures Valid() && fresh(norms)
      ensures Model() == State(None, 0.0, 0.0, 0, 0, 0, 2, seq(25, _ => 0.0))
    {
      theSOE := None;
      tolDisp, tolUnbalance := 0.0, 0.0;
      maxNumIter, currentIter, printFlag := 0, 0, 0;
      norms := new real[25](_ => 0.0);
      nType := 2;
    }

    constructor (theTolDisp: real, theTolUnbalance: real, maxIter: int, printIt: int, normType: int)
      requires maxIter >= 0
      ensures Valid() && fresh(norms)
      ensures Model() == Initial(theTolDisp, theTolUnbalance, maxIter, printIt, normType)
    {
      theSOE := None;
      tolDisp, tolUnbalance := theTolDisp, theTolUnbalance;
      maxNumIter, currentIter, printFlag := maxIter, 0, printIt;
      norms := new real[2 * maxIter](_ => 0.0);
      nType := normType;
    }

    /** A new test with the same tolerances, print flag, norm type and system,
        a new budget, and its own history.  The original is not modified. */
    method GetCopy(iterations: int) returns (c: NormDispOrUnbalance)
      requires iterations >= 0
      ensures fresh(c) && fresh(c.norms) && c.Valid()
      ensures c.Model() == CopyOf(Model(), iterations)
    {
      c := new NormDispOrUnbalance(tolDisp, tolUnbalance, iterations, printFlag, nType);
      c.theSOE := theSOE;
    }

    method SetTolerance(newTolDisp: real)
      modifies this
      ensures norms == old(norms)
      ensures Model() == old(Model()).(tolDisp := newTolDisp)
    {
      tolDisp := newTolDisp;
    }

    /** Binds the system the algorithm works on; `algoSoe` is what the
        algorithm reports as its system, absent when it has none.  The field is
        overwritten in both cases. */
    method SetEquiSolnAlgo(algoSoe: Option<SoeHandle>) returns (res: int)
      modifies this
      ensures norms == old(norms)
      ensures Model() == old(Model()).(soe := algoSoe)
      ensures res == (if algoSoe.None? then -1 else 0)
    {
      theSOE := algoSoe;
      if theSOE.None? {
        return -1;
      }
      return 0;
    }

    /** One convergence test, given the norms of the system's X and B. */
    method Test(normX: real, normB: real) returns (code: int)
      requires Valid()
      modifies this, norms
      ensures norms == old(norms) && Valid()
      ensures Outcome(code, Model()) == TestStep(old(Model()), normX, normB)
    {
      if theSOE.None? {
        return NotReady;
      }
      if currentIter == 0 {
        return NotReady;
      }
      HistoryWrite(Model(), normX, normB);
      if currentIter <= maxNumIter {
        norms[currentIter - 1] := normX;
        // The residual norm is written at 2*maxNumIter+currentIter-1 in the
        // source (NormDispOrUnbalance.cpp:114); HistoryWrite proves that index
        // is never inside the buffer, so that write changes nothing here.
      }
      if normX <= tolDisp || normB <= tolUnbalance {
        return currentIter;
      } else if (printFlag == 5 || printFlag == 6) && currentIter >= maxNumIter {
        return currentIter;
      } else if currentIter >= maxNumIter {
        currentIter := currentIter + 1;
        return NotReady;
      } else {
        currentIter := currentIter + 1;
        return Continue;
      }
    }

    /** Starts a new solution step: clears the history and sets the counter
        to 1, provided a system is bound. */
    method Start() returns (res: int)
      modifies this, norms
      ensures norms == old(norms)
      ensures Outcome(res, Model()) == StartStep(old(Model()))
    {
      if theSOE.None? {
        return -1;
      }
      var i := 0;
      while i < norms.Length
        invariant 0 <= i <= norms.Length
        invariant forall k :: 0 <= k < i ==> norms[k] == 0.0
        modifies norms
      {
        norms[i] := 0.0;
        i := i + 1;
      }
      assert norms[..] == seq(norms.Length, _ => 0.0);
      currentIter := 1;
      return 0;
    }

    /** The number of the current iteration: 0 before `start()`. */
    function GetNumTests(): (n: int)
      reads this
      ensures n == Model().currentIter
    {
      currentIter
    }

    function GetMaxNumTests(): (n: int)
      reads this
      ensures n == Model().maxNumIter
    {
      maxNumIter
    }

    /** The history buffer itself, not a copy. */
    function GetNorms(): (h: array<real>)
      reads this
      ensures h == norms && h[..] == Model().norms
    {
      norms
    }

    /** The record `sendSelf` writes to the channel; a successful receive of
        it gives back this test's configuration. */
    function SendSelf(): (x: Record)
      reads this
      ensures x == Encode(Settings())
      ensures Decode(x) == Settings()
    {
      RestoreOfEncode(Settings(), 0, Settings());
      Encode(Settings())
    }

    /** Reads a checkpoint: `res` is the channel's result code and `x` the
        record it delivered.  The history is resized to `maxNumIter` entries
        (its contents are not modelled); the counter and binding are kept. */
    method RecvSelf(res: int, x: Record) returns (r: int)
      modifies this
      ensures r == res && Valid()
      ensures Settings() == Restore(res, x, old(Settings()))
      ensures theSOE == old(theSOE) && currentIter == old(currentIter)
      ensures maxNumIter >= 0 ==> norms.Length == maxNumIter
      ensures maxNumIter < 0 ==> norms == old(norms)
    {
      if res < 0 {
        tolDisp := DefaultTolDisp;
        maxNumIter := DefaultMaxNumIter;
        printFlag := DefaultPrintFlag;
        nType := DefaultNormType;
      } else {
        tolDisp := x[0];
        tolUnbalance := x[4];
        maxNumIter := Trunc(x[1]);
        printFlag := Trunc(x[2]);
        nType := Trunc(x[3]);
      }
      if maxNumIter >= 0 {
        norms := new real[maxNumIter];
      }
      return res;
    }
  }

  /** Three tests with a budget of 3 and norms that never meet the tolerances:
      "continue", "continue", then "not ready" with the counter at 4 — or,
      with print flag 5 or 6, a success at iteration 3. */
  method BudgetScenario(printIt: int) returns (codes: seq<int>, finalIter: int)
    ensures !SoftAccept(printIt) ==> codes == [-1, -1, -2] && finalIter == 4
    ensures SoftAccept(printIt) ==> codes == [-1, -1, 3] && finalIter == 3
  {
    var t := new NormDispOrUnbalance(0.000001, 0.0001, 3, printIt, 2);
    var bound := t.SetEquiSolnAlgo(Some(SoeHandle(0)));
    var started := t.Start();
    var c1 := t.Test(1.0, 1.0);
    var c2 := t.Test(1.0, 1.0);
    var c3 := t.Test(1.0, 1.0);
    codes := [c1, c2, c3];
    finalIter := t.GetNumTests();
  }

  /** Budget 2, two calls whose norms never meet the tolerances: the calls
      return -1 then -2, and the 4-entry history holds the two displacement
      norms followed by two zeros.  The residual norms 3.0 and 4.0 are not
      recorded, because line 114 of the source stores them past the end. */
  method HistoryScenario() returns (codes: seq<int>, history: seq<real>)
    ensures codes == [-1, -2]
    ensures history == [1.0, 2.0, 0.0, 0.0]
  {
    var t := new NormDispOrUnbalance(0.000001, 0.0001, 2, 0, 2);
    var bound := t.SetEquiSolnAlgo(Some(SoeHandle(0)));
    var started := t.Start();
    var c1 := t.Test(1.0, 3.0);
    var c2 := t.Test(2.0, 4.0);
    codes := [c1, c2];
    history := t.GetNorms()[..];
  }

  /** A test that is never bound answers "not ready" and its start fails;
      its history is untouched. */
  method UnboundScenario() returns (startCode: int, testCode: int, history: seq<real>)
    ensures startCode == -1 && testCode == NotReady
    ensures history == seq(20, _ => 0.0)
  {
    var t := new NormDispOrUnbalance(0.000001, 0.0001, 10, 0, 2);
    startCode := t.Start();
    testCode := t.Test(0.0, 0.0);
    history := t.GetNorms()[..];
  }

  /** A checkpoint of (1e-6, 1e-4, 10 iterations, print flag 2, 2-norm) read
      into a default-constructed test restores all five values; the restored
      history has 10 entries, not 20. */
  method CheckpointScenario() returns (restored: Config, historyLength: int)
    ensures restored == Config(0.000001, 10, 2, 2, 0.0001)
    ensures historyLength == 10
  {
    var t := new NormDispOrUnbalance(0.000001, 0.0001, 10, 2, 2);
    var x := t.SendSelf();
    var u := new NormDispOrUnbalance.Default();
    var r := u.RecvSelf(0, x);
    restored := u.Settings();
    historyLength := u.GetNorms().Length;
  }

  /** The default-constructed test, once bound and started, fails its first
      unconverged test: its budget is 0. */
  method DefaultBudgetScenario() returns (code: int)
    ensures code == NotReady
  {
    var t := new NormDispOrUnbalance.Default();
    var bound := t.SetEquiSolnAlgo(Some(SoeHandle(0)));
    var started := t.Start();
    code := t.Test(1.0, 1.0);
  }
}
