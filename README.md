# NormDispOrUnbalance convergence test

This project models `NormDispOrUnbalance`, the OpenSees convergence test that
a nonlinear solution algorithm consults once per iteration. The test declares
convergence when the norm of the displacement increment (the system's X) is
under `tolDisp` OR the norm of the unbalance (the system's B) is under
`tolUnbalance`. It counts iterations against a budget `maxNumIter` and keeps
a history buffer `norms`. It can also be checkpointed as a five-value record.
Its answers are integer control codes: `-1` continue, `-2` not ready or
failed, and `n >= 0` converged at iteration `n`.

- `decision.dfy`, module `Decision`: the object's fields as a value (`State`).
  `TestStep` and `StartStep` say what `test()` and `start()` return and leave
  behind. `Run` chains several `test()` calls. Lemmas state the decision
  policy, the history writes and the budget policy.
- `checkpoint.dfy`, module `Checkpoint`: the wire record, C++'s truncating
  double-to-int cast, and the restore with its failure defaults.
- `monitor.dfy`, module `ConvergenceTest`: the class `NormDispOrUnbalance`.
  Its fields are the source's fields, and `norms` is an `array<real>`. The
  postconditions of `Test`, `Start` and `RecvSelf` tie the new fields to
  `TestStep`, `StartStep` and `Restore` applied to the old ones. The
  constructors and `GetCopy` tie the new object to `Initial` and `CopyOf`.
  `SetTolerance` and `SetEquiSolnAlgo` state the new fields as the old ones
  with one field replaced. A few client methods replay concrete
  scenarios through the class.

The norms themselves come from the linear system (`LinearSOE::getX`/`getB`
and `Vector::pNorm`), which is external. `Test` therefore takes `normX` and
`normB` as `real` arguments. The bound system is an opaque `SoeHandle`. The
channel used by `recvSelf` is replaced by its result code and the record it
delivered.

Behaviour of the code that the model reproduces and states as lemmas:

- The residual norm is stored at index `2*maxNumIter+currentIter-1`
  (NormDispOrUnbalance.cpp:114). Line 114 has no guard of its own and always
  performs that store. Whenever the guard at line 112 holds, the budget is
  positive and the buffer has `maxNumIter` or `2*maxNumIter` entries, so the
  index is always past the end of the buffer. The model turns that store
  into a no-op (see "## Left out"). `Decision.HistoryWrite` proves that the
  model's bounds check on that index never passes.
  `Decision.ResidualHalfNeverWritten` proves that the residual half of the
  history stays zero. `Decision.HistoryAfterStart` and
  `ConvergenceTest.HistoryScenario` show that after a run only displacement
  norms are recorded.
- `recvSelf` resizes the history to `maxNumIter` entries, not
  `2*maxNumIter`, in both branches (lines 246, 253). A failed receive never
  assigns `tolUnbalance`.
- The default constructor sets a budget of 0 but a 25-entry history
  (lines 36-37). Once bound and started, such a test fails on its first
  unconverged iteration.
- After an exhausted budget without soft acceptance, each further
  unconverged `test()` call returns `-2` and increments the counter again.
  A call whose norms meet a tolerance still returns the counter. The counter is not
  capped at `maxNumIter + 1`.
- `setEquiSolnAlgo` overwrites the binding even when the algorithm has no
  system, so a failed rebind leaves the test unbound.

## Model

| member | source | states |
|---|---|---|
| `Decision.TestStep` | SRC/convergenceTest/NormDispOrUnbalance.cpp:92-173 | `test()` changes only the history and the counter; every answer is -1, -2 or an iteration count; a count equals the counter and leaves it alone; -1 advances the counter by exactly one; -2 advances it by at most one |
| `Decision.NotReadyWhenUnboundOrUnstarted` | SRC/convergenceTest/NormDispOrUnbalance.cpp:96-104 | with no system bound, or before `start()`, `test()` returns -2 and changes no field |
| `Decision.ConvergedOnEitherNorm` | SRC/convergenceTest/NormDispOrUnbalance.cpp:135-150 | when bound and started, either norm at or under its tolerance alone yields the current iteration number, and the counter is not incremented |
| `Decision.NotConvergedBranches` | SRC/convergenceTest/NormDispOrUnbalance.cpp:153-172 | when neither norm is at or under its tolerance: under budget, -1 and the counter +1; at or past budget with print flag 5 or 6, the counter is returned and kept; otherwise -2 and the counter +1 |
| `Decision.SuccessIff` | SRC/convergenceTest/NormDispOrUnbalance.cpp:92-173 | a non-negative code comes back exactly when the test is bound and started and either a norm meets its tolerance or the budget is spent under print flag 5 or 6 |
| `Decision.HistoryWrite` | SRC/convergenceTest/NormDispOrUnbalance.cpp:112-115 | for `1 <= currentIter <= maxNumIter` and a buffer of `maxNumIter` or `2*maxNumIter` entries, normX lands at `currentIter-1`, inside the buffer; the residual index `2*maxNumIter+currentIter-1` is past the end; no other entry changes; past the budget nothing is written |
| `Decision.TestKeepsWellformed` | SRC/convergenceTest/NormDispOrUnbalance.cpp:112-172 | `test()` keeps the buffer sized for the budget |
| `Decision.ExhaustedStaysFailed` | SRC/convergenceTest/NormDispOrUnbalance.cpp:161-166 | once past the budget without soft acceptance, each unconverged `test()` returns -2 again, increments the counter again and writes no history |
| `Decision.StartResets` | SRC/convergenceTest/NormDispOrUnbalance.cpp:176-187 | unbound: -1 and nothing changes; bound: 0, every history entry zero, same length, counter 1, no other field changes |
| `Decision.StartIdempotent` | SRC/convergenceTest/NormDispOrUnbalance.cpp:176-187 | two `start()` calls in a row leave the same state and code as one |
| `Decision.StartKeepsWellformed` | SRC/convergenceTest/NormDispOrUnbalance.cpp:184-185 | `start()` keeps the buffer sized for the budget |
| `Decision.CopyKeepsConfiguration` | SRC/convergenceTest/NormDispOrUnbalance.cpp:59-71 | `getCopy(k)` keeps tolerances, print flag, norm type and binding; its budget is k, its counter 0, its history 2k zeros |
| `Decision.Run` | SRC/convergenceTest/NormDispOrUnbalance.cpp:92-173 | a run of `test()` calls gives one code per call and keeps the binding, the budget and the buffer length |
| `Decision.BudgetPolicy` | SRC/convergenceTest/NormDispOrUnbalance.cpp:153-172 | started at iteration c of budget m with norms that never meet the tolerances, the m-c+1 calls answer -1 every time but the last; the last answers m (print flag 5 or 6, counter ends at m) or -2 (counter ends at m+1) |
| `Decision.ResidualHalfNeverWritten` | SRC/convergenceTest/NormDispOrUnbalance.cpp:112-115 | if entries from `maxNumIter` on are zero, they are still zero after any run of `test()` calls |
| `Decision.Put` | SRC/convergenceTest/NormDispOrUnbalance.cpp:112-115 | a store into the history: same length; the entry at the index becomes the value when the index is inside the buffer, and every other entry is unchanged |
| `Decision.RecordNorms` | SRC/convergenceTest/NormDispOrUnbalance.cpp:112-115 | the history after the stores of one `test()` call: same length; inside the budget normX is at `currentIter-1`; an entry changes only inside the budget, and only at `currentIter-1` or `2*maxNumIter+currentIter-1` |
| `Decision.StartStep` | SRC/convergenceTest/NormDispOrUnbalance.cpp:176-187 | `start()` changes only the history and the counter and keeps the history's length; it returns 0 exactly when a system is bound and -1 exactly when none is, and then changes nothing |
| `Decision.Initial` | SRC/convergenceTest/NormDispOrUnbalance.cpp:43-50 | the constructed state has the given tolerances, budget, print flag and norm type; it is unbound and not started, and has a history of `2*maxIter` zeros |
| `Decision.CopyOf` | SRC/convergenceTest/NormDispOrUnbalance.cpp:59-71 | the copy keeps the binding, is not started, and has budget `iterations` with `2*iterations` history entries |
| `Decision.HistoryOfRun` | SRC/convergenceTest/NormDispOrUnbalance.cpp:112-172 | with no norm meeting its tolerance and every call inside the budget, the i-th call's normX ends at index `currentIter-1+i` and every other entry is unchanged |
| `Decision.HistoryAfterStart` | SRC/convergenceTest/NormDispOrUnbalance.cpp:112-187 | after `start()` and k <= `maxNumIter` unconverged calls, the first k entries are the k displacement norms and every other entry is zero; no residual norm is kept |
| `Checkpoint.Encode` | SRC/convergenceTest/NormDispOrUnbalance.cpp:218-223 | the record `sendSelf` builds has whole numbers in its three integer slots and decodes back to the configuration it came from |
| `Checkpoint.Decode` | SRC/convergenceTest/NormDispOrUnbalance.cpp:248-252 | a successful receive takes both tolerances from slots 0 and 4 unchanged; slots 1-3 become the budget, print flag and norm type truncated toward zero (`Trunc`), so each comes back unchanged exactly when it holds a whole number |
| `Checkpoint.Restore` | SRC/convergenceTest/NormDispOrUnbalance.cpp:240-254 | a failed receive installs tolDisp 1e-8, budget 25, print flag 0 and norm type 2 and keeps tolUnbalance; a successful one installs the decoded record, with the integer slots truncated |
| `ConvergenceTest.HistoryScenario` | SRC/convergenceTest/NormDispOrUnbalance.cpp:112-115 | budget 2, two unconverged calls with norms (1, 3) and (2, 4): they return -1 then -2, and the history is [1, 2, 0, 0] |
| `Checkpoint.Trunc` | SRC/convergenceTest/NormDispOrUnbalance.cpp:250-252 | the `(int)` cast truncates toward zero: for non-negative x the result is the largest integer not above x, for negative x the smallest integer not below it |
| `Checkpoint.TruncOfIntegral` | SRC/convergenceTest/NormDispOrUnbalance.cpp:250-252 | truncation is the identity on integral values |
| `Checkpoint.RestoreOfEncode` | SRC/convergenceTest/NormDispOrUnbalance.cpp:218-253 | a successful receive of the record `sendSelf` writes restores tolDisp, maxNumIter, printFlag, nType and tolUnbalance exactly |
| `Checkpoint.RestoreOnFailure` | SRC/convergenceTest/NormDispOrUnbalance.cpp:240-246 | a failed receive installs tolDisp 1e-8, budget 25, print flag 0 and norm type 2 and leaves tolUnbalance unchanged |
| `Checkpoint.EncodeOfDecode` | SRC/convergenceTest/NormDispOrUnbalance.cpp:218-252 | re-encoding a received record gives it back exactly when its three integer slots hold integral values |
| `ConvergenceTest.NormDispOrUnbalance.Default` | SRC/convergenceTest/NormDispOrUnbalance.cpp:33-40 | unbound, tolerances 0, budget 0, counter 0, print flag 0, norm type 2, history of 25 zeros |
| `ConvergenceTest.NormDispOrUnbalance.constructor` | SRC/convergenceTest/NormDispOrUnbalance.cpp:43-50 | unbound, the given tolerances, budget, print flag and norm type, counter 0, history of `2*maxIter` zeros |
| `ConvergenceTest.NormDispOrUnbalance.GetCopy` | SRC/convergenceTest/NormDispOrUnbalance.cpp:59-71 | a fresh object with its own fresh history, in the state `CopyOf` gives: same configuration and binding, the new budget, not started; the method may not modify the original |
| `ConvergenceTest.NormDispOrUnbalance.SetTolerance` | SRC/convergenceTest/NormDispOrUnbalance.cpp:74-77 | only tolDisp changes |
| `ConvergenceTest.NormDispOrUnbalance.SetEquiSolnAlgo` | SRC/convergenceTest/NormDispOrUnbalance.cpp:80-89 | the binding becomes the algorithm's system, or absent; -1 when absent, 0 otherwise; nothing else changes |
| `ConvergenceTest.NormDispOrUnbalance.Test` | SRC/convergenceTest/NormDispOrUnbalance.cpp:92-173 | the code and every field afterwards are those `TestStep` gives for the fields before; the buffer stays the same array and stays sized for the budget |
| `ConvergenceTest.NormDispOrUnbalance.Start` | SRC/convergenceTest/NormDispOrUnbalance.cpp:176-187 | the code and every field afterwards are those `StartStep` gives; the buffer is zeroed in place |
| `ConvergenceTest.NormDispOrUnbalance.GetNumTests` | SRC/convergenceTest/NormDispOrUnbalance.cpp:190-193 | returns the object's current iteration counter (a constructor leaves it at 0, and `Start` sets it to 1) |
| `ConvergenceTest.NormDispOrUnbalance.GetMaxNumTests` | SRC/convergenceTest/NormDispOrUnbalance.cpp:196-199 | the iteration budget |
| `ConvergenceTest.NormDispOrUnbalance.GetNorms` | SRC/convergenceTest/NormDispOrUnbalance.cpp:209-212 | the history buffer itself, not a copy |
| `ConvergenceTest.NormDispOrUnbalance.SendSelf` | SRC/convergenceTest/NormDispOrUnbalance.cpp:215-229 | writes exactly `[tolDisp, maxNumIter, printFlag, nType, tolUnbalance]` (`Encode` of the configuration), which decodes back to the configuration |
| `ConvergenceTest.NormDispOrUnbalance.RecvSelf` | SRC/convergenceTest/NormDispOrUnbalance.cpp:231-256 | the configuration becomes `Restore` of the channel's code, the record and the old configuration; the channel's code is returned; the binding and the counter are kept; the history gets `maxNumIter` entries in both branches |
| `ConvergenceTest.BudgetScenario` | SRC/convergenceTest/NormDispOrUnbalance.cpp:153-172 | budget 3, tolerances never met: the three calls return -1, -1, -2 and the counter ends at 4; with print flag 5 or 6 they return -1, -1, 3 and it ends at 3 |
| `ConvergenceTest.UnboundScenario` | SRC/convergenceTest/NormDispOrUnbalance.cpp:92-187 | a never-bound test: `start()` returns -1, `test()` returns -2, the history stays 20 zeros |
| `ConvergenceTest.CheckpointScenario` | SRC/convergenceTest/NormDispOrUnbalance.cpp:215-256 | sending (1e-6, 1e-4, 10, 2, 2) and receiving it into a default test restores all five values, with a history of 10 entries |
| `ConvergenceTest.DefaultBudgetScenario` | SRC/convergenceTest/NormDispOrUnbalance.cpp:33-40 | a default test, bound and started, returns -2 on its first unconverged call |

## Left out

- The residual store at NormDispOrUnbalance.cpp:114: the source performs it
  without a bounds check, at an index past the end of the buffer's storage.
  The model does not capture that out-of-range write or its effect on
  memory; it treats the store as changing nothing.
- Printing: every `opserr` line and the print flags 1, 2 and 4. They only
  produce log output. Print flags 5 and 6 are modelled, because they change
  the answer.
- The norm computation: `LinearSOE::getX`/`getB` and `Vector::pNorm` are
  external numerics. `nType` is only stored and checkpointed.
- `getRatioNumToMax`: it is a floating-point division, and it divides by
  zero for a default-constructed test.
- Transport: `Channel::sendVector`/`recvVector`, `FEM_ObjectBroker`,
  `getDbTag` and the class tag. `sendSelf` is modelled as the record it
  writes, without the channel's result code.
- ConvergenceTest.NormDispOrUnbalance.RecvSelf: states only the new length
  of the history, not its contents. `Vector::resize` is not part of this
  model. When the decoded budget is negative, the model keeps the old
  buffer.
- ConvergenceTest.NormDispOrUnbalance.RecvSelf: a new array is allocated
  when the history is resized. So a caller still holding the array returned
  by `GetNorms` keeps the old buffer. In the source, `const Vector&` refers
  to the same resized object.
- ConvergenceTest.NormDispOrUnbalance.constructor and GetCopy: require a
  budget of at least 0, because `Vector` of a negative size is not part of
  this model.
- C++ `int` width: counters, budgets and `2*maxIter` are unbounded integers,
  so 32-bit overflow is not modelled. The double-to-int cast of out-of-range
  values is not modelled either. Doubles are modelled as exact reals.
- Zero-filled new buffers: the constructors' histories are stated as zeros,
  as `Vector(int)` allocates them.
