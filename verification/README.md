# The VBS simulator, modelled and proved in Dafny

VBS is an interpreter for IEEE Std 1364-1995. This project models the parts of
it that are hard to get right by reading, and proves what they are for:

- **Processes.** An `initial` statement is interpreted by a machine that may
  stop at any depth, forgets where it was except for a block stack, loop flags
  and one bit per delay, and is restarted from its root. `Program` gives the
  plain recursive semantics in which a delay only adds to the clock, `Machine`
  and `Process` the restarting interpreter, as a function and as a class that
  updates its fields. `Statements` says what single statements do, from their text
  alone. `Refinement`, `Restarts` and `Suspension` prove that every
  run has the effects of the plain semantics and what every suspended state
  looks like; `Elaboration` adds what the setup phase does to a statement.
  Outside the stated fragment, the restarting interpreter does something else,
  and the project says what, and exactly when that is what the plain semantics
  says: `BranchedLoops`, `BranchedStores` and `BranchedControls` for a loop, a
  store delay and a control directly under an if or a case, `LoopedControls` and
  `LoopedAgreement` for a loop whose body has a control. `SideBySide`,
  `Branches`, `Excursions` and `Controls` hold what they share, `Bounds` shows
  that the step bound of the plain semantics matters only where it is hit, and
  `Limits` has a small program for each shape. `Together` puts any number of
  processes on one store.
- **Scheduling.** `Events`, `Wheel` and `Scheduler` are the five queues, the
  time wheel and the loop that joins them, over handlers that may queue anything
  at any moment. `Nonblocking` and `Sensitivity` are the two kinds of events
  with a meaning of their own: deferred updates and edge wakeups.
- **Bit vectors.** `Native`, `Arithmetic`, `Compare`, `Multiply`, `Divide` and
  `Bitwise` say what the bit-serial loops and the 64-bit fast paths compute and
  what that means for the numbers; `Vector` and the `Vector...` modules are the
  loops themselves, over arrays, each proved to compute exactly that.
  `Signs` says what the sign of a result means. `Unknowns` proves that unknown
  bits are treated soundly; `Radix`, `Reading` and `Letters` print and parse.
- **Layout.** `Selection`, `Layout` and `Targets`: part selects, concatenations
  and split assignment targets, and that the last two are inverse.
- **Names.** `SymbolTable`: the probing hash index over scopes and names.

Sign conventions: `Unset`, `Unsigned` and `Signed` are the three states of the
sign field. A bit is `LO`, `HI`, `DC`, `Z` or the unused marker `NVL`.

## Reading the process results

The plain semantics threads a step bound (`ticks`: one per loop iteration and
per delay), because zero-delay loops need not end; both sides of the refinement
run out of it at the same moment. A restarted process may find another store
than it left (`disturb`); `Together` shows that a process among others is a run
of its own in the environment that hands it the stores it finds. When
a suspended block ends, the code asks for one more restart before the statement
behind it runs, which is a preemption point the plain semantics has as well
(`Yield`); for a process that nothing disturbs it vanishes
(`Elaboration.IsolatedProcess`).

`Shape.Fragment` is the domain. The root is a begin/end block without a control.
Whatever can suspend and is not an item of a begin/end block is itself a block,
an if or a case without a control of its own. If nothing else changes the store
(`Shape.Calm`), whatever is not a loop may also wait directly on a branch of an
if or a case without a control, because the conditions then lead to that branch
again. A loop with an event control contains nothing that suspends. Different
statements are different objects. `Shape.Firm` processes do without the
assumption on the store; those are the ones `Together` puts side by side.

`LoopedAgreement`, where the two runs take different numbers of steps, compares
them under any two step bounds that let both end, in environments that do not see
the bound (`Bounds.Tickless`).

## Where code and documentation differ

- vbs.txt:1299-1303 calls all loops and `if` fully supported. A loop under `if`
  or `case` is left for good with the first iteration that pauses
  (`BranchedLoops.LoopLeftEarly`), because src/sim.cc:132-137 looks only at the
  current statement of the block: it works if and only if the loop would have
  ended there anyway (`BranchedLoops.LoopAgrees`), which for `repeat` means a
  count of at most 1 (`BranchedLoops.RepeatUnderBranch`).
- vbs.txt:1297 calls blocking assignment fully supported. Under `if` or `case`
  a store delay commits the captured value if and only if the conditions lead
  to the same assignment again when it is over (`BranchedStores.StoreAgrees`).
- Setup puts a block around a delayed branch or body only if it is not a block
  already, and around no arm of a case (src/stmt/ssetup.cc:726-801). Such a
  branch runs after its wait if and only if the conditions lead to it again, or
  what they lead to ends in the same world (`BranchedControls.ControlAgrees`).
- Delayed blocks as loop bodies, `repeat (n) #k begin ... end`, lose every second
  iteration: the loop is marked to continue behind its body while the control of
  the body still waits (src/stmt/strigger.cc:448, 695-700, 731-748), so that each
  wait counts as an iteration (`LoopedControls.LoopSkips`), although vbs.txt:1299
  calls loops fully supported. It makes no difference for `forever`
  (`LoopedAgreement.ForeverAgrees`); a `repeat` is right if and only if its count
  is 0, or 1 with a body that does nothing; for `while` and `for` the tests decide
  (`LoopedAgreement.DelayedBodyAgrees`).
- The result of an addition starts with all bits unknown (src/expr/esetup.cc:368)
  and src/common/bvector.cc:1125-1135 leaves the bits beyond both operands as
  they were: `Arithmetic.AddFreshExact`.
- Merging the branches of `?:` extends them with 0 even when they are signed:
  `Unknowns.MergeBelowExact` and `Unknowns.ChosenKeepsExact` say when that is
  sound.
- src/common/event.h:428-430 does not count nonblocking events, and the counter
  for them is never initialised (src/common/event.h:297-299):
  `Scheduler.QueuedEvents` says what the sum means.
- A negative condition of `?:` counts as false (`Bitwise.ChosenBranch`), since
  src/expr/eeval.cc:210 compares it with 0 as a signed number.
- An index and a one-bit range of a vector declared `[1:8]` name different bits
  (`Selection.IndexAgrees`).

## Model

| member | source | states |
|---|---|---|
| Restarts.RestartsRefinePlain | src/stmt/strigger.cc:398-529 | for every process of the fragment, driving it by restarts ends in the world (store, clock, timed effects, ticks left) of the plain semantics, and finishes exactly when that does |
| Restarts.StepOk | src/sim.cc:143-189 | each restart leaves the remaining work of the process, in terms of the plain semantics, unchanged, and comes closer to the end |
| Restarts.DriveOk | src/sim.cc:160-206 | the same over any number of restarts |
| Restarts.FinishedOk | src/sim.cc:124-140 | after a block has ended, advancing the block below (or staying at a suspended loop) keeps the remaining work |
| Restarts.SuspendedOk | src/stmt/strigger.cc:509-523 | a restart that meets another delay leaves the whole stack below unchanged |
| Refinement.TriggerOk | src/stmt/strigger.cc:398-426 | triggering a statement that is fresh, waiting or a loop about to continue does what the plain semantics says or suspends with exactly the rest still to be done |
| Refinement.AssignOk | src/stmt/strigger.cc:607-641 | assignments with and without a store delay, first and second activation |
| Refinement.BranchOk | src/stmt/strigger.cc:644-684 | if and case |
| Statements.CasePicks | src/stmt/strigger.cc:661-684 | the arm picked is the first one with a matching label, and the default exactly if no label of any arm matches |
| Statements.CaseRuns | src/stmt/strigger.cc:661-684 | a case does what that arm does, in the plain semantics and in the machine |
| Statements.IfRuns | src/stmt/strigger.cc:644-658 | an if does its first branch exactly if the test holds, else its second one, in both |
| Statements.BlockRuns | src/stmt/strigger.cc:486-517 | a block does its items in the order of the text |
| Statements.RepeatRuns | src/stmt/strigger.cc:703-748 | a repeat loop takes its count modulo 2^32 once and counts it down, in both |
| Statements.AssignRuns | src/stmt/strigger.cc:607-642 | an assignment without delays reads its operands and stores at once; a value of only Z bits changes nothing |
| Statements.DelayedAssignRuns | src/stmt/strigger.cc:607-642 | with a store delay, operands are read before it and stored behind it, in the store found then |
| Statements.NonBlockingRuns | src/stmt/strigger.cc:583-606 | a nonblocking assignment leaves one entry with the current time, its delay and what it has read, and changes nothing else, in the plain semantics and in the machine |
| Statements.DelayRuns | src/stmt/strigger.cc:398-426 | a delayed statement runs that much later in the store found then |
| Statements.EventRuns | src/stmt/strigger.cc:398-426 | the same for an event control |
| Statements.ControlAsks | src/misc/dectrig.cc:38-60 | a control that is not armed asks for one restart: a zero delay in the inactive queue, another delay in the wheel at now plus the delay; an armed one has elapsed |
| Statements.StoreAsks | src/stmt/strigger.cc:616-640 | the same for the delay inside an assignment, which keeps what it has read for the second activation |
| Refinement.LoopOk | src/stmt/strigger.cc:686-762 | loops of all four kinds, fresh or resumed in the middle |
| Refinement.BlockOk | src/stmt/strigger.cc:457-529 | begin/end blocks, pushed once and popped at their end |
| Suspension.ReachableShape | src/stmt/strigger.cc:457-525 | in every reachable suspended state exactly the stacked blocks are pushed, one wakeup is pending, each stacked block lies in the current statement of the one below, the only armed controls and flags are those of the statement on top and of suspended loops on the path to it, after a wait the statement on top is armed or holds a captured value, and every loop on the path is marked to continue |
| Suspension.RestingShaped | src/sim.cc:124-140 | the same for any state between two activations |
| Elaboration.IsolatedProcess | src/moditm/misetup.cc:139-160 | a process nothing disturbs, with controls and store delays also on branches, set up and driven by restarts, has the effects its text describes with delays that only add to the clock |
| Elaboration.SetupFragment | src/stmt/ssetup.cc:720-801 | the blocks that setup puts around delayed branches and bodies bring every process of the source fragment into the fragment of the interpreter |
| Elaboration.SetupRun | src/stmt/ssetup.cc:720-801 | those blocks do not change what the statement means |
| Elaboration.SetupUnique | src/stmt/ssetup.cc:728-745 | the new blocks are new objects |
| Elaboration.WrapsExactly | src/stmt/ssetup.cc:720-801 | setup wraps exactly the if branches and loop bodies that have a control and are not blocks |
| SideBySide.StepAlike | src/sim.cc:143-189 | two processes that differ in one statement of the outermost block, both suspended inside it or behind it, do the same at a restart |
| Branches.Enters | src/sim.cc:124-140 | a process suspended inside a block under an if, a case or a loop runs on as if that block itself stood in the outermost block |
| BranchedLoops.LoopLeftEarly | src/sim.cc:124-140 | a loop of any kind under a nest of ifs and cases, at any position of the outermost block: the process ends in the world of a loop that stops with the first iteration that pauses |
| BranchedLoops.LoopAgrees | src/stmt/strigger.cc:686-762 | for the last statement and iterations that pause: restarts agree with the plain semantics exactly if the loop is not entered, is cut in its first iteration, or would end after it anyway, for all four kinds of loops |
| BranchedLoops.RepeatUnderBranch | src/stmt/strigger.cc:686-762 | a whole process with `repeat` around a body that suspends: exactly one iteration is done, which is right exactly if the count modulo 2^32 is at most 1 |
| BranchedStores.StoreTakesBranch | src/stmt/strigger.cc:644-684 | a store delay under a nest of ifs and cases: the captured value is committed if the restart leads to the same assignment, otherwise the capture is dropped and the other branch runs |
| BranchedStores.StoreAgrees | src/stmt/strigger.cc:607-641 | for the last statement: restarts agree with the plain semantics exactly if the restart leads to the same assignment, or what it leads to ends at once in just the committed world |
| BranchedStores.StoreUnderBranch | src/stmt/strigger.cc:607-684 | the same for a whole process |
| BranchedLoops.AbandonedResumes | src/stmt/strigger.cc:739-762 | a loop left that way is still marked: entered again, it goes on behind its body with the old count |
| Excursions.Excursion | src/sim.cc:124-140 | a process that suspends in a block inside a loop, an if or a case does, until it is back in the outermost block, what it would do if that block stood there |
| BranchedControls.WanderEnds | src/stmt/strigger.cc:398-426 | a nest of ifs and cases with any controls in it, at any position of the outermost block: every restart goes the whole way again, past the controls that have elapsed, to the next one that has not or to a statement |
| BranchedControls.ControlTakesBranch | src/stmt/strigger.cc:644-684 | a delayed branch: it runs if the store found after the wait leads to it again, otherwise what that store leads to is triggered and the first control stays armed |
| BranchedControls.ControlAgrees | src/stmt/ssetup.cc:726-776 | for the last statement: restarts agree with the plain semantics exactly if the conditions lead to the delayed branch again, or what happens instead ends in the same world |
| BranchedControls.ControlUnderBranch | src/stmt/ssetup.cc:726-776 | the same for a whole process |
| LoopedControls.LoopSkips | src/stmt/strigger.cc:686-762 | a loop of any kind whose body is a nest of ifs and cases with any controls, or a delayed block, at any position of the outermost block: each wait ends an iteration, and the body runs only if there is another one |
| LoopedControls.ProcessSkips | src/stmt/strigger.cc:695-748 | the same for a whole process |
| LoopedAgreement.RepeatAgrees | src/stmt/strigger.cc:703-748 | `repeat` around a delayed block, any body and environment: right exactly if the count modulo 2^32 is 0, or 1 with a body that leaves the world as it is |
| LoopedAgreement.WhileAgrees | src/stmt/strigger.cc:703-748 | `while`: right exactly if the test holds after every wait, save a last one whose body does nothing |
| LoopedAgreement.ForeverAgrees | src/stmt/strigger.cc:703-748 | `forever`: the same effects at the same times, however far either is followed |
| LoopedAgreement.ForAgrees | src/stmt/strigger.cc:703-748 | `for`: right exactly if the test fails after the first wait and next assignment, and the body does nothing |
| LoopedAgreement.DelayedBodyAgrees | src/stmt/ssetup.cc:791-800 | for a whole process that is such a loop: restarts do what the plain semantics says exactly on those conditions |
| Bounds.RunSlack | src/stmt/strigger.cc:731-737 | a run that ends under one step bound does the same under every higher one, and a run that is cut has done the beginning of it |
| Limits.DelayedStoreIsLost | src/stmt/strigger.cc:644-658 | a witness: a store delay under if whose captured value is lost |
| Limits.LoopUnderIfIsAbandoned | src/sim.cc:132-137 | a witness: a suspended loop under if stops after one iteration while the plain semantics runs both |
| Limits.StoreInstance | src/stmt/strigger.cc:644-658 | that process is one of those the general result speaks about, and its restarts do not agree with the plain semantics |
| Limits.LoopInstance | src/sim.cc:132-137 | the same for the loop |
| Limits.DelayedBodyIsSkipped | src/stmt/strigger.cc:695-748 | a witness: `repeat (1)` around a delayed block ends without having run it |
| Limits.DelayedBranchIsDropped | src/stmt/ssetup.cc:726-745 | a witness: a delayed block under if that is not run because the condition has changed |
| Together.EveryProcessRefines | src/sim.cc:143-206 | any number of firm processes on one store, restarted in any order, with the store changed at will in between: at every moment what each has done and has left is what the plain semantics says about it with the stores it found |
| Together.Projection | src/sim.cc:143-189 | each goes through exactly the states of a run of its own |
| Together.TurnExactly | src/sim.cc:143-189 | one turn: a process is triggered in the store that is there and leaves its own behind, all others stay as they are |
| Together.StoreHandedOn | src/sim.cc:143-189 | the process that runs next finds what the one before it has left |
| Together.NextOnTime | src/common/time_whl.h:191-206 | taken in order of time, every process restarts at the time it asked for, and the clock never goes back |
| Together.PlayOnTime | src/common/time_whl.h:176-206 | over a whole run of turns in order of time, every process always asks for a time that is not over, and the clock never goes back |
| Process.Process.Run | src/sim.cc:160-189 | the interpreter with mutable fields reaches the world of the plain semantics and finishes exactly when it does |
| Process.Process.Restart | src/sim.cc:143-156 | one restart, as the machine function says |
| Process.Process.TriggerStmt | src/stmt/strigger.cc:398-426 | the two activations of a controlled statement |
| Process.Process.TriggerAssignment | src/stmt/strigger.cc:576-642 | the value kept between capture and store |
| Process.Process.TriggerBlock | src/stmt/strigger.cc:444-529 | pushing, advancing and popping |
| Process.Process.TriggerLoop | src/stmt/strigger.cc:686-762 | entering at the top or behind the body |
| Process.Process.PostProcess | src/sim.cc:106-141 | advance the block on top unless its loop is suspended, and ask for a restart |
| Process.Process.Schedule | src/misc/dectrig.cc:38-60 | zero delays go to the inactive queue, others to the wheel at now plus the delay |
| Events.FlaggedOnce | src/common/event.h:105-146 | a container is flagged as queued exactly when one of its events is queued, and never two |
| Events.OnlyTotal | src/common/event.h:300-376 | events added split exactly over the five strata |
| Scheduler.EveryEventOnce | src/common/event.h:300-376 | at any moment of a run: flag set if and only if exactly one event is queued; events added = handled + in flight + queued |
| Scheduler.QueuedEvents | src/common/event.h:428-430 | what queued_events() really adds up to |
| Scheduler.Engine.AddEvent | src/common/event.h:300-349 | one event appended to the list of its stratum and nothing else |
| Scheduler.Engine.Start | src/moditm/misetup.cc:139-160 | what is put into the wheel before the run is remembered for its time |
| Scheduler.Engine.Offer | src/misc/dectrig.cc:46-50 | the callers' test-before-add protocol: afterwards the container is queued, by the given event exactly if it was not before |
| Scheduler.Engine.Perform | src/sim.cc:143-156 | everything one statement asks for is done: each wheel entry at the current time plus its delay, each event unless its container is queued, in order |
| Scheduler.Engine.MoveEvents | src/common/event.h:350-363 | a batch takes the whole list in order and clears the flags |
| Scheduler.Engine.HandleEvents | src/common/event.h:364-376 | the batch is handled first in, first out, whatever the handler queues |
| Scheduler.Engine.TriggerQueue | src/common/event.h:377-427 | every batch starts while no event of an earlier kind is queued; with quiet strobes all five lists are empty at the end |
| Scheduler.InOrderStratified | src/common/event.h:310-349 | told from the kinds of events: while an event of a batch waits, no event of an earlier kind is queued, in the order edges and changes, zero delays, nonblocking updates, monitors, strobes |
| Scheduler.Engine.AddTimed | src/common/time_whl.h:112-175 | one entry added at its time, the rest of the wheel unchanged |
| Scheduler.Engine.HandleTime | src/sim.cc:160-206 | when the handler returns, the list of its time is empty and, if it was not empty before and strobes queue nothing, so are all queues |
| Scheduler.Engine.TriggerOnce | src/common/time_whl.h:191-206 | one time slot is completed and logged; the clock does not go back |
| Scheduler.Engine.Run | src/common/time_whl.h:176-190 | at the end, for every time, what was in the wheel for it at the start and what statements asked for while they ran was handed over at that time, in order and once |
| Wheel.Place | src/common/time_whl.h:112-175 | the list search inserts exactly as the map from times to lists says |
| Wheel.AddedAt | src/common/time_whl.h:112-175 | the list at the given time gains one entry, all other times are unchanged, times before the front are refused |
| Wheel.InsertAscending | src/common/time_whl.h:128-168 | nodes stay strictly increasing in time |
| Wheel.SettledTake | src/sim.cc:183-187 | handing over the first entry keeps, for every time, added = handed over + waiting, in order |
| Wheel.SettledDrop | src/common/time_whl.h:187-188 | dropping the finished front node loses nothing |
| Nonblocking.ParallelAssignment | src/stmt/strigger.cc:583-606 | nonblocking assignments of one phase, each run once, act as one parallel assignment of captured operands in queue order |
| Nonblocking.SwapSwaps | src/stmt/strigger.cc:585-604 | two of them exchange two nets |
| Nonblocking.LastRunStored | src/stmt/strigger.cc:587-604 | any statements, run any number of times in one phase: one update for each nonblocking assignment that ran, in the order of the first runs, with what the last run read |
| Nonblocking.FirstsOrder | src/stmt/strigger.cc:596-603 | that order has every assignment that ran exactly once, by its first run |
| Nonblocking.LastReadsAt | src/stmt/strigger.cc:587-588 | what the last run read, in the world that the blocking assignments before it left |
| Nonblocking.Phase.Run | src/common/event.h:402-408 | the phase with mutable update statements does the same, for any statements |
| Nonblocking.Phase.Trigger | src/stmt/strigger.cc:585-606 | capture, and queue the update unless it is queued |
| Nonblocking.Phase.Store | src/stmt/strigger.cc:616-640 | store what was captured and forget it; without a capture assign afresh |
| Sensitivity.TrackedKept | src/common/st_util.cc:198-271 | after any assignment every watch remembers the current value of its expression |
| Sensitivity.EdgeLevels | src/common/logic.h:302-308 | a positive edge is a rise and a negative one a fall of the level of a bit, unknown bits lying between 0 and 1; there is none with an unused bit |
| Sensitivity.FiresExactly | src/common/st_util.cc:222-247 | an event fires exactly if the lowest bit of its expression makes the step its kind waits for |
| Sensitivity.FiresKnown | src/common/st_util.cc:237-246 | between known bits: from 0 to 1, from 1 to 0, or any difference |
| Sensitivity.FiresPlain | src/common/st_util.cc:251-263 | an event without an expression fires at any change, if it waits for changes |
| Sensitivity.WakesExactly | src/common/st_util.cc:198-271 | an assignment to any net queues a control that watches one expression exactly if it is armed, or stays active all the time, and its bit makes that step; being queued uses the arming up |
| Sensitivity.WakesAgain | src/common/st_util.cc:198-271 | taken off its list and armed again, the control is queued by the next such step |
| Sensitivity.OthersKept | src/common/event.h:105-146 | arming and taking concern one container only |
| Sensitivity.OncePerArming | src/common/st_util.cc:222-270 | over any sequence of assignments, an edge control that was armed once is queued exactly once, at the first matching step of bit 0 |
| Sensitivity.VisitAllOutcome | src/misc/decsetup.cc:130-141 | of the alternatives of an or-ed control at most one queues its shared container |
| Sensitivity.Nets.CheckMonitor | src/common/st_util.cc:198-271 | the loop over a monitor list |
| Sensitivity.Nets.AssignNet | src/common/st_util.cc:456-523 | an assignment that does not change the net does nothing at all |
| SymbolTable.LookupIsMap | src/common/sym_tab.cc:122-181 | lookup is a map on scope and name |
| SymbolTable.PutRepresents | src/common/sym_tab.cc:67-100 | storing at the landing slot extends the map by one name and keeps all earlier lookups |
| SymbolTable.Table.Add | src/common/sym_tab.cc:67-100 | exactly when a name is stored, a duplicate, refused because the table is full, or silently lost: lost when all its probes are taken by other names of the scope, stored at the first probe that is not |
| SymbolTable.LandingTaken | src/common/sym_tab.cc:77-98 | the search stops at the first probe not taken by another name of the scope |
| SymbolTable.Table.Find | src/common/sym_tab.cc:122-159 | the first scope of the stack that holds the name, or none |
| SymbolTable.ZeroHashLost | src/common/hash.cc:40-51 | names that hash to slot 0 probe only slot 0, so the second such name of a scope is lost |
| SymbolTable.ProbeProduct | src/common/hash.cc:40-51 | while nothing wraps, each probe is the hash times the numbers of all probes made, modulo the size |
| Native.WordModulo | src/common/bvector.cc:1522-1569 | conversion to a word agrees with the integer modulo 2^n on known vectors and fails exactly when the bits above differ |
| Native.WordSigned | src/common/bvector.cc:1563-1567 | up to 64 bits sign extension gives back the integer |
| Native.WordPlain | src/common/bvector.cc:1553-1562 | a vector wider than a word with all upper bits 1 passes for its low 64 bits |
| VectorCompare.ToDecimal | src/common/bvector.cc:1522-1569 | the conversion loop |
| Arithmetic.DifferenceMod | src/common/bvector.cc:1180-1229 | the borrow chain computes the difference modulo 2^n |
| Arithmetic.SubExact | src/common/bvector.cc:1180-1235 | subtraction is exact at all widths, and all unknown exactly when an operand bit it needs is unknown |
| Arithmetic.AddExact | src/common/bvector.cc:1100-1178 | addition is exact modulo 2^n for operands of equal width, results no wider than either, or as wide as the wider one |
| Arithmetic.AddStaleExact | src/common/bvector.cc:1125-1135 | for a wider result and a sum that fits the wider operand: known and right exactly when the bits beyond both operands were 0 before or the carry runs out through the second operand |
| Arithmetic.AddFreshExact | src/expr/esetup.cc:318-368 | in a result that is still all unknown: right exactly when the carry runs out, otherwise its top bit stays unknown |
| Arithmetic.AddCarriedExact | src/common/bvector.cc:1118-1172 | for a wider result and a sum that carries out of the wider operand: all bits known, and exact |
| Signs.SumOfIntegers | src/common/bvector.cc:1100-1178 | the sign of a sum means that it stands for the sum of the integers wherever a vector of that sign and width can hold it |
| Signs.DifferenceOfIntegers | src/common/bvector.cc:1180-1235 | the same for a difference |
| Arithmetic.AddIntoExact | src/common/bvector.cc:328-389 | in-place addition is exact modulo the width |
| Arithmetic.SubIntoExact | src/common/bvector.cc:391-446 | in-place subtraction is exact modulo the width |
| Arithmetic.NegatedExact | src/common/bvector.cc:1079-1098 | negation is exact modulo the width, also when it widens |
| Multiply.ShiftedByVal | src/common/bvector.cc:448-461 | shifting multiplies by a power of two modulo the width, and by 2^64 - 1 it makes every bit unknown |
| Multiply.MulFromVal | src/common/bvector.cc:1295-1300 | the shift-and-add loop: what is in the product plus multiplicand times the multiplier bits left is constant modulo the width |
| Multiply.MulExact | src/common/bvector.cc:1237-1310 | native path and loop both give the product modulo 2^n for every result width |
| Multiply.FastExactly | src/common/bvector.cc:1253-1273 | the native path is taken exactly for numbers below 2^32, operands apart that pass for their low 64 bits |
| Multiply.MulMisread | src/common/bvector.cc:1253-1273 | with one operand that passes for its low 64 bits the native path is right exactly when the other one is divisible by 2^(n-64) |
| Multiply.MulFastExact | src/common/bvector.cc:1253-1273 | on the native path, for any operands: right exactly when the products with the dropped upper parts vanish modulo 2^(n-64) |
| Divide.DivInvariant | src/common/bvector.cc:1385-1406 | after every round quotient bits, divisor and remainder make up the dividend bits taken, the remainder is below the divisor and never overflows its width |
| Divide.DivideExactly | src/common/bvector.cc:1312-1424 | division is exact if and only if it takes the loop or the native path drops nothing |
| Divide.DivideWithin | src/common/bvector.cc:1312-1424 | hence exact for all operands whose bits from 64 up are not all 1 |
| Divide.DivideMisread | src/common/bvector.cc:1339-1357 | and wrong for every dividend whose bits from 64 up are all 1, for any divisor of at most 64 bits |
| Divide.PathDefined | src/common/bvector.cc:1325-1405 | for known operands the results are defined exactly when the native path or the loop is completed |
| Divide.DivideByZero | src/common/bvector.cc:1343-1368 | a zero divisor gives all unknown bits on both paths |
| Compare.LessExact | src/common/bvector.cc:914-1010 | the scan is integer order unless both operands are negative and of different widths |
| Compare.LessNegative | src/common/bvector.cc:977-1008 | in that case it only compares the widths |
| Compare.LessWords | src/common/bvector.cc:914-1010 | up to 64 bits it is the order of the converted words |
| Compare.EqualExact | src/common/bvector.h:149-157 | equality is equality of the extended numbers |
| Compare.EqualUnsigned | src/common/bvector.cc:873-912 | of the numbers for unsigned vectors |
| Compare.EqualSigned | src/common/bvector.h:149-157 | of the integers for signed vectors of any widths |
| Compare.Trichotomy | src/common/bvector.h:149-163 | exactly one of <, ==, > holds of known unsigned vectors |
| Compare.AssignedValue | src/common/bvector.h:616-661 | assignment keeps the integer of a known vector modulo what the target can hold, and in a target as wide as the source the integer itself |
| Vector.BitVector.Assign | src/common/bvector.h:616-661 | cut off or extend by the sign of the source |
| Vector.BitVector.ShiftLeft | src/common/bvector.cc:448-461 | shift in place |
| Vector.BitVector.AddAssign | src/common/bvector.cc:328-389 | the carry loop, with its early ends and unknown tails |
| Vector.BitVector.SubAssign | src/common/bvector.cc:391-446 | the borrow loop |
| Vector.BitVector.Make | src/common/bvector.h:561-586 | unused bits below the lower bound |
| Vector.UnaryInv | src/common/bvector.cc:1088-1098 | inversion, widening with 1 |
| Vector.UnaryNeg | src/common/bvector.cc:1079-1086 | invert and add one |
| Vector.BinarySub | src/common/bvector.cc:1180-1235 | the subtraction loop and the sign of its result |
| VectorAdd.BinaryAdd | src/common/bvector.cc:1100-1178 | the addition loop with its copies and the sign of its result |
| VectorCompare.LessThan | src/common/bvector.cc:914-1010 | the sign cases and the scan from the top |
| VectorCompare.EqualTo | src/common/bvector.cc:873-912 | the scan from the bottom |
| VectorMultiply.WordVector | src/common/bvector.cc:188-216 | a word becomes its binary digits |
| VectorMultiply.BinaryMul | src/common/bvector.cc:1237-1310 | choice of path, both paths, and the sign of the result |
| VectorDivide.BinaryDivRem | src/common/bvector.cc:1312-1424 | choice of path, both paths, and the signs of the results |
| VectorDivide.BinaryDiv | src/common/bvector.cc:1426-1433 | the quotient |
| VectorDivide.BinaryMod | src/common/bvector.cc:1435-1442 | the remainder |
| Bitwise.LogicOp | src/common/bvector.cc:1490-1520 | the operation on every bit, operands extended with 0 |
| Bitwise.LogicBits | src/common/logic.h:150-240 | each bit of the result in numbers: products, sums, parities and their complements where both bits are known, the merge, and which bits decide beside an unknown one |
| Bitwise.Reduce | src/common/bvector.cc:1012-1061 | the fold |
| Bitwise.ReducedMeaning | src/common/bvector.cc:1012-1061 | conjunction, disjunction and parity of known vectors |
| Bitwise.ChosenBranch | src/expr/eeval.cc:205-218 | a known condition selects the first branch exactly when it is positive |
| Bitwise.Conditional | src/expr/eeval.cc:205-224 | the choice or the merge, and the sign |
| Unknowns.LogicKeeps | src/common/bvector.cc:1490-1520 | settling unknown operand bits never changes a known result bit: bitwise operations |
| Unknowns.ReducedKeeps | src/common/bvector.cc:1012-1061 | the same for reductions |
| Unknowns.AddKeeps | src/common/bvector.cc:1100-1178 | the same for addition, with its copied tails |
| Unknowns.SubKeeps | src/common/bvector.cc:1180-1235 | the same for subtraction |
| Unknowns.LessKeeps | src/common/bvector.cc:914-1010 | the same for unsigned < |
| Unknowns.EqualKeeps | src/common/bvector.cc:873-912 | the same for unsigned == |
| Unknowns.MergeBelow | src/expr/eeval.cc:219-223 | the merge is below both unsigned branches |
| Unknowns.MergeBelowExact | src/expr/eeval.cc:219-223 | for branches of any signs and widths: the merge is below both exactly when neither is extended with something else than 0 beside a 0 of the other |
| Unknowns.ChosenKeepsExact | src/expr/eeval.cc:205-227 | the conditional operator as a whole is sound under every settlement of unknown bits exactly when its condition is decided or that holds of the branches it may take |
| Unknowns.ChosenKeeps | src/expr/eeval.cc:205-227 | the conditional operator as a whole, over unsigned vectors |
| Unknowns.SignedMergeUnsound | src/expr/eeval.cc:213-223 | a witness: it fails for a signed branch narrower than the result |
| Selection.RangePlaces | src/common/bvector.h:344-375 | in both directions of declaration a range holds exactly the declared bits between its bounds, the leftmost being the most significant |
| Selection.IndexAgrees | src/common/bvector.h:757-782 | index and one-bit range name the same bit exactly when the vector is not mirrored or starts at 0 |
| Selection.WriteRange | src/common/bvector.h:440-462 | a range assignment changes exactly its range, skips unused bits and fills with 0 |
| Selection.WriteSelect | src/common/bvector.h:344-375 | the same for a range of declared indices, of any vector |
| Selection.SelectWritten | src/common/bvector.h:366-373 | in declared indices, for both directions of declaration and any lower bound: which bit receives which bit of the source |
| Layout.SetupConcat | src/expr/esetup.cc:133-143 | setup computes the layout |
| Layout.SetupTargets | src/misc/msetup.cc:165-243 | setup of a target list; a single target takes everything |
| Layout.SlotsPartition | src/expr/esetup.cc:133-138 | the slots partition the bits |
| Layout.ElementInSlot | src/expr/eeval.cc:59-64 | every element is found in its slot |
| Layout.Evaluate | src/expr/eeval.cc:37-67 | evaluation gives the elements from right to left, repeated, and the sign of the first element that has one |
| Targets.SplitInverse | src/misc/mtrigger.cc:20-64 | assigning a concatenation to targets of the same sizes that share no bit stores every element unchanged and leaves all other bits alone |
| Targets.DistributedRead | src/misc/mtrigger.cc:34-63 | every target receives its part, whatever is assigned after it |
| Targets.Nets.Trigger | src/misc/mtrigger.cc:20-64 | the loop over the targets |
| Radix.RoundTrip | src/common/bvector.cc:732-772 | print and parse in base 8 or 16 is the identity on known vectors, with a partial top digit |
| Radix.TrimmedRoundTrip | src/common/bvector.cc:813-867 | also without leading zero digits |
| Radix.BinaryRoundTrip | src/common/bvector.cc:696-730 | in base 2 for 0, 1, x and z |
| Radix.PrintReadBack | src/common/bvector.cc:1575-1644 | whatever is printed at its own or at full length reads back |
| Radix.Print | src/common/bvector.cc:1575-1644 | the printing loop |
| Radix.FindDigits | src/common/bvector.cc:173-183 | the exact number of decimal digits, without overflow |
| Radix.DecimalRoundTrip | src/common/bvector.cc:774-811 | decimal text of a known vector of at most 64 bits, with any blanks before it, reads back |
| Radix.DecimalWord | src/common/bvector.cc:774-811 | decimal text reads as its number up to the first other character, and as the largest word if no word holds it |
| Letters.DigitPrinted | src/common/bvector.cc:1617-1641 | a digit of known bits is printed as their number, one with an unknown bit as x, a single Z in base 2 as z |
| Letters.PrintedAt | src/common/bvector.cc:1617-1641 | each character is the letter of its own bits |
| Letters.UnknownText | src/common/bvector.cc:717-771 | a single x makes a vector of any width unknown, a z or ? high-impedance |
| Letters.EmptyText | src/common/bvector.cc:717-729 | the empty text is zero |
| Letters.DigitText | src/common/bvector.cc:732-772 | a single digit, in either case, reads as its number |
| Letters.OtherText | src/common/bvector.cc:696-772 | any other character ends the conversion and leaves the bits unset |
| Letters.UnderscoreIgnored | src/common/bvector.cc:696-772 | an underscore behind the first character changes nothing |
| Letters.PrintedFills | src/common/bvector.cc:717-729 | what a vector prints in base 2 reads back in a wider one with its top bit repeated if that is unknown, and zeros otherwise |
| Reading.AssignDigits | src/common/bvector.cc:732-772 | the parsing loop, with underscores, padding and characters that end it |
| Reading.AssignDecimal | src/common/bvector.cc:774-811 | the decimal parsing loop |
| Reading.PrintDecimal | src/common/bvector.cc:509-603 | the decimal printing loop and its letters for unknown bits |
| Reading.UnknownDecimal | src/common/bvector.cc:529-556 | which of the four letters is printed instead of a number, told from the bits |
| Reading.DecimalReadBack | src/common/bvector.cc:509-603 | decimal print then parse is the identity on known vectors of at most 64 bits |

## Left out

- `always` statements restarted inside a block with delays, and tasks with
  delays: the code follows another restart rule for them, with documented faults.
- Statement fields are kept in a map keyed by the identity of the statement, so
  that two names for one statement object are not modelled.
- Expressions inside processes, and the effect of other processes on the store,
  are parameters of `Program.Design`.
- Termination: processes and the scheduler run under a step bound.
- BranchedLoops.LoopLeftEarly: for an if or case of the outermost block, without
  a control; the ones in inner blocks are not treated.
- BranchedLoops.AbandonedResumes: for an if or case of the outermost block that is
  come to again; the outer loop that would lead there is not followed.
- BranchedControls.WanderEnds: for the outermost block; what a branch leads to is
  a block, or suspends only at its control.
- LoopedControls.LoopSkips: under the same restrictions on the loop and its body,
  for loops without an event control of their own, which the fragment covers only
  around statements that do not suspend.
- LoopedAgreement.RepeatAgrees: and the lemmas beside it give the condition for a
  delayed begin/end block; for a nest of ifs and cases as loop body
  `LoopedControls.LoopSkips` gives the end of the run, from which it can be read.
- LoopedAgreement.ForAgrees: the next assignment stores a value in a net that the
  body does not write, and the body waits only at its control, so that a missing
  body can be told from the effects of the loop.
- BranchedStores.StoreTakesBranch: gives the world only if the other branch is a
  block or cannot suspend, while `BranchedStores.StoreAgrees` covers every
  branch of the fragment.
- Together.EveryProcessRefines: the order of turns is arbitrary, where the engine
  of `Scheduler` fixes it by its queues.
- Process.Process.Run: states the result for a run under a step bound, because
  zero-delay loops may run forever.
- Unsigned overflow of simulation time: times are unbounded numbers.
- Scheduler.Engine.TriggerQueue: the handler may queue any events in any order,
  but takes them from a given behaviour instead of from the statements.
- VectorMultiply.BinaryMul: excludes negative signed operands, whose wide path
  does not follow an intended law.
- VectorDivide.BinaryDivRem: excludes negative signed operands for the same
  reason, and a quotient narrower than the dividend, which would be written out
  of bounds.
- VectorAdd.BinaryAdd: excludes widths for which the copy of the longer
  operand's rest leaves one of the arrays.
- Vector.BitVector.Assign: a vector of no bits, which takes over everything
  from its source, is not modelled.
- Reading.PrintDecimal: negative signed vectors are excluded, as their text does
  not read back at the same width.
- Reading.AssignDecimal: the truncating form for unsized constants is not
  modelled.
- Unknowns.LessKeeps: for unsigned vectors, as with signed ones an unknown top
  bit decides which scan is used.
- Bitwise.Conditional: does not model the flag that marks a result of only Z bits,
  because it only matters to assignments, where `Program.Value` has it.
- Selection.WriteRange: excludes a range beyond the top of its target with a source
  too short for it, for which the code fills past the end of the array, and
  `Selection.WriteSelect` excludes bounds in the wrong order, for which the code
  leaves the range undefined.
- Targets.Nets.Trigger: excludes part selects that reach outside the declared net.
- Sensitivity.Nets.AssignNet: covers whole nets; forwarding to output ports,
  selects and memories are not modelled.
- VectorDivide.BinaryDiv: excludes negative signed operands, as BinaryDivRem does.
- VectorDivide.BinaryMod: excludes negative signed operands, as BinaryDivRem does.
- Unknowns.MergeBelow: for unsigned branches; `Unknowns.MergeBelowExact` has all.
- Shifts by a vector, case equality of casex and casez, and the power operator.
- Removal from the symbol table, and its mode that looks for instances only.
- The mixing step of the hash function: it is a parameter.
- Memories, ports, functions and hierarchical names as assignment targets.
- Target selects of blocking assignments that depend on an element assigned
  before by the same statement.
- Parser, object files, preprocessor, command line, value dump, display
  formatting, memory files and random numbers: input, output and wrappers.
