# TSNsched cycle, modelled in Dafny

TSNsched builds Time-Sensitive Networking schedules with an SMT solver. A
`Cycle` describes the repeating transmission cycle of one port. This project
models the `Cycle` component in Dafny and proves its properties. It covers
five pieces:

- **Slot budget.** `setNumOfSlots` splits a slot budget among the priorities.
  There are three policies: aggressive descent, equal distribution and
  maximum capacity.
- **Slot record.** After a solve, `addSlotUsed` and the `getSlot*` lookups
  keep each priority's slot starts and durations. The record is three parallel
  lists, and a priority is found through `indexOf`.
- **Binding.** `toZ3` creates the named solver unknowns of the cycle.
  `cycleStartZ3` builds the start expression of a later repetition.
- **Reload.** `loadZ3` pins stored values back into a solver as equalities.
- **Construction.** The constructors number cycles from a shared counter.

The solver is abstracted:

- Expressions are the `Symbolic.Expr` datatype (named constants, real
  literals, sum, product, if-then-else over `>=`).
- `Eval` gives their meaning under a valuation of names.
- A solver session is the `Symbolic.Solver` class, which holds an append-only
  list of asserted equalities.

Java behaviours are written out:

- A Java exception (`ArrayList.get` out of range, a `null` list) becomes a
  `Failure` result, `IndexOutOfBounds(i)` or `NullReference`.
- A field that is `null` until `toZ3` runs is an `Option`.
- Java's int division truncates toward zero and is modelled by `JavaDiv`.

Modules and files:

- `java_lists.dfy`: `JavaLists`, Java list access and `indexOf`.
- `decimal.dfy`: `Decimal`, `Integer.toString` on non-negative numbers.
- `symbolic.dfy`: `Symbolic`, solver expressions and the solver.
- `naming.dfy`: `Naming`, names of unknowns.
- `slot_budget.dfy`: `SlotBudget`, the slot budget.
- `slot_store.dfy`: `SlotStore`, slot record lookups.
- `cycle_start.dfy`: `CycleStart`, the n-th cycle start.
- `reload.dfy`: `Reload`, the equalities `loadZ3` asserts.
- `cycle.dfy`: `Cycles`, the `Cycle` class and the instance counter.
- `scenarios.dfy`: `CycleScenarios`, client code that uses the contracts.

Behaviours of the code that the model keeps as written:

- **Reload range.** `loadZ3` pins slot indices below `numOfSlots`
  (Cycle.java:321), not below the priority's own count in `numOfSlotsPerPrt`.
- **Reload indexing.** `loadZ3` picks the row of unknowns by the raw priority
  (`slotStartZ3.get(prt)`) but the stored starts by recording position
  (`slotStart.get(slotsUsed.indexOf(prt))`). Both are kept, and `Loadable`
  states what they demand of the caller when `numOfSlots > 0`. With
  `numOfSlots <= 0` the inner loop never runs and nothing is demanded of the
  rows (`CycleScenarios.ReloadWithoutSlots`).
- **Empty budget.** With a budget of 0, aggressive descent stores the budget
  itself for the first priority and only clamps the later ones to 1, giving
  [0, 1, 1] (`SlotBudget.AllocationExamples`).
- **Stale counts.** `setNumOfPrts` and `setSlotArrangementMode` do not
  recompute the per-priority counts, so the stored list can be shorter than
  numOfPrts or follow the old policy, and `getNumOfSlots` returns the stored
  entry (`CycleScenarios.StaleSlotCounts`).
- **Lookup errors.** An unrecorded priority makes `indexOf` return -1, so the
  lookups throw from `get(-1)`; this is modelled as
  `Failure(IndexOutOfBounds(-1))`. An index outside a stored list is
  `Failure(IndexOutOfBounds(index))`.
- **Calls before `toZ3`.** Calling `loadZ3` or `cycleStartZ3` before `toZ3`
  dereferences `null`. This is a precondition (`Bound()`).
- **Unchecked bounds.** No constructor checks `lowerBoundCycleTime <=
  upperBoundCycleTime` or a positive maximum slot duration, and the model
  checks neither.

## Model

| member | source | states |
|---|---|---|
| JavaLists.Get | src/com/tsnsched/core/components/Cycle.java:509-523 | `ArrayList.get`: succeeds exactly for an index in range, with that element; otherwise fails with IndexOutOfBounds at that index |
| JavaLists.GetIn | src/com/tsnsched/core/components/Cycle.java:534-536 | `get(i).get(j)`: succeeds exactly when both indices are in range, with that element; an outer index out of range fails at that index |
| JavaLists.IndexOf | src/com/tsnsched/core/components/Cycle.java:509-523 | `indexOf`: -1 exactly when the value is absent, otherwise the first position holding it |
| JavaLists.IndexOfDistinct | src/com/tsnsched/core/components/Cycle.java:509-523 | in a list without repeats, `indexOf` of the element at position k is k |
| JavaLists.IndexOfAppend | src/com/tsnsched/core/components/Cycle.java:281-289 | appending a new value p gives p the last position and leaves every other value's `indexOf` unchanged |
| Decimal.NatToString | src/com/tsnsched/core/components/Cycle.java:118 | `Integer.toString` of a non-negative number is a non-empty digit string that starts with 0 only for 0 itself |
| Decimal.ParseNatToString | src/com/tsnsched/core/components/Cycle.java:118 | reading back the decimal string of n gives n |
| Decimal.NatToStringInjective | src/com/tsnsched/core/components/Cycle.java:118 | different numbers have different decimal strings |
| Decimal.NatThenTextInjective | src/com/tsnsched/core/components/Cycle.java:217-220 | a number followed by text not starting with a digit determines both the number and the text |
| Symbolic.Solver.Add | src/com/tsnsched/core/components/Cycle.java:302-307 | `solver.add` appends one equality to the assertions and keeps the earlier ones |
| Naming.CycleName | src/com/tsnsched/core/components/Cycle.java:118 | the default cycle name is "cycle" followed by digits that read back as the instance number |
| Naming.CycleDurationName | src/com/tsnsched/core/components/Cycle.java:205 | the duration unknown's name ends in "Duration", which tells it apart from every other kind of unknown |
| Naming.CycleStartName | src/com/tsnsched/core/components/Cycle.java:206 | the first-start unknown's name ends in "Start", which tells it apart from every other kind of unknown |
| Naming.SlotUnknownName | src/com/tsnsched/core/components/Cycle.java:218-221 | a slot unknown's name is the cycle's name followed by "prt" |
| Naming.CycleNameInjective | src/com/tsnsched/core/components/Cycle.java:116-118 | `"cycle" + instance` names different instances differently |
| Naming.SlotUnknownNameInjective | src/com/tsnsched/core/components/Cycle.java:214-221 | within one cycle name, `name + "prt" + (i+1) + "slot" + (j+1) + "start"/"duration"` determines i, j and the field |
| Naming.SlotUnknownNameCycles | src/com/tsnsched/core/components/Cycle.java:116-118 | slot unknowns of cycles with different instances never share a name |
| Naming.UnknownRow | src/com/tsnsched/core/components/Cycle.java:216-221 | one priority's row holds numOfSlots unknowns, the j-th named for slot j+1 |
| Naming.UnknownRectangle | src/com/tsnsched/core/components/Cycle.java:213-222 | the rectangle has numOfPrts rows (none when it is not positive), row i being priority i+1's row |
| Naming.SlotNameKind | src/com/tsnsched/core/components/Cycle.java:217-220 | a slot unknown's name ends in "start" or "duration" according to its field |
| Naming.UnknownNamesDistinct | src/com/tsnsched/core/components/Cycle.java:205-221 | no two different unknowns (cycle duration, cycle start, slot start or slot duration of any cycle and coordinate) share a name |
| Naming.RectangleCellsDistinct | src/com/tsnsched/core/components/Cycle.java:213-222 | two cells of the start and duration rectangles hold the same unknown only when they are the same cell of the same rectangle |
| SlotBudget.JavaDivTruncates | src/com/tsnsched/core/components/Cycle.java:472-480 | Java's quotient rounds toward zero: between 0 and the dividend, within one divisor of it |
| SlotBudget.JavaDiv | src/com/tsnsched/core/components/Cycle.java:472-480 | Java's int quotient by a positive divisor has the dividend's sign and is no larger in magnitude |
| SlotBudget.Halve | src/com/tsnsched/core/components/Cycle.java:471-474 | one descent step: half of the count when it is at least 2, otherwise 1; never below 1 |
| SlotBudget.DescentCount | src/com/tsnsched/core/components/Cycle.java:470-476 | every priority after the first gets at least 1 slot; with a positive budget every priority gets between 1 and the budget |
| SlotBudget.Allocation | src/com/tsnsched/core/components/Cycle.java:464-489 | the per-priority list has one entry per priority (none when numOfPrts is not positive) |
| SlotBudget.AllocateSlots | src/com/tsnsched/core/components/Cycle.java:462-491 | the switch of `setNumOfSlots` builds exactly the allocation of the current policy |
| SlotBudget.AgressiveDescentCounts | src/com/tsnsched/core/components/Cycle.java:467-476 | the descent loop builds the aggressive-descent allocation |
| SlotBudget.EqualDistributionCounts | src/com/tsnsched/core/components/Cycle.java:478-481 | the equal-distribution loop builds the equal-distribution allocation |
| SlotBudget.MaxCapacityCounts | src/com/tsnsched/core/components/Cycle.java:483-486 | the maximum-capacity loop builds the maximum-capacity allocation |
| SlotBudget.DescentShape | src/com/tsnsched/core/components/Cycle.java:467-476 | aggressive descent gives priority 0 the whole budget, and each later priority the halved count of the previous one, at least 1 |
| SlotBudget.DescentClosedForm | src/com/tsnsched/core/components/Cycle.java:467-476 | for a budget n >= 0, priority i >= 1 gets n / 2^i, or 1 when that is 0 |
| SlotBudget.DescentNonIncreasing | src/com/tsnsched/core/components/Cycle.java:467-476 | with a positive budget, a lower priority never gets more slots than a higher one |
| SlotBudget.SumConstant | src/com/tsnsched/core/components/Cycle.java:478-486 | a list holding one value everywhere sums to its length times that value |
| SlotBudget.EqualDistributionTotal | src/com/tsnsched/core/components/Cycle.java:478-481 | equal distribution hands out the budget minus its remainder: at most the budget, less by fewer than numOfPrts |
| SlotBudget.MaxCapacityTotal | src/com/tsnsched/core/components/Cycle.java:483-486 | maximum capacity hands out numOfPrts times the budget |
| SlotBudget.EqualDistributionNegative | src/com/tsnsched/core/components/Cycle.java:480 | a negative budget is divided rounding toward zero, as Java does |
| SlotBudget.AllocationExamples | src/com/tsnsched/core/components/Cycle.java:462-491 | 16 over 4 by descent is [16, 8, 4, 2]; 10 over 4 equally is [2, 2, 2, 2]; 5 over 3 at capacity is [5, 5, 5]; 0 over 3 is [0, 1, 1] by descent and [0, 0, 0] equally |
| SlotStore.LookupList | src/com/tsnsched/core/components/Cycle.java:513-515 | a lookup succeeds exactly for a recorded priority; an unrecorded one fails as `get(-1)` |
| SlotStore.LookupEntry | src/com/tsnsched/core/components/Cycle.java:509-511 | a single-value lookup fails for an unrecorded priority and otherwise succeeds exactly for an index inside that priority's list, with that value |
| SlotStore.LookupRecorded | src/com/tsnsched/core/components/Cycle.java:509-523 | with no priority recorded twice, a recorded priority finds the list stored at its own recording position |
| SlotStore.LookupAfterRecord | src/com/tsnsched/core/components/Cycle.java:281-289 | after recording a new priority p with list s, p finds s and every other priority finds what it found before |
| SlotStore.LookupEntryAfterRecord | src/com/tsnsched/core/components/Cycle.java:281-289 | the same for single entries: p's index i gives `s.get(i)`, others are unchanged |
| CycleStart.NthCycleStart | src/com/tsnsched/core/components/Cycle.java:237-246 | under every valuation the expression is the first start when the index is below 1, and first start plus duration times index otherwise |
| CycleStart.NthCycleStartAt | src/com/tsnsched/core/components/Cycle.java:257-268 | for an integer index n, the start is the first start when n < 1 and first start plus n durations otherwise |
| CycleStart.NthCycleStartPeriodic | src/com/tsnsched/core/components/Cycle.java:257-268 | from repetition 1 on, consecutive repetitions start exactly one duration apart |
| CycleStart.NthCycleStartMonotone | src/com/tsnsched/core/components/Cycle.java:257-268 | with a non-negative duration, a later repetition never starts earlier |
| Reload.PrtEquations | src/com/tsnsched/core/components/Cycle.java:321-328 | the inner loop of `loadZ3` asserts numOfSlots equalities for one priority |
| Reload.SlotEquations | src/com/tsnsched/core/components/Cycle.java:317-328 | after m recorded priorities the outer loop has asserted m * numOfSlots equalities (none when numOfSlots is not positive) |
| Reload.ReloadEquations | src/com/tsnsched/core/components/Cycle.java:301-340 | `loadZ3` asserts 2 + \|slotsUsed\| * numOfSlots equalities in all |
| Reload.SlotEquationsAt | src/com/tsnsched/core/components/Cycle.java:316-329 | equality k * numOfSlots + j pins slot j in the row of the k-th recorded priority to the k-th stored list |
| Reload.ReloadEquationsAt | src/com/tsnsched/core/components/Cycle.java:301-340 | `loadZ3` asserts 2 + \|slotsUsed\| * numOfSlots equalities: duration first, first start second, then the starts priority by priority in recording order |
| Reload.ReloadPinsStarts | src/com/tsnsched/core/components/Cycle.java:301-340 | every model of the reloaded equalities reproduces the stored duration, the first start and every stored slot start |
| Reload.SlotEquationsPinNoDuration | src/com/tsnsched/core/components/Cycle.java:321-339 | every slot equality pins a start unknown, never a duration unknown |
| Reload.ReloadLeavesDurationsFree | src/com/tsnsched/core/components/Cycle.java:330-339 | slot durations are left free: changing a model on the duration unknowns keeps it a model |
| Reload.ReloadSatisfiable | src/com/tsnsched/core/components/Cycle.java:301-340 | over freshly bound unknowns, with no priority recorded twice, the reloaded equalities always have a model |
| Cycles.InstanceCounter.constructor | src/com/tsnsched/core/components/Cycle.java:69 | the shared counter starts at 0 |
| Cycles.Cycle.WithBounds | src/com/tsnsched/core/components/Cycle.java:112-124 | bumps the counter; instance is its new value and the name is "cycle" + instance; stores the bounds and maximum slot duration; first start 0; all field defaults |
| Cycles.Cycle.WithMaximumSlotDuration | src/com/tsnsched/core/components/Cycle.java:127-134 | the same numbering; stores the maximum slot duration; bounds 0 and first start 0; all field defaults |
| Cycles.Cycle.WithFirstCycleStart | src/com/tsnsched/core/components/Cycle.java:150-163 | the same numbering; stores the bounds, the given first start and the maximum slot duration; all field defaults |
| Cycles.Cycle.ToZ3 | src/com/tsnsched/core/components/Cycle.java:202-224 | binds "cycle" + instance + "Duration"/"Start", the maximum slot duration literal, and replaces both rectangles with numOfPrts x numOfSlots fresh named unknowns |
| Cycles.FillRow | src/com/tsnsched/core/components/Cycle.java:217-222 | one inner loop of `toZ3` builds exactly priority row i: numOfSlots unknowns named for slots 1 to numOfSlots |
| Cycles.Cycle.CycleStartZ3 | src/com/tsnsched/core/components/Cycle.java:237-246 | the start of repetition `index` evaluates to the first start below 1 and to first start plus duration times index from 1 on |
| Cycles.Cycle.CycleStartZ3At | src/com/tsnsched/core/components/Cycle.java:257-268 | the int overload equals the expression overload on the index literal, and evaluates likewise |
| Cycles.Cycle.AddSlotUsed | src/com/tsnsched/core/components/Cycle.java:281-289 | first write wins: a new priority is appended to all three lists and then finds its own lists; a recorded one changes nothing; other lookups are unchanged; the record stays duplicate-free and parallel |
| Cycles.Cycle.GetSlotStartList | src/com/tsnsched/core/components/Cycle.java:513-515 | succeeds exactly for a recorded priority, with the list stored at its recording position; otherwise `get(-1)` fails |
| Cycles.Cycle.GetSlotDurationList | src/com/tsnsched/core/components/Cycle.java:521-523 | the same for durations |
| Cycles.Cycle.GetSlotStart | src/com/tsnsched/core/components/Cycle.java:509-511 | the index-th entry of the priority's start list, failing when the priority is unrecorded or the index is outside that list |
| Cycles.Cycle.GetSlotDuration | src/com/tsnsched/core/components/Cycle.java:517-519 | the same for durations |
| Cycles.Cycle.GetSlotStartZ3 | src/com/tsnsched/core/components/Cycle.java:534-536 | after binding, succeeds exactly inside the numOfPrts x numOfSlots rectangle with the unknown named for prt+1 and slotNum+1; an unbound row fails at prt |
| Cycles.Cycle.SetNumOfSlots | src/com/tsnsched/core/components/Cycle.java:462-491 | stores a fresh allocation of the new budget under the current priorities and policy, and the new budget |
| Cycles.Cycle.SetNumOfPrts | src/com/tsnsched/core/components/Cycle.java:453-455 | stores the number of priorities and leaves the per-priority counts as they were |
| Cycles.Cycle.SetSlotArrangementMode | src/com/tsnsched/core/components/Cycle.java:559-561 | stores the policy and leaves the per-priority counts as they were |
| Cycles.Cycle.GetNumOfSlots | src/com/tsnsched/core/components/Cycle.java:457-460 | fails on the `null` list before `setNumOfSlots`; otherwise succeeds exactly for a position of the stored list, with the stored entry even when the counts are stale, and fails with IndexOutOfBounds(prt) outside it; when the counts are current, that is exactly a priority below numOfPrts, with its allocated count |
| Cycles.Cycle.LoadZ3 | src/com/tsnsched/core/components/Cycle.java:301-344 | appends exactly the reload equalities (duration, first start, then every recorded priority's starts) to the solver's assertions |
| Cycles.LoadPriority | src/com/tsnsched/core/components/Cycle.java:321-328 | the inner loop appends exactly that priority's numOfSlots start equalities |

## Left out

- The SMT solver itself (`Context`, `mkRealConst`, `mkITE`, solving and model extraction): replaced by the expression datatype, its evaluator and an append-only list of equalities.
- `Double.toString` and IEEE double arithmetic: times are Dafny `real` numbers and literals carry the number itself.
- The constructor taking solver expressions (lines 179-192): it only stores foreign solver objects.
- The name-based `slotStartZ3`/`slotDurationZ3` helpers (lines 412-431): their names depend on the solver's printing of integer expressions, which is not part of this model.
- Serialization and `transient` handling: Java I/O plumbing.
- The plain getters and setters (`portName`, bounds, wrap flag, `setName`, `setInstance`, the Z3 field setters, `getSlotsUsed`): no logic beyond store and return. Without `setName` and `setInstance`, a cycle's name is always "cycle" + instance.
- `cycleInstanceCounter`: declared and never used.
- Cycles.InstanceCounter.constructor: the counter is an unbounded natural, so Java's int wrap-around after 2^31 - 1 cycles is not modelled.
- Aliasing of the `ArrayList`s: the lists handed to `addSlotUsed` and returned by the getters are values here, so a caller's later mutation of a shared list is not modelled.
- Cycles.FillRow: builds a row of unknowns as a value that `toZ3` then stores in row i, where the Java code appends to the list already in row i; the resulting rectangles are the same.
- A `null` start or duration list passed to `addSlotUsed`: lists are values and cannot be null.
- Cycles.Cycle.LoadZ3: requires what the Java code needs in order not to throw. Each stored start list must hold numOfSlots values, and, when numOfSlots is positive so that the inner loop runs, each recorded priority must be a row of the bound rectangle with numOfSlots columns. The exceptions raised otherwise are not modelled.
- Cycles.Cycle.CycleStartZ3: requires `toZ3` to have run; the `NullPointerException` otherwise is not modelled.
- The shared static counter is passed to the constructors as an explicit object.
