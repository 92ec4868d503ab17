/** A TSN cycle on a port: its timing bounds, its slot budget per priority,
    the solver unknowns bound to it and the record of the slots a solve produced. */
module Cycles {
  import opened JavaLists
  import opened Symbolic
  import opened Naming
  import opened SlotBudget
  import opened SlotStore
  import opened CycleStart
  import opened Reload

  /** The process-wide instanceCounter that every constructor bumps, passed in
      explicitly. */
  class InstanceCounter {
    var value: nat

    constructor ()
      ensures value == 0
    {
      value := 0;
    }
  }

  /** One inner loop of toZ3: the unknowns of priority row prt, slot by slot. */
  method FillRow(cycleName: string, prt: nat, numOfSlots: int, field: SlotField) returns (row: seq<Expr>)
    ensures row == UnknownRow(cycleName, prt, numOfSlots, field)
  {
    row := [];
    var j := 0;
    while j < numOfSlots
      invariant 0 <= j <= Count(numOfSlots)
      invariant row == UnknownRow(cycleName, prt, j, field)
    {
      row := row + [Const(SlotUnknownName(cycleName, prt, j, field))];
      j := j + 1;
    }
  }

  class Cycle {
    // identity
    var name: string
    var instance: nat
    var wrapTransmission: bool

    // timing bounds, and the values a solve chose
    var upperBoundCycleTime: real
    var lowerBoundCycleTime: real
    var firstCycleStart: real
    var maximumSlotDuration: real
    var cycleDuration: real
    var cycleStart: real

    // unknowns bound by ToZ3; None while the Java field is still null
    var cycleDurationZ3: Option<Expr>
    var firstCycleStartZ3: Option<Expr>
    var maximumSlotDurationZ3: Option<Expr>
    var slotStartZ3: seq<seq<Expr>>
    var slotDurationZ3: seq<seq<Expr>>

    // the record of solved slots: priorities in recording order, and per
    // priority (by position) its slot starts and slot durations
    var slotsUsed: seq<int>
    var slotStart: seq<seq<real>>
    var slotDuration: seq<seq<real>>

    // slot budget
    var numOfPrts: int
    var numOfSlots: int
    var slotArrangementMode: SlotArrangementMode
    var numOfSlotsPerPrt: Option<seq<int>>

    /** The record of solved slots is three parallel lists with no priority twice. */
    predicate Valid()
      reads this
    {
      |slotStart| == |slotsUsed| && |slotDuration| == |slotsUsed| && NoDuplicates(slotsUsed)
    }

    /** The field initialisers every constructor runs. */
    predicate Initial()
      reads this
    {
      !wrapTransmission && cycleDuration == 0.0 && cycleStart == -1.0 &&
      cycleDurationZ3 == None && firstCycleStartZ3 == None && maximumSlotDurationZ3 == None &&
      slotStartZ3 == [] && slotDurationZ3 == [] &&
      slotsUsed == [] && slotStart == [] && slotDuration == [] &&
      numOfPrts == 8 && numOfSlots == 1 && slotArrangementMode == AgressiveDescent &&
      numOfSlotsPerPrt == None
    }

    /** The cycle-level unknowns exist: ToZ3 has run. */
    predicate Bound()
      reads this
    {
      cycleDurationZ3.Some? && firstCycleStartZ3.Some?
    }

    /** Cycle(upperBoundCycleTime, lowerBoundCycleTime, maximumSlotDuration). */
    constructor WithBounds(counter: InstanceCounter, upperBoundCycleTime: real, lowerBoundCycleTime: real,
                           maximumSlotDuration: real)
      modifies counter
      ensures counter.value == old(counter.value) + 1
      ensures instance == counter.value && name == CycleName(instance)
      ensures this.upperBoundCycleTime == upperBoundCycleTime && this.lowerBoundCycleTime == lowerBoundCycleTime
      ensures this.maximumSlotDuration == maximumSlotDuration && firstCycleStart == 0.0
      ensures Initial() && Valid()
    {
      counter.value := counter.value + 1;
      instance := counter.value;
      name := CycleName(counter.value);
      this.upperBoundCycleTime := upperBoundCycleTime;
      this.lowerBoundCycleTime := lowerBoundCycleTime;
      this.maximumSlotDuration := maximumSlotDuration;
      firstCycleStart := 0.0;
      wrapTransmission, cycleDuration, cycleStart := false, 0.0, -1.0;
      cycleDurationZ3, firstCycleStartZ3, maximumSlotDurationZ3 := None, None, None;
      slotStartZ3, slotDurationZ3 := [], [];
      slotsUsed, slotStart, slotDuration := [], [], [];
      numOfPrts, numOfSlots, slotArrangementMode, numOfSlotsPerPrt := 8, 1, AgressiveDescent, None;
    }

    /** Cycle(maximumSlotDuration): the bounds keep Java's default of 0. */
    constructor WithMaximumSlotDuration(counter: InstanceCounter, maximumSlotDuration: real)
      modifies counter
      ensures counter.value == old(counter.value) + 1
      ensures instance == counter.value && name == CycleName(instance)
      ensures upperBoundCycleTime == 0.0 && lowerBoundCycleTime == 0.0
      ensures this.maximumSlotDuration == maximumSlotDuration && firstCycleStart == 0.0
      ensures Initial() && Valid()
    {
      counter.value := counter.value + 1;
      instance := counter.value;
      name := CycleName(counter.value);
      upperBoundCycleTime, lowerBoundCycleTime := 0.0, 0.0;
      this.maximumSlotDuration := maximumSlotDuration;
      firstCycleStart := 0.0;
      wrapTransmission, cycleDuration, cycleStart := false, 0.0, -1.0;
      cycleDurationZ3, firstCycleStartZ3, maximumSlotDurationZ3 := None, None, None;
      slotStartZ3, slotDurationZ3 := [], [];
      slotsUsed, slotStart, slotDuration := [], [], [];
      numOfPrts, numOfSlots, slotArrangementMode, numOfSlotsPerPrt := 8, 1, AgressiveDescent, None;
    }

    /** Cycle(upperBoundCycleTime, lowerBoundCycleTime, firstCycleStart, maximumSlotDuration). */
    constructor WithFirstCycleStart(counter: InstanceCounter, upperBoundCycleTime: real, lowerBoundCycleTime: real,
                                    firstCycleStart: real, maximumSlotDuration: real)
      modifies counter
      ensures counter.value == old(counter.value) + 1
      ensures instance == counter.value && name == CycleName(instance)
      ensures this.upperBoundCycleTime == upperBoundCycleTime && this.lowerBoundCycleTime == lowerBoundCycleTime
      ensures this.maximumSlotDuration == maximumSlotDuration && this.firstCycleStart == firstCycleStart
      ensures Initial() && Valid()
    {
      counter.value := counter.value + 1;
      instance := counter.value;
      name := CycleName(counter.value);
      this.upperBoundCycleTime := upperBoundCycleTime;
      this.lowerBoundCycleTime := lowerBoundCycleTime;
      this.firstCycleStart := firstCycleStart;
      this.maximumSlotDuration := maximumSlotDuration;
      wrapTransmission, cycleDuration, cycleStart := false, 0.0, -1.0;
      cycleDurationZ3, firstCycleStartZ3, maximumSlotDurationZ3 := None, None, None;
      slotStartZ3, slotDurationZ3 := [], [];
      slotsUsed, slotStart, slotDuration := [], [], [];
      numOfPrts, numOfSlots, slotArrangementMode, numOfSlotsPerPrt := 8, 1, AgressiveDescent, None;
    }

    /** toZ3: creates the cycle-level unknowns, the literal for the maximum slot
        duration, and fresh numOfPrts x numOfSlots rectangles of start and
        duration unknowns. */
    method ToZ3()
      modifies this`cycleDurationZ3, this`firstCycleStartZ3, this`maximumSlotDurationZ3
      modifies this`slotStartZ3, this`slotDurationZ3
      ensures cycleDurationZ3 == Some(Const(CycleDurationName(instance)))
      ensures firstCycleStartZ3 == Some(Const(CycleStartName(instance)))
      ensures maximumSlotDurationZ3 == Some(Lit(maximumSlotDuration))
      ensures slotStartZ3 == UnknownRectangle(name, numOfPrts, numOfSlots, StartField)
      ensures slotDurationZ3 == UnknownRectangle(name, numOfPrts, numOfSlots, DurationField)
    {
      cycleDurationZ3 := Some(Const(CycleDurationName(instance)));
      firstCycleStartZ3 := Some(Const(CycleStartName(instance)));
      maximumSlotDurationZ3 := Some(Lit(maximumSlotDuration));
      slotStartZ3 := [];
      slotDurationZ3 := [];
      var i := 0;
      while i < numOfPrts
        invariant 0 <= i <= Count(numOfPrts)
        invariant slotStartZ3 == UnknownRectangle(name, i, numOfSlots, StartField)
        invariant slotDurationZ3 == UnknownRectangle(name, i, numOfSlots, DurationField)
        modifies this`slotStartZ3, this`slotDurationZ3
      {
        slotStartZ3 := slotStartZ3 + [[]];
        slotDurationZ3 := slotDurationZ3 + [[]];
        var starts := FillRow(name, i, numOfSlots, StartField);
        assert slotStartZ3[i] + starts == starts;
        slotStartZ3 := slotStartZ3[i := slotStartZ3[i] + starts];
        var durations := FillRow(name, i, numOfSlots, DurationField);
        assert slotDurationZ3[i] + durations == durations;
        slotDurationZ3 := slotDurationZ3[i := slotDurationZ3[i] + durations];
        assert slotStartZ3 == UnknownRectangle(name, i, numOfSlots, StartField) + [starts];
        assert slotDurationZ3 == UnknownRectangle(name, i, numOfSlots, DurationField) + [durations];
        assert UnknownRectangle(name, i, numOfSlots, StartField) + [starts]
            == UnknownRectangle(name, i + 1, numOfSlots, StartField);
        assert UnknownRectangle(name, i, numOfSlots, DurationField) + [durations]
            == UnknownRectangle(name, i + 1, numOfSlots, DurationField);
        i := i + 1;
      }
    }

    /** cycleStartZ3(ctx, RealExpr index): the start of repetition `index`. */
    function CycleStartZ3(index: Expr): (r: Expr)
      reads this
      requires Bound()
      ensures forall v :: Eval(r, v) == if Eval(index, v) >= 1.0
                                        then Eval(firstCycleStartZ3.value, v) + Eval(cycleDurationZ3.value, v) * Eval(index, v)
                                        else Eval(firstCycleStartZ3.value, v)
    {
      NthCycleStart(firstCycleStartZ3.value, cycleDurationZ3.value, index)
    }

    /** cycleStartZ3(ctx, int auxIndex): the same expression over the literal index. */
    function CycleStartZ3At(auxIndex: int): (r: Expr)
      reads this
      requires Bound()
      ensures r == CycleStartZ3(Lit(auxIndex as real))
      ensures forall v :: Eval(r, v) == if auxIndex < 1 then Eval(firstCycleStartZ3.value, v)
                                        else Eval(firstCycleStartZ3.value, v) + Eval(cycleDurationZ3.value, v) * auxIndex as real
    {
      NthCycleStart(firstCycleStartZ3.value, cycleDurationZ3.value, Lit(auxIndex as real))
    }

    /** addSlotUsed: records a priority's solved slots unless the priority is
        already recorded, in which case nothing changes. */
    method AddSlotUsed(prt: int, sStart: seq<real>, sDuration: seq<real>)
      requires Valid()
      modifies this`slotsUsed, this`slotStart, this`slotDuration
      ensures Valid()
      ensures prt in old(slotsUsed) ==>
                slotsUsed == old(slotsUsed) && slotStart == old(slotStart) && slotDuration == old(slotDuration)
      ensures prt !in old(slotsUsed) ==>
                slotsUsed == old(slotsUsed) + [prt] && slotStart == old(slotStart) + [sStart]
                && slotDuration == old(slotDuration) + [sDuration]
      ensures GetSlotStartList(prt) == if prt in old(slotsUsed) then old(GetSlotStartList(prt)) else Ok(sStart)
      ensures GetSlotDurationList(prt) == if prt in old(slotsUsed) then old(GetSlotDurationList(prt)) else Ok(sDuration)
      ensures forall q :: q != prt ==> GetSlotStartList(q) == old(GetSlotStartList(q))
      ensures forall q :: q != prt ==> GetSlotDurationList(q) == old(GetSlotDurationList(q))
    {
      if prt !in slotsUsed {
        forall q
          ensures LookupList(slotsUsed + [prt], slotStart + [sStart], q)
               == if q == prt then Ok(sStart) else LookupList(slotsUsed, slotStart, q)
          ensures LookupList(slotsUsed + [prt], slotDuration + [sDuration], q)
               == if q == prt then Ok(sDuration) else LookupList(slotsUsed, slotDuration, q)
        {
          LookupAfterRecord(slotsUsed, slotStart, prt, sStart, q);
          LookupAfterRecord(slotsUsed, slotDuration, prt, sDuration, q);
        }
        slotsUsed := slotsUsed + [prt];
        slotStart := slotStart + [sStart];
        slotDuration := slotDuration + [sDuration];
      }
    }

    /** getSlotStartList: the starts recorded for a priority. */
    function GetSlotStartList(prt: int): (r: Result<seq<real>>)
      reads this
      ensures Valid() ==> (r.Ok? <==> prt in slotsUsed)
      ensures prt !in slotsUsed ==> r == Failure(IndexOutOfBounds(-1))
      ensures Valid() ==> forall k :: 0 <= k < |slotsUsed| && slotsUsed[k] == prt ==> r == Ok(slotStart[k])
    {
      if Valid() then
        assert forall k :: 0 <= k < |slotsUsed| ==> LookupList(slotsUsed, slotStart, slotsUsed[k]) == Ok(slotStart[k]) by {
          forall k | 0 <= k < |slotsUsed| { LookupRecorded(slotsUsed, slotStart, k); }
        }
        LookupList(slotsUsed, slotStart, prt)
      else
        LookupList(slotsUsed, slotStart, prt)
    }

    /** getSlotDurationList: the durations recorded for a priority. */
    function GetSlotDurationList(prt: int): (r: Result<seq<real>>)
      reads this
      ensures Valid() ==> (r.Ok? <==> prt in slotsUsed)
      ensures prt !in slotsUsed ==> r == Failure(IndexOutOfBounds(-1))
      ensures Valid() ==> forall k :: 0 <= k < |slotsUsed| && slotsUsed[k] == prt ==> r == Ok(slotDuration[k])
    {
      if Valid() then
        assert forall k :: 0 <= k < |slotsUsed| ==> LookupList(slotsUsed, slotDuration, slotsUsed[k]) == Ok(slotDuration[k]) by {
          forall k | 0 <= k < |slotsUsed| { LookupRecorded(slotsUsed, slotDuration, k); }
        }
        LookupList(slotsUsed, slotDuration, prt)
      else
        LookupList(slotsUsed, slotDuration, prt)
    }

    /** getSlotStart: one recorded start. */
    function GetSlotStart(prt: int, index: int): (r: Result<real>)
      reads this
      ensures prt !in slotsUsed ==> r == Failure(IndexOutOfBounds(-1))
      ensures r.Ok? <==> GetSlotStartList(prt).Ok? && 0 <= index < |GetSlotStartList(prt).value|
      ensures r.Ok? ==> r.value == GetSlotStartList(prt).value[index]
    {
      LookupEntry(slotsUsed, slotStart, prt, index)
    }

    /** getSlotDuration: one recorded duration. */
    function GetSlotDuration(prt: int, index: int): (r: Result<real>)
      reads this
      ensures prt !in slotsUsed ==> r == Failure(IndexOutOfBounds(-1))
      ensures r.Ok? <==> GetSlotDurationList(prt).Ok? && 0 <= index < |GetSlotDurationList(prt).value|
      ensures r.Ok? ==> r.value == GetSlotDurationList(prt).value[index]
    {
      LookupEntry(slotsUsed, slotDuration, prt, index)
    }

    /** getSlotStartZ3: the start unknown at a raw priority row and slot column. */
    function GetSlotStartZ3(prt: int, slotNum: int): (r: Result<Expr>)
      reads this
      ensures slotStartZ3 == UnknownRectangle(name, numOfPrts, numOfSlots, StartField) ==>
                (r.Ok? <==> 0 <= prt < numOfPrts && 0 <= slotNum < numOfSlots) &&
                (r.Ok? ==> r.value == Const(SlotUnknownName(name, prt, slotNum, StartField)))
      ensures !(0 <= prt < |slotStartZ3|) ==> r == Failure(IndexOutOfBounds(prt))
    {
      GetIn(slotStartZ3, prt, slotNum)
    }

    /** setNumOfSlots: rebuilds the per-priority counts from the budget, the
        current number of priorities and the current policy. */
    method SetNumOfSlots(numOfSlots: int)
      modifies this`numOfSlotsPerPrt, this`numOfSlots
      ensures numOfSlotsPerPrt == Some(Allocation(numOfSlots, numOfPrts, slotArrangementMode))
      ensures this.numOfSlots == numOfSlots
    {
      var counts := AllocateSlots(numOfSlots, numOfPrts, slotArrangementMode);
      numOfSlotsPerPrt := Some(counts);
      this.numOfSlots := numOfSlots;
    }

    /** setNumOfPrts: stores the number of priorities without recomputing the
        per-priority counts. */
    method SetNumOfPrts(numOfPrts: int)
      modifies this`numOfPrts
      ensures this.numOfPrts == numOfPrts
      ensures numOfSlotsPerPrt == old(numOfSlotsPerPrt)
    {
      this.numOfPrts := numOfPrts;
    }

    /** setSlotArrangementMode: stores the policy without recomputing the
        per-priority counts. */
    method SetSlotArrangementMode(slotArrangementMode: SlotArrangementMode)
      modifies this`slotArrangementMode
      ensures this.slotArrangementMode == slotArrangementMode
      ensures numOfSlotsPerPrt == old(numOfSlotsPerPrt)
    {
      this.slotArrangementMode := slotArrangementMode;
    }

    /** The stored counts are those of the current budget, priorities and policy. */
    predicate AllocationCurrent()
      reads this
    {
      numOfSlotsPerPrt == Some(Allocation(numOfSlots, numOfPrts, slotArrangementMode))
    }

    /** getNumOfSlots(prt): the count stored for a priority; the list is indexed
        as stored, so it fails before setNumOfSlots and, after setNumOfPrts
        grew the number of priorities, for the new ones. */
    function GetNumOfSlots(prt: int): (r: Result<int>)
      reads this
      ensures numOfSlotsPerPrt.None? ==> r == Failure(NullReference)
      ensures numOfSlotsPerPrt.Some? ==> (r.Ok? <==> 0 <= prt < |numOfSlotsPerPrt.value|)
      ensures numOfSlotsPerPrt.Some? && r.Ok? ==> r.value == numOfSlotsPerPrt.value[prt]
      ensures numOfSlotsPerPrt.Some? && !(0 <= prt < |numOfSlotsPerPrt.value|) ==> r == Failure(IndexOutOfBounds(prt))
      ensures AllocationCurrent() ==> (r.Ok? <==> 0 <= prt < numOfPrts)
      ensures AllocationCurrent() && r.Ok? ==> r.value == Allocation(numOfSlots, numOfPrts, slotArrangementMode)[prt]
    {
      match numOfSlotsPerPrt
      case None => Failure(NullReference)
      case Some(counts) => Get(counts, prt)
    }

    /** loadZ3: asserts the stored duration, first start and slot starts as
        equalities into the solver. */
    method LoadZ3(solver: Solver)
      requires Bound()
      requires Loadable(slotStartZ3, slotsUsed, slotStart, numOfSlots)
      modifies solver
      ensures solver.assertions == old(solver.assertions)
                + ReloadEquations(cycleDurationZ3.value, firstCycleStartZ3.value, cycleDuration, firstCycleStart,
                                  slotStartZ3, slotsUsed, slotStart, numOfSlots)
    {
      var z3, used, starts, n := slotStartZ3, slotsUsed, slotStart, numOfSlots;
      ghost var initial := solver.assertions;
      var head := [Eq(cycleDurationZ3.value, Lit(cycleDuration)), Eq(firstCycleStartZ3.value, Lit(firstCycleStart))];
      solver.Add(head[0]);
      solver.Add(head[1]);
      ghost var base := solver.assertions;
      assert base == initial + head;
      for m := 0 to |used|
        invariant solver.assertions == base + SlotEquations(z3, used, starts, n, m)
      {
        var prt := used[m];
        LoadPriority(solver, z3, used, starts, n, prt);
        assert SlotEquations(z3, used, starts, n, m + 1) == SlotEquations(z3, used, starts, n, m) + PrtEquations(z3, used, starts, n, prt);
      }
    }
  }

  /** The inner loop of loadZ3 for one recorded priority: pins its first
      numOfSlots start unknowns to the stored starts. */
  method LoadPriority(solver: Solver, slotStartZ3: seq<seq<Expr>>, slotsUsed: seq<int>, slotStart: seq<seq<real>>,
                      numOfSlots: int, prt: int)
    requires Loadable(slotStartZ3, slotsUsed, slotStart, numOfSlots) && prt in slotsUsed
    modifies solver
    ensures solver.assertions == old(solver.assertions) + PrtEquations(slotStartZ3, slotsUsed, slotStart, numOfSlots, prt)
  {
    ghost var at := IndexOf(slotsUsed, prt);
    assert 0 <= at < |slotsUsed| && slotsUsed[at] == prt;
    ghost var eqs := PrtEquations(slotStartZ3, slotsUsed, slotStart, numOfSlots, prt);
    var slotIndex := 0;
    while slotIndex < numOfSlots
      invariant 0 <= slotIndex <= Count(numOfSlots)
      invariant solver.assertions == old(solver.assertions) + eqs[..slotIndex]
    {
      var pos := IndexOf(slotsUsed, prt);
      var eq := Eq(slotStartZ3[prt][slotIndex], Lit(slotStart[pos][slotIndex]));
      assert eqs[slotIndex] == eq;
      solver.Add(eq);
      assert eqs[..slotIndex + 1] == eqs[..slotIndex] + [eq];
      slotIndex := slotIndex + 1;
    }
    assert eqs[..slotIndex] == eqs;
  }
}
