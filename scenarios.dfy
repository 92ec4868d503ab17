/** Client code: what a caller of the cycle can establish from the contracts
    alone. */
module CycleScenarios {
  import opened JavaLists
  import opened Symbolic
  import opened Naming
  import opened SlotBudget
  import opened Reload
  import opened Cycles

  /** Two cycles built from the same counter get consecutive instances and
      different names, and both start with the field defaults. */
  method TwoCycles() {
    var counter := new InstanceCounter();
    var a := new Cycle.WithBounds(counter, 1000.0, 100.0, 50.0);
    var b := new Cycle.WithFirstCycleStart(counter, 1000.0, 100.0, 20.0, 50.0);
    assert a.instance == 1 && b.instance == 2;
    assert a.name != b.name by {
      if a.name == b.name {
        CycleNameInjective(a.instance, b.instance);
      }
    }
    assert a.numOfPrts == 8 && a.numOfSlots == 1 && a.cycleStart == -1.0;
    assert b.firstCycleStart == 20.0 && a.firstCycleStart == 0.0;
  }

  /** Recording priorities 3 and then 1: each finds its own lists although 1
      is stored second, an unrecorded priority fails with get(-1), and a
      second record of 3 is ignored. */
  method RecordAndLookUp() {
    var counter := new InstanceCounter();
    var c := new Cycle.WithMaximumSlotDuration(counter, 50.0);
    c.AddSlotUsed(3, [10.0, 40.0], [5.0, 5.0]);
    c.AddSlotUsed(1, [0.0], [7.0]);
    assert c.slotsUsed == [3, 1];
    assert c.GetSlotStartList(3) == Ok([10.0, 40.0]);
    assert c.GetSlotStart(1, 0) == Ok(0.0);
    assert c.GetSlotDuration(3, 1) == Ok(5.0);
    assert c.GetSlotStart(1, 1).Failure?;
    assert c.GetSlotStartList(0) == Failure(IndexOutOfBounds(-1));
    c.AddSlotUsed(3, [99.0], [99.0]);
    assert c.GetSlotStartList(3) == Ok([10.0, 40.0]);
    assert c.GetSlotDurationList(1) == Ok([7.0]);
  }

  /** The per-priority counts follow setNumOfSlots, but growing the number of
      priorities afterwards leaves the stored list short. */
  method StaleSlotCounts() {
    var counter := new InstanceCounter();
    var c := new Cycle.WithMaximumSlotDuration(counter, 50.0);
    assert c.GetNumOfSlots(0) == Failure(NullReference);
    c.SetNumOfPrts(4);
    c.SetNumOfSlots(16);
    AllocationExamples();
    assert c.GetNumOfSlots(1) == Ok(8);
    c.SetNumOfPrts(6);
    assert c.GetNumOfSlots(5) == Failure(IndexOutOfBounds(5));
    c.SetSlotArrangementMode(EqualDistribution);
    assert c.GetNumOfSlots(1) == Ok(8);
  }

  /** Binding names the start unknown of priority 0, slot 1 after the cycle,
      and a raw priority outside the rectangle fails. */
  method BindNames() {
    var counter := new InstanceCounter();
    var c := new Cycle.WithMaximumSlotDuration(counter, 50.0);
    c.SetNumOfPrts(2);
    c.SetNumOfSlots(2);
    c.ToZ3();
    assert c.GetSlotStartZ3(0, 1) == Ok(Const(SlotUnknownName(c.name, 0, 1, StartField)));
    assert c.GetSlotStartZ3(2, 0).Failure?;
  }

  /** Reloading a bound cycle with one recorded priority asserts the duration,
      the first start and that priority's starts, in that order. */
  method ReloadOnePriority(c: Cycle)
    requires c.Bound() && c.numOfSlots == 2 && c.numOfPrts == 2
    requires c.slotStartZ3 == UnknownRectangle(c.name, 2, 2, StartField)
    requires c.Valid() && c.slotsUsed == []
    modifies c
  {
    c.AddSlotUsed(1, [0.0, 25.0], [5.0, 5.0]);
    assert c.slotsUsed == [1] && c.slotStart == [[0.0, 25.0]];
    ghost var row := c.slotStartZ3[1];
    assert row == UnknownRow(c.name, 1, 2, StartField) && |row| == 2;
    assert Loadable(c.slotStartZ3, c.slotsUsed, c.slotStart, c.numOfSlots);
    var solver := new Solver();
    c.LoadZ3(solver);
    ReloadEquationsAt(c.cycleDurationZ3.value, c.firstCycleStartZ3.value, c.cycleDuration, c.firstCycleStart,
                      c.slotStartZ3, c.slotsUsed, c.slotStart, c.numOfSlots, 0, 1);
    assert |solver.assertions| == 4;
    assert row[1] == Const(SlotUnknownName(c.name, 1, 1, StartField));
    assert solver.assertions[3] == Eq(row[1], Lit(25.0));
  }

  /** With no slots per priority the inner loop of loadZ3 never runs, so a
      recorded priority outside the rectangle is harmless and only the two
      cycle-level equalities are asserted. */
  method ReloadWithoutSlots(c: Cycle)
    requires c.Bound() && c.numOfSlots == 0 && c.slotStartZ3 == []
    requires c.Valid() && c.slotsUsed == []
    modifies c
  {
    c.AddSlotUsed(9, [], []);
    assert c.slotsUsed == [9] && c.slotStart == [[]];
    assert Loadable(c.slotStartZ3, c.slotsUsed, c.slotStart, c.numOfSlots);
    var solver := new Solver();
    c.LoadZ3(solver);
    assert PrtEquations(c.slotStartZ3, c.slotsUsed, c.slotStart, c.numOfSlots, 9) == [];
    assert SlotEquations(c.slotStartZ3, c.slotsUsed, c.slotStart, c.numOfSlots, 1) == [];
    assert |solver.assertions| == 2;
    assert solver.assertions[1] == Eq(c.firstCycleStartZ3.value, Lit(c.firstCycleStart));
  }
}
