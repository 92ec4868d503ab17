/** The equalities loadZ3 asserts to pin a previously solved cycle in a new
    solving session: the cycle's duration and first start, then every stored
    slot start of every recorded priority. Slot durations are deliberately not
    pinned. */
module Reload {
  import opened JavaLists
  import opened Symbolic
  import opened Naming

  /** What loadZ3 needs to run without an exception. The row of start unknowns
      is picked by the raw priority number while the stored starts are picked by
      the priority's position in slotsUsed, and the inner loop runs to
      numOfSlots rather than to the priority's own slot count: so, when that
      loop runs at all, every recorded priority must be a row of the rectangle
      with numOfSlots columns, and every stored start list must hold numOfSlots
      values. */
  predicate Loadable(slotStartZ3: seq<seq<Expr>>, slotsUsed: seq<int>, slotStart: seq<seq<real>>, numOfSlots: int)
  {
    |slotStart| == |slotsUsed| &&
    forall k :: 0 <= k < |slotsUsed| ==>
      (numOfSlots > 0 ==> 0 <= slotsUsed[k] < |slotStartZ3| && numOfSlots <= |slotStartZ3[slotsUsed[k]]|) &&
      numOfSlots <= |slotStart[k]|
  }

  /** The equalities of the inner loop for one recorded priority:
      slotStartZ3[prt][j] == slotStart[indexOf(prt)][j] for j < numOfSlots. */
  function PrtEquations(slotStartZ3: seq<seq<Expr>>, slotsUsed: seq<int>, slotStart: seq<seq<real>>,
                        numOfSlots: int, prt: int): (eqs: seq<Equation>)
    requires Loadable(slotStartZ3, slotsUsed, slotStart, numOfSlots) && prt in slotsUsed
    ensures |eqs| == Count(numOfSlots)
  {
    var pos := IndexOf(slotsUsed, prt);
    seq(Count(numOfSlots), (j: int) requires 0 <= j < Count(numOfSlots) =>
      Eq(slotStartZ3[prt][j], Lit(slotStart[pos][j])))
  }

  /** The equalities of the outer loop after its first m priorities. */
  function SlotEquations(slotStartZ3: seq<seq<Expr>>, slotsUsed: seq<int>, slotStart: seq<seq<real>>,
                         numOfSlots: int, m: nat): (eqs: seq<Equation>)
    requires Loadable(slotStartZ3, slotsUsed, slotStart, numOfSlots) && m <= |slotsUsed|
    ensures |eqs| == m * Count(numOfSlots)
  {
    if m == 0 then []
    else
      assert m * Count(numOfSlots) == (m - 1) * Count(numOfSlots) + Count(numOfSlots);
      SlotEquations(slotStartZ3, slotsUsed, slotStart, numOfSlots, m - 1)
         + PrtEquations(slotStartZ3, slotsUsed, slotStart, numOfSlots, slotsUsed[m - 1])
  }

  /** Everything loadZ3 asserts, in order. */
  function ReloadEquations(cycleDurationZ3: Expr, firstCycleStartZ3: Expr,
                           cycleDuration: real, firstCycleStart: real,
                           slotStartZ3: seq<seq<Expr>>, slotsUsed: seq<int>, slotStart: seq<seq<real>>,
                           numOfSlots: int): (eqs: seq<Equation>)
    requires Loadable(slotStartZ3, slotsUsed, slotStart, numOfSlots)
    ensures |eqs| == 2 + |slotsUsed| * Count(numOfSlots)
  {
    [Eq(cycleDurationZ3, Lit(cycleDuration)), Eq(firstCycleStartZ3, Lit(firstCycleStart))]
    + SlotEquations(slotStartZ3, slotsUsed, slotStart, numOfSlots, |slotsUsed|)
  }

  lemma {:induction false} MulMonotone(a: nat, b: nat, c: nat)
    requires a <= b
    ensures a * c <= b * c
    decreases b - a
  {
    if a < b {
      MulMonotone(a, b - 1, c);
      assert b * c == (b - 1) * c + c;
    }
  }

  /** Position k * c + j of an m-by-c block lies inside it. */
  lemma BlockIndex(k: nat, j: nat, m: nat, c: nat)
    requires k < m && j < c
    ensures k * c + j < (k + 1) * c <= m * c
  {
    MulMonotone(k + 1, m, c);
  }

  /** The k-th recorded priority's j-th equality sits at k * numOfSlots + j and
      pins the start unknown in the priority's own row to the k-th stored list. */
  lemma {:induction false} SlotEquationsAt(slotStartZ3: seq<seq<Expr>>, slotsUsed: seq<int>,
                                           slotStart: seq<seq<real>>, numOfSlots: int, m: nat, k: nat, j: nat)
    requires Loadable(slotStartZ3, slotsUsed, slotStart, numOfSlots) && NoDuplicates(slotsUsed)
    requires m <= |slotsUsed| && k < m && j < Count(numOfSlots)
    ensures k * Count(numOfSlots) + j < |SlotEquations(slotStartZ3, slotsUsed, slotStart, numOfSlots, m)|
    ensures SlotEquations(slotStartZ3, slotsUsed, slotStart, numOfSlots, m)[k * Count(numOfSlots) + j]
         == Eq(slotStartZ3[slotsUsed[k]][j], Lit(slotStart[k][j]))
  {
    var c := Count(numOfSlots);
    BlockIndex(k, j, m, c);
    if k < m - 1 {
      BlockIndex(k, j, m - 1, c);
      SlotEquationsAt(slotStartZ3, slotsUsed, slotStart, numOfSlots, m - 1, k, j);
    } else {
      IndexOfDistinct(slotsUsed, k);
    }
  }

  /** loadZ3 asserts 2 + |slotsUsed| * numOfSlots equalities: the duration
      first, the first start second, then the stored starts priority by priority
      in recording order. */
  lemma ReloadEquationsAt(cycleDurationZ3: Expr, firstCycleStartZ3: Expr,
                          cycleDuration: real, firstCycleStart: real,
                          slotStartZ3: seq<seq<Expr>>, slotsUsed: seq<int>, slotStart: seq<seq<real>>,
                          numOfSlots: int, k: nat, j: nat)
    requires Loadable(slotStartZ3, slotsUsed, slotStart, numOfSlots) && NoDuplicates(slotsUsed)
    requires k < |slotsUsed| && j < Count(numOfSlots)
    ensures var eqs := ReloadEquations(cycleDurationZ3, firstCycleStartZ3, cycleDuration, firstCycleStart,
                                       slotStartZ3, slotsUsed, slotStart, numOfSlots);
            |eqs| == 2 + |slotsUsed| * Count(numOfSlots) &&
            eqs[0] == Eq(cycleDurationZ3, Lit(cycleDuration)) &&
            eqs[1] == Eq(firstCycleStartZ3, Lit(firstCycleStart)) &&
            2 + k * Count(numOfSlots) + j < |eqs| &&
            eqs[2 + k * Count(numOfSlots) + j] == Eq(slotStartZ3[slotsUsed[k]][j], Lit(slotStart[k][j]))
  {
    var slots := SlotEquations(slotStartZ3, slotsUsed, slotStart, numOfSlots, |slotsUsed|);
    SlotEquationsAt(slotStartZ3, slotsUsed, slotStart, numOfSlots, |slotsUsed|, k, j);
    var x := k * Count(numOfSlots) + j;
    assert 0 <= x < |slots|;
    var head := [Eq(cycleDurationZ3, Lit(cycleDuration)), Eq(firstCycleStartZ3, Lit(firstCycleStart))];
    assert (head + slots)[2 + x] == slots[x];
  }

  /** Any model of the reloaded equalities reproduces the stored duration, first
      start and every stored slot start. */
  lemma ReloadPinsStarts(cycleDurationZ3: Expr, firstCycleStartZ3: Expr,
                         cycleDuration: real, firstCycleStart: real,
                         slotStartZ3: seq<seq<Expr>>, slotsUsed: seq<int>, slotStart: seq<seq<real>>,
                         numOfSlots: int, v: Valuation)
    requires Loadable(slotStartZ3, slotsUsed, slotStart, numOfSlots) && NoDuplicates(slotsUsed)
    requires Satisfies(v, ReloadEquations(cycleDurationZ3, firstCycleStartZ3, cycleDuration, firstCycleStart,
                                          slotStartZ3, slotsUsed, slotStart, numOfSlots))
    ensures Eval(cycleDurationZ3, v) == cycleDuration && Eval(firstCycleStartZ3, v) == firstCycleStart
    ensures forall k, j :: 0 <= k < |slotsUsed| && 0 <= j < numOfSlots ==>
              Eval(slotStartZ3[slotsUsed[k]][j], v) == slotStart[k][j]
  {
    var eqs := ReloadEquations(cycleDurationZ3, firstCycleStartZ3, cycleDuration, firstCycleStart,
                               slotStartZ3, slotsUsed, slotStart, numOfSlots);
    assert eqs[0] == Eq(cycleDurationZ3, Lit(cycleDuration));
    assert eqs[1] == Eq(firstCycleStartZ3, Lit(firstCycleStart));
    forall k, j | 0 <= k < |slotsUsed| && 0 <= j < numOfSlots
      ensures Eval(slotStartZ3[slotsUsed[k]][j], v) == slotStart[k][j]
    {
      ReloadEquationsAt(cycleDurationZ3, firstCycleStartZ3, cycleDuration, firstCycleStart,
                        slotStartZ3, slotsUsed, slotStart, numOfSlots, k, j);
      var t := 2 + k * Count(numOfSlots) + j;
      assert Eval(eqs[t].lhs, v) == Eval(eqs[t].rhs, v);
    }
  }

  /** Every equality sets a named unknown whose name does not end in "duration"
      to a literal. */
  predicate PinsNoDuration(eqs: seq<Equation>)
  {
    forall t :: 0 <= t < |eqs| ==>
      eqs[t].lhs.Const? && NameKind(eqs[t].lhs.name) != 3 && eqs[t].rhs.Lit?
  }

  lemma {:induction false} SlotEquationsPinNoDuration(cycleName: string, numOfPrts: int,
                                                      slotsUsed: seq<int>, slotStart: seq<seq<real>>,
                                                      numOfSlots: int, m: nat)
    requires Loadable(UnknownRectangle(cycleName, numOfPrts, numOfSlots, StartField), slotsUsed, slotStart, numOfSlots)
    requires m <= |slotsUsed|
    ensures PinsNoDuration(SlotEquations(UnknownRectangle(cycleName, numOfPrts, numOfSlots, StartField),
                                         slotsUsed, slotStart, numOfSlots, m))
  {
    if m > 0 {
      var rect := UnknownRectangle(cycleName, numOfPrts, numOfSlots, StartField);
      SlotEquationsPinNoDuration(cycleName, numOfPrts, slotsUsed, slotStart, numOfSlots, m - 1);
      var prt := slotsUsed[m - 1];
      var eqs := PrtEquations(rect, slotsUsed, slotStart, numOfSlots, prt);
      forall j | 0 <= j < |eqs|
        ensures eqs[j].lhs.Const? && NameKind(eqs[j].lhs.name) != 3 && eqs[j].rhs.Lit?
      {
        SlotNameKind(cycleName, prt, j, StartField);
      }
    }
  }

  /** Slot durations are left free: a model of the reloaded equalities stays a
      model whatever values it gives to the unknowns named "...duration". */
  lemma ReloadLeavesDurationsFree(instance: nat, cycleName: string, numOfPrts: int,
                                  cycleDuration: real, firstCycleStart: real,
                                  slotsUsed: seq<int>, slotStart: seq<seq<real>>, numOfSlots: int,
                                  v: Valuation, w: Valuation)
    requires Loadable(UnknownRectangle(cycleName, numOfPrts, numOfSlots, StartField), slotsUsed, slotStart, numOfSlots)
    requires Satisfies(v, ReloadEquations(Const(CycleDurationName(instance)), Const(CycleStartName(instance)),
                                          cycleDuration, firstCycleStart,
                                          UnknownRectangle(cycleName, numOfPrts, numOfSlots, StartField),
                                          slotsUsed, slotStart, numOfSlots))
    requires forall n :: NameKind(n) != 3 ==> w(n) == v(n)
    ensures Satisfies(w, ReloadEquations(Const(CycleDurationName(instance)), Const(CycleStartName(instance)),
                                         cycleDuration, firstCycleStart,
                                         UnknownRectangle(cycleName, numOfPrts, numOfSlots, StartField),
                                         slotsUsed, slotStart, numOfSlots))
  {
    var rect := UnknownRectangle(cycleName, numOfPrts, numOfSlots, StartField);
    var eqs := ReloadEquations(Const(CycleDurationName(instance)), Const(CycleStartName(instance)),
                               cycleDuration, firstCycleStart, rect, slotsUsed, slotStart, numOfSlots);
    SlotEquationsPinNoDuration(cycleName, numOfPrts, slotsUsed, slotStart, numOfSlots, |slotsUsed|);
    NameKindOf(CycleDuration(instance));
    NameKindOf(FirstCycleStart(instance));
    assert PinsNoDuration(eqs);
    forall t | 0 <= t < |eqs|
      ensures Eval(eqs[t].lhs, w) == Eval(eqs[t].rhs, w)
    {
      assert Eval(eqs[t].lhs, v) == Eval(eqs[t].rhs, v);
    }
  }

  /** Unknown n is the start unknown of slot j of the k-th recorded priority. */
  ghost predicate StoredAt(instance: nat, slotsUsed: seq<int>, slotStart: seq<seq<real>>, numOfSlots: int,
                           k: int, j: int, n: string)
  {
    0 <= k < |slotsUsed| && k < |slotStart| && 0 <= slotsUsed[k] && 0 <= j < Count(numOfSlots) && j < |slotStart[k]|
    && n == SlotUnknownName(CycleName(instance), slotsUsed[k], j, StartField)
  }

  /** A valuation giving every unknown loadZ3 pins its stored value. */
  ghost function ReloadWitness(instance: nat, cycleDuration: real, firstCycleStart: real,
                               slotsUsed: seq<int>, slotStart: seq<seq<real>>, numOfSlots: int): Valuation
  {
    (n: string) =>
      if n == CycleDurationName(instance) then cycleDuration
      else if n == CycleStartName(instance) then firstCycleStart
      else if exists k, j :: StoredAt(instance, slotsUsed, slotStart, numOfSlots, k, j, n) then
        var k, j :| StoredAt(instance, slotsUsed, slotStart, numOfSlots, k, j, n); slotStart[k][j]
      else 0.0
  }

  /** Different unknowns have different names. */
  lemma NamesDiffer(u1: Unknown, u2: Unknown)
    requires u1 != u2
    ensures UnknownName(u1) != UnknownName(u2)
  {
    if UnknownName(u1) == UnknownName(u2) {
      UnknownNamesDistinct(u1, u2);
    }
  }

  lemma WitnessAt(instance: nat, cycleDuration: real, firstCycleStart: real,
                  slotsUsed: seq<int>, slotStart: seq<seq<real>>, numOfSlots: int, k: int, j: int)
    requires |slotStart| == |slotsUsed| && NoDuplicates(slotsUsed)
    requires 0 <= k < |slotsUsed| && 0 <= slotsUsed[k] && 0 <= j
    requires StoredAt(instance, slotsUsed, slotStart, numOfSlots, k, j,
                      SlotUnknownName(CycleName(instance), slotsUsed[k], j, StartField))
    ensures ReloadWitness(instance, cycleDuration, firstCycleStart, slotsUsed, slotStart, numOfSlots)
              (SlotUnknownName(CycleName(instance), slotsUsed[k], j, StartField)) == slotStart[k][j]
  {
    var n := SlotUnknownName(CycleName(instance), slotsUsed[k], j, StartField);
    NamesDiffer(SlotUnknown(instance, slotsUsed[k], j, StartField), CycleDuration(instance));
    NamesDiffer(SlotUnknown(instance, slotsUsed[k], j, StartField), FirstCycleStart(instance));
    forall k2, j2 | StoredAt(instance, slotsUsed, slotStart, numOfSlots, k2, j2, n)
      ensures slotStart[k2][j2] == slotStart[k][j]
    {
      SlotUnknownNameInjective(CycleName(instance), slotsUsed[k2], j2, StartField, slotsUsed[k], j, StartField);
      IndexOfDistinct(slotsUsed, k);
      IndexOfDistinct(slotsUsed, k2);
    }
  }

  lemma {:induction false} WitnessSatisfiesSlots(instance: nat, numOfPrts: int, cycleDuration: real, firstCycleStart: real,
                                                 slotsUsed: seq<int>, slotStart: seq<seq<real>>, numOfSlots: int, m: nat)
    requires Loadable(UnknownRectangle(CycleName(instance), numOfPrts, numOfSlots, StartField), slotsUsed, slotStart, numOfSlots)
    requires NoDuplicates(slotsUsed) && m <= |slotsUsed|
    ensures Satisfies(ReloadWitness(instance, cycleDuration, firstCycleStart, slotsUsed, slotStart, numOfSlots),
                      SlotEquations(UnknownRectangle(CycleName(instance), numOfPrts, numOfSlots, StartField),
                                    slotsUsed, slotStart, numOfSlots, m))
  {
    if m > 0 {
      var rect := UnknownRectangle(CycleName(instance), numOfPrts, numOfSlots, StartField);
      var v := ReloadWitness(instance, cycleDuration, firstCycleStart, slotsUsed, slotStart, numOfSlots);
      WitnessSatisfiesSlots(instance, numOfPrts, cycleDuration, firstCycleStart, slotsUsed, slotStart, numOfSlots, m - 1);
      var prt := slotsUsed[m - 1];
      IndexOfDistinct(slotsUsed, m - 1);
      var eqs := PrtEquations(rect, slotsUsed, slotStart, numOfSlots, prt);
      forall j | 0 <= j < |eqs|
        ensures Eval(eqs[j].lhs, v) == Eval(eqs[j].rhs, v)
      {
        assert eqs[j] == Eq(Const(SlotUnknownName(CycleName(instance), prt, j, StartField)), Lit(slotStart[m - 1][j]));
        WitnessAt(instance, cycleDuration, firstCycleStart, slotsUsed, slotStart, numOfSlots, m - 1, j);
      }
      var before := SlotEquations(rect, slotsUsed, slotStart, numOfSlots, m - 1);
      forall t | 0 <= t < |before + eqs|
        ensures Eval((before + eqs)[t].lhs, v) == Eval((before + eqs)[t].rhs, v)
      {
        if t >= |before| {
          assert (before + eqs)[t] == eqs[t - |before|];
        }
      }
    }
  }

  /** Reloading a record over freshly bound unknowns is always consistent: some
      valuation satisfies every equality loadZ3 asserts. */
  lemma ReloadSatisfiable(instance: nat, numOfPrts: int, cycleDuration: real, firstCycleStart: real,
                          slotsUsed: seq<int>, slotStart: seq<seq<real>>, numOfSlots: int)
    requires Loadable(UnknownRectangle(CycleName(instance), numOfPrts, numOfSlots, StartField), slotsUsed, slotStart, numOfSlots)
    requires NoDuplicates(slotsUsed)
    ensures exists v :: Satisfies(v, ReloadEquations(Const(CycleDurationName(instance)), Const(CycleStartName(instance)),
                                                     cycleDuration, firstCycleStart,
                                                     UnknownRectangle(CycleName(instance), numOfPrts, numOfSlots, StartField),
                                                     slotsUsed, slotStart, numOfSlots))
  {
    var rect := UnknownRectangle(CycleName(instance), numOfPrts, numOfSlots, StartField);
    var v := ReloadWitness(instance, cycleDuration, firstCycleStart, slotsUsed, slotStart, numOfSlots);
    WitnessSatisfiesSlots(instance, numOfPrts, cycleDuration, firstCycleStart, slotsUsed, slotStart, numOfSlots, |slotsUsed|);
    NamesDiffer(FirstCycleStart(instance), CycleDuration(instance));
    var head: seq<Equation> := [Eq(Const(CycleDurationName(instance)), Lit(cycleDuration)),
                 Eq(Const(CycleStartName(instance)), Lit(firstCycleStart))];
    var slots := SlotEquations(rect, slotsUsed, slotStart, numOfSlots, |slotsUsed|);
    forall t | 0 <= t < |head + slots|
      ensures Eval((head + slots)[t].lhs, v) == Eval((head + slots)[t].rhs, v)
    {
      if t >= 2 {
        assert (head + slots)[t] == slots[t - 2];
      }
    }
    assert Satisfies(v, head + slots);
    assert head + slots == ReloadEquations(Const(CycleDurationName(instance)), Const(CycleStartName(instance)),
                                           cycleDuration, firstCycleStart, rect, slotsUsed, slotStart, numOfSlots);
  }
}
