/** How a cycle divides its slot budget among its priorities: the list that
    setNumOfSlots builds, one slot count per priority, priority 0 first. */
module SlotBudget {
  import opened JavaLists

  /** The three arrangement policies (the first keeps the source's spelling). */
  datatype SlotArrangementMode = AgressiveDescent | EqualDistribution | MaxCapacity

  /** Java's int division by a positive divisor, which truncates toward zero. */
  function JavaDiv(a: int, b: int): (r: int)
    requires b > 0
    ensures a >= 0 ==> 0 <= r <= a
    ensures a < 0 ==> a <= r <= 0
  {
    if a >= 0 then
      DivAtMost(a, b);
      a / b
    else
      DivAtMost(-a, b);
      -((-a) / b)
  }

  /** Java's quotient is the multiple of b nearest to a on the side of zero:
      unlike Dafny's division it rounds a negative quotient up. */
  lemma JavaDivTruncates(a: int, b: int)
    requires b > 0
    ensures a >= 0 ==> 0 <= JavaDiv(a, b) * b <= a < JavaDiv(a, b) * b + b
    ensures a < 0 ==> JavaDiv(a, b) * b - b < a <= JavaDiv(a, b) * b <= 0
  {
    if a >= 0 {
      DivBounds(a, b);
    } else {
      DivBounds(-a, b);
      var p := (-a) / b;
      assert JavaDiv(a, b) * b == -(p * b);
    }
  }

  /** Dafny's quotient of a non-negative number is the multiple of b at or
      below it, less than b away. */
  lemma DivBounds(m: nat, b: int)
    requires b > 0
    ensures 0 <= (m / b) * b <= m < (m / b) * b + b
  {
    var p, r := m / b, m % b;
    assert m == b * p + r && 0 <= r < b;
    assert p * b == b * p;
    if p >= 1 {
      MulAtLeast(b, p);
    }
  }

  /** Dividing a non-negative number by a positive one never makes it larger. */
  lemma DivAtMost(m: nat, b: int)
    requires b > 0
    ensures 0 <= m / b <= m
  {
    DivBounds(m, b);
    if m / b >= 1 {
      MulAtLeast(m / b, b);
    }
  }

  /** One step of aggressive descent: `c = c / 2; if (c < 1) c = 1;`. */
  function Halve(c: int): (r: int)
    ensures r >= 1
    ensures c >= 2 ==> r == c / 2
    ensures c < 2 ==> r == 1
  {
    if JavaDiv(c, 2) < 1 then 1 else JavaDiv(c, 2)
  }

  /** The count aggressive descent gives the priority at position i. */
  function DescentCount(numOfSlots: int, i: nat): (r: int)
    ensures i >= 1 ==> r >= 1
    ensures numOfSlots >= 1 ==> 1 <= r <= numOfSlots
  {
    if i == 0 then numOfSlots else Halve(DescentCount(numOfSlots, i - 1))
  }

  /** The per-priority counts setNumOfSlots stores, for a budget, a number of
      priorities and a policy. */
  function Allocation(numOfSlots: int, numOfPrts: int, mode: SlotArrangementMode): (counts: seq<int>)
    ensures |counts| == Count(numOfPrts)
  {
    match mode
    case AgressiveDescent =>
      seq(Count(numOfPrts), (i: int) requires 0 <= i => DescentCount(numOfSlots, i))
    case EqualDistribution =>
      if numOfPrts <= 0 then [] else seq(numOfPrts, _ => JavaDiv(numOfSlots, numOfPrts))
    case MaxCapacity =>
      seq(Count(numOfPrts), _ => numOfSlots)
  }

  /** The switch of setNumOfSlots: one loop per policy, each appending one
      count per priority to a fresh list. */
  method AllocateSlots(numOfSlots: int, numOfPrts: int, mode: SlotArrangementMode)
    returns (numOfSlotsPerPrt: seq<int>)
    ensures numOfSlotsPerPrt == Allocation(numOfSlots, numOfPrts, mode)
  {
    match mode {
      case AgressiveDescent =>
        numOfSlotsPerPrt := AgressiveDescentCounts(numOfSlots, numOfPrts);
      case EqualDistribution =>
        numOfSlotsPerPrt := EqualDistributionCounts(numOfSlots, numOfPrts);
      case MaxCapacity =>
        numOfSlotsPerPrt := MaxCapacityCounts(numOfSlots, numOfPrts);
    }
  }

  method AgressiveDescentCounts(numOfSlots: int, numOfPrts: int) returns (numOfSlotsPerPrt: seq<int>)
    ensures numOfSlotsPerPrt == Allocation(numOfSlots, numOfPrts, AgressiveDescent)
  {
    var currentNumOfSlots := numOfSlots;
    numOfSlotsPerPrt := [];
    var i := 0;
    while i < numOfPrts
      invariant 0 <= i <= Count(numOfPrts)
      invariant |numOfSlotsPerPrt| == i
      invariant forall k :: 0 <= k < i ==> numOfSlotsPerPrt[k] == DescentCount(numOfSlots, k)
      invariant currentNumOfSlots == DescentCount(numOfSlots, i)
    {
      numOfSlotsPerPrt := numOfSlotsPerPrt + [currentNumOfSlots];
      currentNumOfSlots := JavaDiv(currentNumOfSlots, 2);
      if currentNumOfSlots < 1 {
        currentNumOfSlots := 1;
      }
      i := i + 1;
    }
  }

  method EqualDistributionCounts(numOfSlots: int, numOfPrts: int) returns (numOfSlotsPerPrt: seq<int>)
    ensures numOfSlotsPerPrt == Allocation(numOfSlots, numOfPrts, EqualDistribution)
  {
    numOfSlotsPerPrt := [];
    var i := 0;
    while i < numOfPrts
      invariant 0 <= i <= Count(numOfPrts)
      invariant |numOfSlotsPerPrt| == i
      invariant forall k :: 0 <= k < i ==> numOfSlotsPerPrt[k] == JavaDiv(numOfSlots, numOfPrts)
    {
      numOfSlotsPerPrt := numOfSlotsPerPrt + [JavaDiv(numOfSlots, numOfPrts)];
      i := i + 1;
    }
  }

  method MaxCapacityCounts(numOfSlots: int, numOfPrts: int) returns (numOfSlotsPerPrt: seq<int>)
    ensures numOfSlotsPerPrt == Allocation(numOfSlots, numOfPrts, MaxCapacity)
  {
    numOfSlotsPerPrt := [];
    var i := 0;
    while i < numOfPrts
      invariant 0 <= i <= Count(numOfPrts)
      invariant |numOfSlotsPerPrt| == i
      invariant forall k :: 0 <= k < i ==> numOfSlotsPerPrt[k] == numOfSlots
    {
      numOfSlotsPerPrt := numOfSlotsPerPrt + [numOfSlots];
      i := i + 1;
    }
  }

  /** Under aggressive descent the first priority gets the whole budget and each
      later one gets half of its predecessor's count, but never less than 1. */
  lemma DescentShape(numOfSlots: int, numOfPrts: int, i: int)
    requires 0 <= i < numOfPrts - 1
    ensures Allocation(numOfSlots, numOfPrts, AgressiveDescent)[0] == numOfSlots
    ensures Allocation(numOfSlots, numOfPrts, AgressiveDescent)[i + 1]
         == Halve(Allocation(numOfSlots, numOfPrts, AgressiveDescent)[i])
    ensures Allocation(numOfSlots, numOfPrts, AgressiveDescent)[i + 1] >= 1
  {
  }

  function Pow2(i: nat): (p: nat)
    ensures p >= 1
  {
    if i == 0 then 1 else 2 * Pow2(i - 1)
  }

  /** Dividing by p and then by 2 is dividing by 2p. */
  lemma DivTwice(n: nat, p: nat)
    requires p >= 1
    ensures (n / p) / 2 == n / (2 * p)
  {
    var q, r := n / p, n % p;
    var q2, r2 := q / 2, q % 2;
    assert n == p * q + r;
    assert q == 2 * q2 + r2;
    assert p * q == (2 * p) * q2 + p * r2;
    assert 0 <= p * r2 <= p;
    DivUnique(n, 2 * p, q2, p * r2 + r);
  }

  lemma {:induction false} MulAtLeast(d: int, k: int)
    requires d >= 0 && k >= 1
    ensures d * k >= d
    decreases k
  {
    if k > 1 {
      MulAtLeast(d, k - 1);
      assert d * k == d * (k - 1) + d;
    }
  }

  lemma MulNonZero(d: int, k: int)
    requires d >= 1 && k != 0
    ensures d * k >= d || d * k <= -d
  {
    if k >= 1 {
      MulAtLeast(d, k);
    } else {
      MulAtLeast(d, -k);
      assert d * k == -(d * -k);
    }
  }

  /** The quotient is the only x with n == d * x + y and 0 <= y < d. */
  lemma DivUnique(n: nat, d: nat, x: int, y: int)
    requires d >= 1 && n == d * x + y && 0 <= y < d
    ensures n / d == x
  {
    var q, r := n / d, n % d;
    assert n == d * q + r;
    assert d * (x - q) == r - y;
    if x - q != 0 {
      MulNonZero(d, x - q);
    }
  }

  /** For a non-negative budget, priority i >= 1 gets budget / 2^i slots, or 1
      when that quotient is 0. */
  lemma {:induction false} DescentClosedForm(numOfSlots: nat, i: nat)
    requires i >= 1
    ensures DescentCount(numOfSlots, i) == if numOfSlots / Pow2(i) < 1 then 1 else numOfSlots / Pow2(i)
  {
    if i > 1 {
      DescentClosedForm(numOfSlots, i - 1);
      DivTwice(numOfSlots, Pow2(i - 1));
    }
  }

  /** With a budget of at least 1, no priority gets more slots than a higher one. */
  lemma {:induction false} DescentNonIncreasing(numOfSlots: int, numOfPrts: int, i: int, j: int)
    requires numOfSlots >= 1
    requires 0 <= i <= j < numOfPrts
    ensures Allocation(numOfSlots, numOfPrts, AgressiveDescent)[j]
         <= Allocation(numOfSlots, numOfPrts, AgressiveDescent)[i]
    decreases j - i
  {
    if i < j {
      DescentNonIncreasing(numOfSlots, numOfPrts, i, j - 1);
    }
  }


  function Sum(xs: seq<int>): int
  {
    if |xs| == 0 then 0 else Sum(xs[..|xs| - 1]) + xs[|xs| - 1]
  }

  lemma {:induction false} SumConstant(xs: seq<int>, c: int)
    requires forall k :: 0 <= k < |xs| ==> xs[k] == c
    ensures Sum(xs) == |xs| * c
  {
    if |xs| > 0 {
      SumConstant(xs[..|xs| - 1], c);
    }
  }

  /** Equal distribution hands out the budget minus its remainder modulo the
      number of priorities: never more than the budget, and less by under one
      slot per priority. */
  lemma EqualDistributionTotal(numOfSlots: nat, numOfPrts: int)
    requires numOfPrts >= 1
    ensures Sum(Allocation(numOfSlots, numOfPrts, EqualDistribution)) == numOfSlots - numOfSlots % numOfPrts
    ensures numOfSlots - numOfPrts < Sum(Allocation(numOfSlots, numOfPrts, EqualDistribution)) <= numOfSlots
  {
    var counts := Allocation(numOfSlots, numOfPrts, EqualDistribution);
    SumConstant(counts, numOfSlots / numOfPrts);
  }

  /** Maximum capacity gives every priority the whole budget. */
  lemma MaxCapacityTotal(numOfSlots: int, numOfPrts: int)
    requires numOfPrts >= 0
    ensures Sum(Allocation(numOfSlots, numOfPrts, MaxCapacity)) == numOfPrts * numOfSlots
  {
    SumConstant(Allocation(numOfSlots, numOfPrts, MaxCapacity), numOfSlots);
  }

  /** With a negative budget, equal distribution rounds toward zero as Java does,
      not down. */
  lemma EqualDistributionNegative(numOfSlots: int, numOfPrts: int, i: int)
    requires numOfSlots < 0 && 0 <= i < numOfPrts
    ensures Allocation(numOfSlots, numOfPrts, EqualDistribution)[i] == -((-numOfSlots) / numOfPrts)
  {
  }

  /** The worked examples: 16 slots over 4 priorities descend as 16, 8, 4, 2;
      10 slots shared equally by 4 give 2 each; 5 slots at maximum capacity for 3
      priorities give 5 each; an empty budget under aggressive descent still
      grants 1 slot to every later priority. */
  lemma AllocationExamples()
    ensures Allocation(16, 4, AgressiveDescent) == [16, 8, 4, 2]
    ensures Allocation(10, 4, EqualDistribution) == [2, 2, 2, 2]
    ensures Allocation(5, 3, MaxCapacity) == [5, 5, 5]
    ensures Allocation(0, 3, AgressiveDescent) == [0, 1, 1]
    ensures Allocation(0, 3, EqualDistribution) == [0, 0, 0]
  {
    var d := Allocation(16, 4, AgressiveDescent);
    assert d[1] == 8 && d[2] == 4 && d[3] == 2;
    var z := Allocation(0, 3, AgressiveDescent);
    assert z[1] == 1 && z[2] == 1;
  }
}
