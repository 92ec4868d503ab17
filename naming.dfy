/** The names under which a cycle's unknowns are created in the solver, and the
    rectangles of slot unknowns that binding builds. Names must never collide
    within a solving session: every property here serves that. */
module Naming {
  import opened Decimal
  import opened JavaLists
  import opened Symbolic

  /** "cycle" + Integer.toString(instance): a cycle's default display name. */
  function CycleName(instance: nat): (r: string)
    ensures |r| > 5 && r[..5] == "cycle"
    ensures AllDigits(r[5..]) && ParseDigits(r[5..]) == instance
  {
    ParseNatToString(instance);
    assert ("cycle" + NatToString(instance))[5..] == NatToString(instance);
    "cycle" + NatToString(instance)
  }

  /** Name of the unknown for the cycle's duration. */
  function CycleDurationName(instance: nat): (r: string)
    ensures NameKind(r) == 0
  {
    "cycle" + NatToString(instance) + "Duration"
  }

  /** Name of the unknown for the start of the cycle's first repetition. */
  function CycleStartName(instance: nat): (r: string)
    ensures NameKind(r) == 1
  {
    "cycle" + NatToString(instance) + "Start"
  }

  /** Which of the two per-slot unknowns a name denotes. */
  datatype SlotField = StartField | DurationField

  function FieldSuffix(f: SlotField): string
  {
    match f
    case StartField => "start"
    case DurationField => "duration"
  }

  /** name + "prt" + (i+1) + "slot" + (j+1) + "start" / "duration", for the
      zero-based priority row i and slot column j. */
  function SlotUnknownName(cycleName: string, prt: nat, slot: nat, field: SlotField): (r: string)
    ensures |r| > |cycleName| + 3 && r[..|cycleName|] == cycleName && r[|cycleName|..|cycleName| + 3] == "prt"
  {
    cycleName + ("prt" + (NatToString(prt + 1) + ("slot" + (NatToString(slot + 1) + FieldSuffix(field)))))
  }

  /** One row of slot unknowns: the unknowns of priority row prt. */
  function UnknownRow(cycleName: string, prt: nat, slots: int, field: SlotField): (row: seq<Expr>)
    ensures |row| == Count(slots)
    ensures forall j :: 0 <= j < |row| ==> row[j] == Const(SlotUnknownName(cycleName, prt, j, field))
  {
    seq(Count(slots), (j: int) requires 0 <= j < Count(slots) => Const(SlotUnknownName(cycleName, prt, j, field)))
  }

  /** The prts x slots rectangle of slot unknowns that binding creates. */
  function UnknownRectangle(cycleName: string, prts: int, slots: int, field: SlotField): (rect: seq<seq<Expr>>)
    ensures |rect| == Count(prts)
    ensures forall i :: 0 <= i < |rect| ==> rect[i] == UnknownRow(cycleName, i, slots, field)
  {
    seq(Count(prts), (i: int) requires 0 <= i < Count(prts) => UnknownRow(cycleName, i, slots, field))
  }

  /** Every unknown that binding a cycle with its default name creates. */
  datatype Unknown =
    | CycleDuration(instance: nat)
    | FirstCycleStart(instance: nat)
    | SlotUnknown(instance: nat, prt: nat, slot: nat, field: SlotField)

  function UnknownName(u: Unknown): string
  {
    match u
    case CycleDuration(i) => CycleDurationName(i)
    case FirstCycleStart(i) => CycleStartName(i)
    case SlotUnknown(i, p, s, f) => SlotUnknownName(CycleName(i), p, s, f)
  }

  /** Two cycles with different instance numbers have different names. */
  lemma CycleNameInjective(a: nat, b: nat)
    requires CycleName(a) == CycleName(b)
    ensures a == b
  {
    assert NatToString(a) == CycleName(a)[5..];
    assert NatToString(b) == CycleName(b)[5..];
    NatToStringInjective(a, b);
  }

  /** Equal strings with equal prefixes have equal remainders. */
  lemma DropPrefix(h: string, a: string, b: string)
    requires h + a == h + b
    ensures a == b
  {
    assert a == (h + a)[|h|..];
    assert b == (h + b)[|h|..];
  }

  /** Within one cycle name, a slot unknown's name determines its row, column and field. */
  lemma SlotUnknownNameInjective(cycleName: string, p1: nat, s1: nat, f1: SlotField,
                                 p2: nat, s2: nat, f2: SlotField)
    requires SlotUnknownName(cycleName, p1, s1, f1) == SlotUnknownName(cycleName, p2, s2, f2)
    ensures p1 == p2 && s1 == s2 && f1 == f2
  {
    var w1, w2 := NatToString(s1 + 1) + FieldSuffix(f1), NatToString(s2 + 1) + FieldSuffix(f2);
    var z1, z2 := "slot" + w1, "slot" + w2;
    var y1, y2 := NatToString(p1 + 1) + z1, NatToString(p2 + 1) + z2;
    DropPrefix(cycleName, "prt" + y1, "prt" + y2);
    DropPrefix("prt", y1, y2);
    NatThenTextInjective(p1 + 1, z1, p2 + 1, z2);
    DropPrefix("slot", w1, w2);
    NatThenTextInjective(s1 + 1, FieldSuffix(f1), s2 + 1, FieldSuffix(f2));
  }

  lemma Associative(x: string, y: string, z: string)
    ensures (x + y) + z == x + (y + z)
  {
  }

  /** A slot unknown's name is the cycle name followed by a part that does not
      depend on it. */
  lemma SlotUnknownNameSplit(cycleName: string, prt: nat, slot: nat, field: SlotField)
    ensures SlotUnknownName(cycleName, prt, slot, field) == cycleName + SlotUnknownName("", prt, slot, field)
    ensures SlotUnknownName("", prt, slot, field)[0] == 'p'
  {
  }

  /** Slot unknowns of two cycles with default names never share a name. */
  lemma SlotUnknownNameCycles(a: nat, p1: nat, s1: nat, f1: SlotField,
                              b: nat, p2: nat, s2: nat, f2: SlotField)
    requires SlotUnknownName(CycleName(a), p1, s1, f1) == SlotUnknownName(CycleName(b), p2, s2, f2)
    ensures a == b
  {
    var t1, t2 := SlotUnknownName("", p1, s1, f1), SlotUnknownName("", p2, s2, f2);
    SlotUnknownNameSplit(CycleName(a), p1, s1, f1);
    SlotUnknownNameSplit(CycleName(b), p2, s2, f2);
    Associative("cycle", NatToString(a), t1);
    Associative("cycle", NatToString(b), t2);
    DropPrefix("cycle", NatToString(a) + t1, NatToString(b) + t2);
    NatThenTextInjective(a, t1, b, t2);
  }

  /** Tells the four kinds of name apart by their endings: "Duration", "Start",
      "start", "duration". */
  function NameKind(s: string): int
  {
    if |s| < 8 then -1
    else if s[|s| - 1] == 'n' then (if s[|s| - 8] == 'D' then 0 else 3)
    else if s[|s| - 5] == 'S' then 1
    else 2
  }

  function UnknownKind(u: Unknown): int
  {
    match u
    case CycleDuration(_) => 0
    case FirstCycleStart(_) => 1
    case SlotUnknown(_, _, _, f) => if f == StartField then 2 else 3
  }

  /** A slot unknown's name without its field suffix. */
  function SlotUnknownStem(cycleName: string, prt: nat, slot: nat): string
  {
    cycleName + ("prt" + (NatToString(prt + 1) + ("slot" + NatToString(slot + 1))))
  }

  lemma SlotUnknownNameStem(cycleName: string, prt: nat, slot: nat, field: SlotField)
    ensures SlotUnknownName(cycleName, prt, slot, field) == SlotUnknownStem(cycleName, prt, slot) + FieldSuffix(field)
  {
    var d1, d2, suf := NatToString(prt + 1), NatToString(slot + 1), FieldSuffix(field);
    Associative("slot", d2, suf);
    Associative(d1, "slot" + d2, suf);
    Associative("prt", d1 + ("slot" + d2), suf);
    Associative(cycleName, "prt" + (d1 + ("slot" + d2)), suf);
  }

  /** The k-th character from the end of x + suf is that of suf. */
  lemma CharFromEnd(x: string, suf: string, k: nat)
    requires 1 <= k <= |suf|
    ensures (x + suf)[|x + suf| - k] == suf[|suf| - k]
  {
  }

  lemma NameKindOf(u: Unknown)
    ensures NameKind(UnknownName(u)) == UnknownKind(u)
  {
    match u
    case CycleDuration(i) =>
      var x := "cycle" + NatToString(i);
      CharFromEnd(x, "Duration", 1);
      CharFromEnd(x, "Duration", 8);
    case FirstCycleStart(i) =>
      var x := "cycle" + NatToString(i);
      CharFromEnd(x, "Start", 1);
      CharFromEnd(x, "Start", 5);
    case SlotUnknown(i, p, j, f) =>
      SlotNameKind(CycleName(i), p, j, f);
  }

  /** Whatever the cycle's name, a slot unknown's name ends in "start" or
      "duration". */
  lemma SlotNameKind(cycleName: string, prt: nat, slot: nat, field: SlotField)
    ensures NameKind(SlotUnknownName(cycleName, prt, slot, field)) == if field == StartField then 2 else 3
  {
    var x := SlotUnknownStem(cycleName, prt, slot);
    var suf := FieldSuffix(field);
    SlotUnknownNameStem(cycleName, prt, slot, field);
    CharFromEnd(x, suf, 1);
    CharFromEnd(x, suf, 5);
    if field == DurationField {
      CharFromEnd(x, suf, 8);
    }
  }

  /** No two distinct unknowns of any cycles with default names share a name. */
  lemma UnknownNamesDistinct(u1: Unknown, u2: Unknown)
    requires UnknownName(u1) == UnknownName(u2)
    ensures u1 == u2
  {
    NameKindOf(u1);
    NameKindOf(u2);
    match u1
    case CycleDuration(a) =>
      assert u2.CycleDuration?;
      assert NatToString(a) + "Duration" == UnknownName(u1)[5..] == NatToString(u2.instance) + "Duration";
      NatThenTextInjective(a, "Duration", u2.instance, "Duration");
    case FirstCycleStart(a) =>
      assert u2.FirstCycleStart?;
      assert NatToString(a) + "Start" == UnknownName(u1)[5..] == NatToString(u2.instance) + "Start";
      NatThenTextInjective(a, "Start", u2.instance, "Start");
    case SlotUnknown(a, p, j, f) =>
      assert u2.SlotUnknown?;
      SlotUnknownNameCycles(a, p, j, f, u2.instance, u2.prt, u2.slot, u2.field);
      SlotUnknownNameInjective(CycleName(a), p, j, f, u2.prt, u2.slot, u2.field);
  }

  /** Distinct cells of the start and duration rectangles hold distinct unknowns. */
  lemma RectangleCellsDistinct(cycleName: string, prts: int, slots: int,
                               f1: SlotField, i1: int, j1: int,
                               f2: SlotField, i2: int, j2: int)
    requires 0 <= i1 < Count(prts) && 0 <= j1 < Count(slots)
    requires 0 <= i2 < Count(prts) && 0 <= j2 < Count(slots)
    requires UnknownRectangle(cycleName, prts, slots, f1)[i1][j1] == UnknownRectangle(cycleName, prts, slots, f2)[i2][j2]
    ensures i1 == i2 && j1 == j2 && f1 == f2
  {
    SlotUnknownNameInjective(cycleName, i1, j1, f1, i2, j2, f2);
  }
}
