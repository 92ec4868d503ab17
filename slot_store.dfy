/** Lookups in a cycle's record of solved slots. The record is three parallel
    lists: the priorities used, in the order they were first recorded, and for
    each a list of slot starts and a list of slot durations. A priority is found
    through indexOf, so its storage position is its insertion position, not its
    number. */
module SlotStore {
  import opened JavaLists

  /** `lists.get(slotsUsed.indexOf(prt))`: the list recorded for a priority, or
      the exception get(-1) raises when the priority was never recorded. */
  function LookupList<T>(slotsUsed: seq<int>, lists: seq<T>, prt: int): (r: Result<T>)
    ensures |lists| == |slotsUsed| ==> (r.Ok? <==> prt in slotsUsed)
    ensures prt !in slotsUsed ==> r == Failure(IndexOutOfBounds(-1))
  {
    Get(lists, IndexOf(slotsUsed, prt))
  }

  /** `lists.get(slotsUsed.indexOf(prt)).get(index)`: one recorded value. */
  function LookupEntry(slotsUsed: seq<int>, lists: seq<seq<real>>, prt: int, index: int): (r: Result<real>)
    ensures prt !in slotsUsed ==> r == Failure(IndexOutOfBounds(-1))
    ensures r.Ok? <==> LookupList(slotsUsed, lists, prt).Ok?
                       && 0 <= index < |LookupList(slotsUsed, lists, prt).value|
    ensures r.Ok? ==> r.value == LookupList(slotsUsed, lists, prt).value[index]
  {
    GetIn(lists, IndexOf(slotsUsed, prt), index)
  }

  /** With no priority recorded twice, a recorded priority finds the list stored
      at its own position. */
  lemma LookupRecorded<T>(slotsUsed: seq<int>, lists: seq<T>, k: int)
    requires NoDuplicates(slotsUsed) && |lists| == |slotsUsed|
    requires 0 <= k < |slotsUsed|
    ensures LookupList(slotsUsed, lists, slotsUsed[k]) == Ok(lists[k])
  {
    IndexOfDistinct(slotsUsed, k);
  }

  /** Recording a new priority makes it find exactly the list recorded with it
      and leaves every other lookup as it was. */
  lemma LookupAfterRecord<T>(slotsUsed: seq<int>, lists: seq<T>, p: int, v: T, q: int)
    requires p !in slotsUsed && |lists| == |slotsUsed|
    ensures LookupList(slotsUsed + [p], lists + [v], q)
         == if q == p then Ok(v) else LookupList(slotsUsed, lists, q)
  {
    IndexOfAppend(slotsUsed, p, q);
  }

  /** The same for single entries. */
  lemma LookupEntryAfterRecord(slotsUsed: seq<int>, lists: seq<seq<real>>, p: int, v: seq<real>, q: int, index: int)
    requires p !in slotsUsed && |lists| == |slotsUsed|
    ensures LookupEntry(slotsUsed + [p], lists + [v], q, index)
         == if q == p then Get(v, index) else LookupEntry(slotsUsed, lists, q, index)
  {
    IndexOfAppend(slotsUsed, p, q);
  }
}
