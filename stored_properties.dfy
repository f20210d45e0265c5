/** Stored properties: a range of integers given by its first value and
    a length fixed when the range is built. */
module StoredProperties {

  import opened SwiftInt

  /** The integers a range starting at `first` with `length` items stands
      for: `first, first + 1, ..., first + length - 1`. */
  function Members(first: int, length: int): set<int>
  {
    set i | first <= i < first + length && Covers(first, length, i)
  }

  /** `i` lies between the first and the last value of the range; named so
      that the set comprehension above has a term to trigger on. */
  predicate Covers(first: int, length: int, i: int)
  {
    first <= i <= first + length - 1
  }

  /** A range of `length` items has exactly `length` members (none when the
      length is zero or negative). */
  lemma {:induction false} MembersCount(first: int, length: int)
    ensures |Members(first, length)| == if length <= 0 then 0 else length
    decreases if length <= 0 then 0 else length
  {
    if length <= 0 {
      assert Members(first, length) == {};
    } else {
      MembersCount(first, length - 1);
      assert Members(first, length) == Members(first, length - 1) + {first + length - 1};
    }
  }

  /** Moving the first value by `d` moves every member by `d`, and nothing else. */
  lemma MembersShift(first: int, length: int, d: int)
    ensures Members(first + d, length) == set x | x in Members(first, length) :: x + d
  {
    var shifted := set x | x in Members(first, length) :: x + d;
    forall y | y in Members(first + d, length) ensures y in shifted {
      assert y - d in Members(first, length);
    }
  }

  /** The `k`-th item of a range starting at `first` (counting from 0). */
  function Item(first: int, k: int): int
  {
    first + k
  }

  /** The range lists its items one after the other: `first + 0`,
      `first + 1`, ..., `first + (length - 1)`. */
  lemma MembersListed(first: int, length: int)
    ensures Members(first, length) == set k | 0 <= k < length :: Item(first, k)
  {
    var listed := set k | 0 <= k < length :: Item(first, k);
    forall y | y in Members(first, length) ensures y in listed {
      var k := y - first;
      assert Item(first, k) == y;
    }
  }

  /** A `struct FixedLengthRange` value whose `firstValue` is reassigned in
      place; `length` is a `let` and never changes after construction. */
  class FixedLengthRange {
    var firstValue: Int
    const length: Int

    /** The integers the range currently represents. */
    function Represented(): set<int>
      reads this
    {
      Members(firstValue, length)
    }

    /** The memberwise initializer. */
    constructor (firstValue: Int, length: Int)
      ensures this.firstValue == firstValue && this.length == length
      ensures Represented() == Members(firstValue, length)
    {
      this.firstValue := firstValue;
      this.length := length;
    }

    /** Assignment to `firstValue`: only `firstValue` changes, and the
        represented integers move by the difference. */
    method SetFirstValue(newValue: Int)
      modifies this`firstValue
      ensures firstValue == newValue
      ensures Represented() == set x | x in old(Represented()) :: x + (newValue - old(firstValue))
      ensures |Represented()| == |old(Represented())|
    {
      ghost var d := newValue - firstValue;
      MembersShift(firstValue, length, d);
      MembersCount(firstValue, length);
      MembersCount(newValue, length);
      firstValue := newValue;
    }
  }

  /** The range of three items starting at 0 stands for 0, 1 and 2; after
      `firstValue` becomes 6 it stands for 6, 7 and 8, still of length 3. */
  method RangeOfThreeItems() returns (before: set<int>, after: set<int>, length: Int)
    ensures before == {0, 1, 2}
    ensures after == {6, 7, 8}
    ensures length == 3
  {
    var range := new FixedLengthRange(0, 3);
    before := range.Represented();
    assert before == {0, 1, 2} by {
      forall y | y in before ensures y in {0, 1, 2} { }
    }
    range.SetFirstValue(6);
    after := range.Represented();
    assert after == {6, 7, 8} by {
      forall y | y in after ensures y in {6, 7, 8} { }
    }
    length := range.length;
  }
}
