/** How many items of a sequence a predicate counts. */
module Counting {

  function Count<T>(items: seq<T>, counts: T -> bool): nat {
    if items == [] then 0 else (if counts(items[0]) then 1 else 0) + Count(items[1..], counts)
  }

  lemma {:induction false} CountConcat<T>(left: seq<T>, right: seq<T>, counts: T -> bool)
    ensures Count(left + right, counts) == Count(left, counts) + Count(right, counts)
  {
    if left == [] {
      assert left + right == right;
    } else {
      assert (left + right)[1..] == left[1..] + right;
      CountConcat(left[1..], right, counts);
    }
  }

  lemma {:induction false} CountNone<T>(items: seq<T>, counts: T -> bool)
    requires forall item :: item in items ==> !counts(item)
    ensures Count(items, counts) == 0
  {
    if items != [] {
      assert items[0] in items;
      CountNone(items[1..], counts);
    }
  }

  lemma CountOne<T>(item: T, counts: T -> bool)
    ensures Count([item], counts) == if counts(item) then 1 else 0
  {
  }

  lemma {:induction false} CountWithin<T>(items: seq<T>, some: T -> bool, all: T -> bool)
    requires forall item :: item in items && some(item) ==> all(item)
    ensures Count(items, some) <= Count(items, all)
  {
    if items != [] {
      assert items[0] in items;
      CountWithin(items[1..], some, all);
    }
  }

  lemma {:induction false} CountSplit<T>(items: seq<T>, all: T -> bool, some: T -> bool, others: T -> bool)
    requires forall item :: item in items ==> all(item) == (some(item) || others(item)) && !(some(item) && others(item))
    ensures Count(items, all) == Count(items, some) + Count(items, others)
  {
    if items != [] {
      assert items[0] in items;
      CountSplit(items[1..], all, some, others);
    }
  }

  /** What is counted, by position. */
  ghost function Positions<T>(items: seq<T>, counts: T -> bool): set<nat> {
    set i: nat | i < |items| && counts(items[i])
  }

  lemma {:induction false} CountIsSize<T>(items: seq<T>, counts: T -> bool)
    ensures Count(items, counts) == |Positions(items, counts)|
    decreases |items|
  {
    if items == [] {
      assert Positions(items, counts) == {};
    } else {
      var front, last := items[..|items| - 1], items[|items| - 1];
      assert items == front + [last];
      CountConcat(front, [last], counts);
      CountIsSize(front, counts);
      CountOne(last, counts);
      assert Positions(items, counts) == Positions(front, counts) + if counts(last) then {|front|} else {};
    }
  }
}
