/**
 * `permutate` of AOC19-07.js: every ordering of a list of values, built by
 * a `reduce` over the positions that puts each value in front of every
 * ordering of the others.
 */
module Permutations {

  /** The values with the one at `index` spliced out. */
  function Without(values: seq<int>, index: nat): (rest: seq<int>)
    requires index < |values|
    ensures |rest| == |values| - 1
  {
    values[..index] + values[index + 1..]
  }

  /** `orderings.map(a => [].concat(value, a))`. */
  function Prefixed(value: int, orderings: seq<seq<int>>): (r: seq<seq<int>>)
    ensures |r| == |orderings|
    ensures forall k :: 0 <= k < |r| ==> r[k] == [value] + orderings[k]
  {
    seq(|orderings|, k requires 0 <= k < |orderings| => [value] + orderings[k])
  }

  /**
   * `permutate(values)`: a single value is its only ordering, and otherwise
   * the `reduce` over all positions (which gives [] for no values at all).
   * For one value the result is the list holding that one ordering, where
   * AOC19-07.js:5 returns the flat `values`; inside the recursion both give
   * the same orderings, since `[].concat(value, a)` flattens `a` either way.
   */
  function Permutate(values: seq<int>): seq<seq<int>>
    decreases |values|, 1
  {
    if |values| == 1 then [values] else Spread(values, |values|)
  }

  /** The `reduce` accumulator after the first `count` positions. */
  function Spread(values: seq<int>, count: nat): seq<seq<int>>
    requires count <= |values|
    decreases |values|, 0, count
  {
    if count == 0 then []
    else Spread(values, count - 1) + Prefixed(values[count - 1], Permutate(Without(values, count - 1)))
  }

  function Factorial(n: nat): (f: nat)
    ensures f >= 1
  {
    if n == 0 then 1 else n * Factorial(n - 1)
  }

  /** No value occurs twice. */
  predicate Distinct<T(==)>(s: seq<T>) {
    forall i, j :: 0 <= i < j < |s| ==> s[i] != s[j]
  }

  /**
   * For one value or more there are n! orderings; for none, the empty
   * `reduce` gives none. A single value gives one ordering, the input.
   */
  lemma {:induction false} PermutationCount(values: seq<int>)
    ensures |Permutate(values)| == if |values| == 0 then 0 else Factorial(|values|)
    ensures |values| == 1 ==> Permutate(values) == [values]
    decreases |values|, 1
  {
    if |values| > 1 {
      SpreadCount(values, |values|);
    }
  }

  lemma {:induction false} SpreadCount(values: seq<int>, count: nat)
    requires 2 <= |values| && count <= |values|
    ensures |Spread(values, count)| == count * Factorial(|values| - 1)
    decreases |values|, 0, count
  {
    if count > 0 {
      SpreadCount(values, count - 1);
      PermutationCount(Without(values, count - 1));
      assert |Spread(values, count)| == (count - 1) * Factorial(|values| - 1) + Factorial(|values| - 1);
    }
  }

  /** Splicing out one value and putting it back in front keeps the same values. */
  lemma SpliceMultiset(values: seq<int>, index: nat)
    requires index < |values|
    ensures multiset([values[index]] + Without(values, index)) == multiset(values)
  {
    assert values == values[..index] + [values[index]] + values[index + 1..];
  }

  /** Every ordering is a rearrangement of the input: the same values, each as often. */
  lemma {:induction false} EachIsRearrangement(values: seq<int>, p: seq<int>)
    requires p in Permutate(values)
    ensures multiset(p) == multiset(values) && |p| == |values|
    decreases |values|, 1
  {
    if |values| != 1 {
      SpreadRearranges(values, |values|, p);
    }
  }

  lemma {:induction false} SpreadRearranges(values: seq<int>, count: nat, p: seq<int>)
    requires count <= |values| && |values| != 1
    requires p in Spread(values, count)
    ensures multiset(p) == multiset(values) && |p| == |values|
    decreases |values|, 0, count
  {
    var front := Spread(values, count - 1);
    if p in front {
      SpreadRearranges(values, count - 1, p);
    } else {
      var rest := Permutate(Without(values, count - 1));
      var k :| 0 <= k < |rest| && p == [values[count - 1]] + rest[k];
      EachIsRearrangement(Without(values, count - 1), rest[k]);
      SpliceMultiset(values, count - 1);
    }
  }

  /** Splicing a value out of distinct values leaves distinct values, none of them equal to it. */
  lemma WithoutDistinct(values: seq<int>, index: nat)
    requires index < |values| && Distinct(values)
    ensures Distinct(Without(values, index))
    ensures values[index] !in Without(values, index)
  {
    var rest := Without(values, index);
    forall i, j | 0 <= i < j < |rest|
      ensures rest[i] != rest[j]
    {
      var i' := if i < index then i else i + 1;
      var j' := if j < index then j else j + 1;
      assert rest[i] == values[i'] && rest[j] == values[j'];
    }
    forall i | 0 <= i < |rest|
      ensures rest[i] != values[index]
    {
      assert rest[i] == values[if i < index then i else i + 1];
    }
  }

  /** For distinct values, no ordering is produced twice. */
  lemma {:induction false} AllDistinct(values: seq<int>)
    requires Distinct(values)
    ensures Distinct(Permutate(values))
    decreases |values|, 1
  {
    if |values| != 1 {
      SpreadDistinct(values, |values|);
    }
  }

  lemma {:induction false} SpreadDistinct(values: seq<int>, count: nat)
    requires count <= |values| && |values| != 1 && Distinct(values)
    ensures Distinct(Spread(values, count))
    ensures forall p :: p in Spread(values, count) ==> |p| > 0 && p[0] in values[..count]
    decreases |values|, 0, count
  {
    if count > 0 {
      var front := Spread(values, count - 1);
      var rest := Permutate(Without(values, count - 1));
      var block := Prefixed(values[count - 1], rest);
      SpreadDistinct(values, count - 1);
      WithoutDistinct(values, count - 1);
      AllDistinct(Without(values, count - 1));
      PrefixedDistinct(values[count - 1], rest);
      forall p | p in front
        ensures |p| > 0 && p[0] != values[count - 1] && p[0] in values[..count]
      {
        var k :| 0 <= k < count - 1 && p[0] == values[k];
        assert values[..count][k] == values[k];
      }
      assert values[..count][count - 1] == values[count - 1];
      JoinDistinct(front, block, values[count - 1]);
      assert Spread(values, count) == front + block;
    }
  }

  /** Orderings that differ differ still with the same value put in front of each. */
  lemma PrefixedDistinct(value: int, orderings: seq<seq<int>>)
    requires Distinct(orderings)
    ensures Distinct(Prefixed(value, orderings))
    ensures forall p | p in Prefixed(value, orderings) :: |p| > 0 && p[0] == value
  {
    var block := Prefixed(value, orderings);
    forall i, j | 0 <= i < j < |block|
      ensures block[i] != block[j]
    {
      assert block[i][1..] == orderings[i] && block[j][1..] == orderings[j];
    }
  }

  /** Distinct orderings not starting with `value`, then distinct ones starting with it, are all distinct. */
  lemma JoinDistinct(front: seq<seq<int>>, block: seq<seq<int>>, value: int)
    requires Distinct(front) && Distinct(block)
    requires forall p | p in front :: |p| > 0 && p[0] != value
    requires forall p | p in block :: |p| > 0 && p[0] == value
    ensures Distinct(front + block)
  {
    var all := front + block;
    forall i, j | 0 <= i < j < |all|
      ensures all[i] != all[j]
    {
      if i < |front| && j >= |front| {
        assert all[i] in front && all[j] in block;
      } else if i >= |front| {
        assert all[i] == block[i - |front|] && all[j] == block[j - |front|];
      }
    }
  }
}
