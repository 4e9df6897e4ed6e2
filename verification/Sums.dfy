/** Amounts that are added up. */
module Sums {
  import opened Records

  function Sum(cents: seq<Cents>): Cents {
    if cents == [] then 0 else Sum(cents[..|cents| - 1]) + cents[|cents| - 1]
  }

  lemma {:induction false} SumUpdated(cents: seq<Cents>, i: nat, value: Cents)
    requires i < |cents|
    ensures Sum(cents[i := value]) == Sum(cents) - cents[i] + value
  {
    var last := |cents| - 1;
    if i < last {
      assert cents[i := value][..last] == cents[..last][i := value];
      SumUpdated(cents[..last], i, value);
    } else {
      assert cents[i := value][..last] == cents[..last];
    }
  }

  lemma {:induction false} SumNotNegative(cents: seq<Cents>)
    requires forall i | 0 <= i < |cents| :: cents[i] >= 0
    ensures Sum(cents) >= 0
  {
    if cents != [] {
      SumNotNegative(cents[..|cents| - 1]);
    }
  }

  /** Amounts that are matched one to one against amounts at least as large sum to no more. */
  lemma {:induction false} MatchedSum(left: seq<Cents>, right: seq<Cents>, partner: seq<nat>)
    requires |partner| == |left|
    requires forall j | 0 <= j < |right| :: right[j] >= 0
    requires forall i | 0 <= i < |left| && left[i] > 0 :: partner[i] < |right| && left[i] <= right[partner[i]]
    requires forall i, j | 0 <= i < j < |left| && left[i] > 0 && left[j] > 0 :: partner[i] != partner[j]
    ensures Sum(left) <= Sum(right)
    decreases |left|
  {
    if left == [] {
      SumNotNegative(right);
    } else {
      var last := |left| - 1;
      if left[last] > 0 {
        SumUpdated(right, partner[last], 0);
        MatchedSum(left[..last], right[partner[last] := 0], partner[..last]);
      } else {
        MatchedSum(left[..last], right, partner[..last]);
      }
    }
  }

  lemma {:induction false} SumOfZeros(cents: seq<Cents>)
    requires forall i | 0 <= i < |cents| :: cents[i] == 0
    ensures Sum(cents) == 0
  {
    if cents != [] {
      SumOfZeros(cents[..|cents| - 1]);
    }
  }

  function Added(left: seq<Cents>, right: seq<Cents>): (sums: seq<Cents>)
    requires |left| == |right|
    ensures |sums| == |left|
  {
    seq(|left|, i requires 0 <= i < |left| => left[i] + right[i])
  }

  lemma {:induction false} SumAdded(left: seq<Cents>, right: seq<Cents>)
    requires |left| == |right|
    ensures Sum(Added(left, right)) == Sum(left) + Sum(right)
  {
    if left != [] {
      var last := |left| - 1;
      SumAdded(left[..last], right[..last]);
      assert Added(left, right)[..last] == Added(left[..last], right[..last]);
    }
  }

  lemma SumOfPair(a: Cents, b: Cents)
    ensures Sum([a, b]) == a + b
  {
    assert [a, b][..1] == [a] && [a][..0] == [];
    assert Sum([a]) == a;
  }
}
