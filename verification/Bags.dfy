/** Sums of bags, for saying that nothing is lost or duplicated when elements
    move between many containers. */
module Bags {

  function Sum<T>(bags: seq<multiset<T>>): multiset<T> {
    if |bags| == 0 then multiset{} else Sum(bags[..|bags| - 1]) + bags[|bags| - 1]
  }

  /** Replacing one bag changes the sum by the difference. */
  lemma {:induction false} SumUpdate<T>(bags: seq<multiset<T>>, i: nat, bag: multiset<T>)
    requires i < |bags|
    ensures Sum(bags[i := bag]) + bags[i] == Sum(bags) + bag
  {
    var n := |bags| - 1;
    if i < n {
      SumUpdate(bags[..n], i, bag);
      assert bags[i := bag][..n] == bags[..n][i := bag];
      AddBoth(Sum(bags[..n]), Sum(bags[..n][i := bag]), bags[i], bag, bags[n]);
    } else {
      assert bags[i := bag][..n] == bags[..n];
    }
  }

  lemma {:induction false} SumHas<T>(bags: seq<multiset<T>>, i: nat)
    requires i < |bags|
    ensures bags[i] <= Sum(bags)
  {
    var n := |bags| - 1;
    if i < n {
      SumHas(bags[..n], i);
    }
  }

  lemma {:induction false} SumSource<T>(bags: seq<multiset<T>>, x: T) returns (i: nat)
    requires x in Sum(bags)
    ensures i < |bags| && x in bags[i]
  {
    var n := |bags| - 1;
    if x in bags[n] {
      i := n;
    } else {
      i := SumSource(bags[..n], x);
    }
  }

  lemma {:induction false} SumEmpty<T>(bags: seq<multiset<T>>)
    requires forall i :: 0 <= i < |bags| ==> bags[i] == multiset{}
    ensures Sum(bags) == multiset{}
  {
    if |bags| > 0 {
      SumEmpty(bags[..|bags| - 1]);
    }
  }

  /** Two balanced exchanges compose. */
  lemma {:induction false} Exchange<T>(total: multiset<T>, total': multiset<T>, part: multiset<T>, part': multiset<T>,
                                       x: multiset<T>, x': multiset<T>)
    requires total' + part == total + part'
    requires part' + x == part + x'
    ensures total' + x == total + x'
  {
    forall e
      ensures (total' + x)[e] == (total + x')[e]
    {
      assert (total' + part)[e] == (total + part')[e];
      assert (part' + x)[e] == (part + x')[e];
    }
  }

  lemma {:induction false} SumPrefixSize<T>(bags: seq<multiset<T>>, n: nat)
    requires n < |bags|
    ensures |Sum(bags[..n + 1])| == |Sum(bags[..n])| + |bags[n]|
  {
    assert bags[..n + 1][..n] == bags[..n];
  }

  lemma {:induction false} AddBoth<T>(total: multiset<T>, total': multiset<T>, part: multiset<T>, part': multiset<T>,
                                    x: multiset<T>)
    requires total' + part == total + part'
    ensures (total' + x) + part == (total + x) + part'
  {
    forall e
      ensures ((total' + x) + part)[e] == ((total + x) + part')[e]
    {
      assert (total' + part)[e] == (total + part')[e];
    }
  }

  lemma {:induction false} SumTwo<T>(bags: seq<multiset<T>>, i: nat, j: nat)
    requires i < j < |bags|
    ensures bags[i] + bags[j] <= Sum(bags)
  {
    var n := |bags| - 1;
    if j < n {
      SumTwo(bags[..n], i, j);
    } else {
      SumHas(bags[..n], i);
    }
  }
}
