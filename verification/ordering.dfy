/** The ordering policy of incremental generation (`--incremental-mode`): the order in
    which the located to-do methods are visited. `seq` keeps the locator's order, `rev`
    reverses it, `rand` shuffles it in place with Python's `random.shuffle`. */
module Ordering {

  datatype Policy = Seq | Rev | Rand

  /** Python's `reversed(xs)`. */
  function Reverse<T>(xs: seq<T>): (r: seq<T>)
    ensures |r| == |xs|
    ensures forall i :: 0 <= i < |xs| ==> r[i] == xs[|xs| - 1 - i]
    ensures multiset(r) == multiset(xs)
  {
    if xs == [] then []
    else
      assert xs == [xs[0]] + xs[1..];
      Reverse(xs[1..]) + [xs[0]]
  }

  /** Exchanges the elements at positions `i` and `j`. */
  function Swap<T>(xs: seq<T>, i: nat, j: nat): (r: seq<T>)
    requires i < |xs| && j < |xs|
    ensures |r| == |xs|
    ensures multiset(r) == multiset(xs)
    ensures r[i] == xs[j] && r[j] == xs[i]
    ensures forall k :: 0 <= k < |xs| && k != i && k != j ==> r[k] == xs[k]
  {
    xs[i := xs[j]][j := xs[i]]
  }

  /** The swap loop of `random.shuffle`, from position `i - 1` down to position 1:
      position `i - 1` is exchanged with a position drawn below `i`.
      `pick` stands for the random draws; only its value modulo `i` is used,
      which is how `randbelow(i)` ranges over `0 .. i - 1`. */
  function ShuffleDown<T>(xs: seq<T>, i: nat, pick: nat -> nat): (r: seq<T>)
    requires i <= |xs|
    ensures |r| == |xs|
    ensures multiset(r) == multiset(xs)
    ensures forall k :: i <= k < |xs| ==> r[k] == xs[k]
    decreases i
  {
    if i <= 1 then xs
    else ShuffleDown(Swap(xs, i - 1, pick(i - 1) % i), i - 1, pick)
  }

  /** `random.shuffle(xs)`: a Fisher-Yates shuffle driven by the draws in `pick`. */
  function Shuffle<T>(xs: seq<T>, pick: nat -> nat): (r: seq<T>)
    ensures multiset(r) == multiset(xs)
  {
    ShuffleDown(xs, |xs|, pick)
  }

  /** The traversal order the policy gives to the located methods. */
  function Order<T>(xs: seq<T>, policy: Policy, pick: nat -> nat): (r: seq<T>)
    ensures |r| == |xs|
    ensures multiset(r) == multiset(xs)
    ensures policy == Seq ==> r == xs
    ensures policy == Rev ==> forall i :: 0 <= i < |xs| ==> r[i] == xs[|xs| - 1 - i]
  {
    match policy
    case Seq => xs
    case Rev => Reverse(xs)
    case Rand => Shuffle(xs, pick)
  }

  /** Every policy visits each located method exactly as often as the locator listed it. */
  lemma OrderPermutes<T>(xs: seq<T>, policy: Policy, pick: nat -> nat)
    ensures |Order(xs, policy, pick)| == |xs|
    ensures forall x :: x in Order(xs, policy, pick) <==> x in xs
  {
    var r := Order(xs, policy, pick);
    assert |multiset(r)| == |multiset(xs)|;
    forall x
      ensures x in r <==> x in xs
    {
      assert x in r <==> x in multiset(r);
      assert x in xs <==> x in multiset(xs);
    }
  }
}
