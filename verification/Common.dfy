/** Shared vocabulary: optional values, 64-bit words and finite sums. */
module Common {

  datatype Option<+T> = None | Some(value: T) {
    predicate IsFailure() {
      None?
    }

    function PropagateFailure<U>(): Option<U>
      requires None?
    {
      None
    }

    function Extract(): T
      requires Some?
    {
      value
    }
  }

  const TWO64: int := 0x1_0000_0000_0000_0000

  /** `uint64_t`. */
  type u64 = x: int | 0 <= x < 0x1_0000_0000_0000_0000

  /** Unsigned 64-bit addition and subtraction wrap around. */
  function Wrap(x: int): u64 {
    x % TWO64
  }

  /** Two wrapped additions are one. */
  lemma WrapTwice(a: int, b: int)
    ensures Wrap(Wrap(a) + b) == Wrap(a + b)
  {
  }

  // ----- Searching

  /** Where a table search stops: at the first element that matches, or past the last one. */
  function FirstMatch<T>(xs: seq<T>, matches: T -> bool): (i: nat)
    ensures i <= |xs|
    ensures i < |xs| ==> matches(xs[i])
    ensures forall j :: 0 <= j < i ==> !matches(xs[j])
  {
    if xs == [] || matches(xs[0]) then 0 else 1 + FirstMatch(xs[1..], matches)
  }

  lemma FirstMatchAfter<T>(xs: seq<T>, ys: seq<T>, matches: T -> bool)
    ensures FirstMatch(xs + ys, matches)
         == if FirstMatch(xs, matches) < |xs| then FirstMatch(xs, matches) else |xs| + FirstMatch(ys, matches)
  {
    var i, k := FirstMatch(xs, matches), FirstMatch(ys, matches);
    assert i < |xs| ==> (xs + ys)[i] == xs[i];
    assert k < |ys| ==> (xs + ys)[|xs| + k] == ys[k];
  }

  /** Replacing an element by one that matches as it did. */
  lemma FirstMatchUpdate<T>(xs: seq<T>, i: nat, x: T, matches: T -> bool)
    requires i < |xs| && matches(x) == matches(xs[i])
    ensures FirstMatch(xs[i := x], matches) == FirstMatch(xs, matches)
  {
    var k := FirstMatch(xs, matches);
    assert k < |xs| ==> matches(xs[i := x][k]);
  }

  // ----- Sums

  function Sum(xs: seq<int>): int {
    if xs == [] then 0 else xs[0] + Sum(xs[1..])
  }

  lemma {:induction false} SumUpdate(xs: seq<int>, i: nat, x: int)
    requires i < |xs|
    ensures Sum(xs[i := x]) == Sum(xs) - xs[i] + x
  {
    if i == 0 {
      assert xs[0 := x][1..] == xs[1..];
    } else {
      assert xs[i := x][1..] == xs[1..][i - 1 := x];
      SumUpdate(xs[1..], i - 1, x);
    }
  }

  lemma {:induction false} SumConcat(xs: seq<int>, ys: seq<int>)
    ensures Sum(xs + ys) == Sum(xs) + Sum(ys)
  {
    if xs == [] {
      assert xs + ys == ys;
    } else {
      assert (xs + ys)[1..] == xs[1..] + ys;
      SumConcat(xs[1..], ys);
    }
  }

  lemma SumSnoc(xs: seq<int>, y: int)
    ensures Sum(xs + [y]) == Sum(xs) + y
  {
    SumConcat(xs, [y]);
    assert Sum([y]) == y + Sum([y][1..]);
  }

  lemma {:induction false} SumElement(xs: seq<int>, i: nat)
    requires i < |xs|
    requires forall j :: 0 <= j < |xs| ==> xs[j] >= 0
    ensures 0 <= xs[i] <= Sum(xs)
  {
    assert forall j :: 0 <= j < |xs[1..]| ==> xs[1..][j] == xs[j + 1];
    if i > 0 {
      SumElement(xs[1..], i - 1);
    } else {
      SumNonNegative(xs[1..]);
    }
  }

  lemma {:induction false} SumNonNegative(xs: seq<int>)
    requires forall j :: 0 <= j < |xs| ==> xs[j] >= 0
    ensures Sum(xs) >= 0
  {
    if xs != [] {
      SumNonNegative(xs[1..]);
    }
  }
}
