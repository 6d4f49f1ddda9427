/** The few facts about `%` that ring searches need, and one about sizes. */
module Arithmetic {

  lemma {:induction false} SubsetSize<T>(small: set<T>, big: set<T>)
    requires small <= big
    ensures |small| <= |big|
  {
    if small != {} {
      var x :| x in small;
      SubsetSize(small - {x}, big - {x});
    }
  }

  lemma NoSmallMultiple(d: int, n: int)
    requires 0 < n && -n < d * n < n
    ensures d == 0
  {
  }

  lemma ModUnique(x: nat, n: nat, q: nat, r: nat)
    requires 0 < n && r < n && x == q * n + r
    ensures x % n == r
  {
    var d := q - x / n;
    assert d * n == x % n - r;
    NoSmallMultiple(d, n);
  }

  lemma ModBelowTwice(x: nat, n: nat)
    requires 0 < n && x < 2 * n
    ensures x % n == if x < n then x else x - n
  {
    ModUnique(x, n, if x < n then 0 else 1, if x < n then x else x - n);
  }

  lemma SuccessorOfMod(x: nat, n: nat)
    requires 0 < n
    ensures (x + 1) % n == if x % n + 1 == n then 0 else x % n + 1
  {
    var q, r := x / n, x % n;
    if r + 1 == n {
      assert x + 1 == (q + 1) * n + 0;
      ModUnique(x + 1, n, q + 1, 0);
    } else {
      ModUnique(x + 1, n, q, r + 1);
    }
  }

  /** Every residue is reached within one turn from any start. */
  lemma RingCovers(start: nat, count: nat, index: nat) returns (k: nat)
    requires index < count
    ensures k < count && (start + k) % count == index
  {
    var q, r := start / count, start % count;
    if r <= index {
      k := index - r;
      ModUnique(start + k, count, q, index);
    } else {
      k := index + count - r;
      assert start + k == (q + 1) * count + index;
      ModUnique(start + k, count, q + 1, index);
    }
  }
}
