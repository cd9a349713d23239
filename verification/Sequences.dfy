/** Facts about finite sequences that several of the models share. */
module Sequences {

  /** `s` is strictly increasing in the order `lt`. */
  ghost predicate SortedBy<T>(lt: (T, T) -> bool, s: seq<T>) {
    forall i, j | 0 <= i < j < |s| :: lt(s[i], s[j])
  }

  ghost predicate Asymmetric<T(!new)>(lt: (T, T) -> bool) {
    forall a, b | lt(a, b) :: !lt(b, a)
  }

  lemma SortedCons<T(!new)>(lt: (T, T) -> bool, m: T, d: seq<T>)
    requires SortedBy(lt, d)
    requires forall x | x in d :: lt(m, x)
    ensures SortedBy(lt, [m] + d)
  {
  }

  /** Two strictly increasing sequences over the same elements start alike. */
  lemma SameHead<T(!new)>(lt: (T, T) -> bool, a: seq<T>, b: seq<T>)
    requires Asymmetric(lt)
    requires SortedBy(lt, a) && SortedBy(lt, b)
    requires a != [] && b != []
    requires forall x :: x in a <==> x in b
    ensures a[0] == b[0]
  {
    assert a[0] in b && b[0] in a;
    var j :| 0 <= j < |b| && b[j] == a[0];
    var k :| 0 <= k < |a| && a[k] == b[0];
    assert j > 0 ==> lt(b[0], a[0]);
    assert k > 0 ==> lt(a[0], b[0]);
  }

  /** The head of a strictly increasing sequence does not occur again. */
  lemma TailMembers<T(!new)>(lt: (T, T) -> bool, s: seq<T>, x: T)
    requires Asymmetric(lt) && SortedBy(lt, s) && s != []
    ensures x in s[1..] <==> x in s && x != s[0]
  {
    if x in s[1..] {
      var k :| 0 <= k < |s[1..]| && s[1..][k] == x;
      assert lt(s[0], s[k + 1]);
    }
    if x in s && x != s[0] {
      var k :| 0 <= k < |s| && s[k] == x;
      assert s[1..][k - 1] == x;
    }
  }

  /** A strictly increasing arrangement of a given collection is unique. */
  lemma {:induction false} SortedUnique<T(!new)>(lt: (T, T) -> bool, a: seq<T>, b: seq<T>)
    requires Asymmetric(lt)
    requires SortedBy(lt, a) && SortedBy(lt, b)
    requires forall x :: x in a <==> x in b
    ensures a == b
  {
    assert a == [] <==> b == [] by {
      assert a != [] ==> a[0] in b;
      assert b != [] ==> b[0] in a;
    }
    if a != [] {
      SameHead(lt, a, b);
      forall x
        ensures x in a[1..] <==> x in b[1..]
      {
        TailMembers(lt, a, x);
        TailMembers(lt, b, x);
      }
      SortedUnique(lt, a[1..], b[1..]);
      assert a == [a[0]] + a[1..] && b == [b[0]] + b[1..];
    }
  }

  /** The numbers 0, 1, ..., n - 1. */
  function UpTo(n: nat): (s: seq<nat>)
    ensures |s| == n
    ensures forall i | 0 <= i < n :: s[i] == i
  {
    if n == 0 then [] else UpTo(n - 1) + [n - 1]
  }

  /** `a` rows of `b`. */
  function Times(a: nat, b: nat): nat {
    if a == 0 then 0 else Times(a - 1, b) + b
  }

  lemma {:induction false} TimesIsProduct(a: nat, b: nat)
    ensures Times(a, b) == a * b
  {
    if a > 0 {
      TimesIsProduct(a - 1, b);
    }
  }

  lemma {:induction false} TimesGrows(a: nat, b: nat, len: nat)
    requires a <= b
    ensures Times(a, len) <= Times(b, len)
    ensures len > 0 && a < b ==> Times(a, len) < Times(b, len)
  {
    if a < b {
      TimesGrows(a, b - 1, len);
    }
  }

  lemma MulMonotone(a: int, b: int, w: nat)
    ensures a <= b ==> a * w <= b * w
  {
    if a <= b {
      assert (b - a) * w >= 0;
    }
  }

  /** Division and remainder recover the two coordinates of a row-major index. */
  lemma RowMajor(row: nat, col: nat, width: nat)
    requires col < width
    ensures (row * width + col) / width == row
    ensures (row * width + col) % width == col
  {
    var x := row * width + col;
    var q := x / width;
    assert x == q * width + x % width;
    MulMonotone(q + 1, row, width);
    MulMonotone(row + 1, q, width);
  }

  /** The index just past `row` full rows and `col` more. */
  lemma RowIndex(row: nat, col: nat, width: nat)
    requires col < width
    ensures (Times(row, width) + col) / width == row && (Times(row, width) + col) % width == col
  {
    TimesIsProduct(row, width);
    RowMajor(row, col, width);
  }
}
