/** Small vocabulary shared by the models: optional values, the 32-bit conversions the C++ code
    performs implicitly, and C's division, which truncates towards zero. */
module Common {
  datatype Option<+T> = None | Some(value: T)

  const INT32_MAX: int := 0x7FFF_FFFF
  const UINT16_SIZE: int := 0x1_0000
  const UINT32_SIZE: int := 0x1_0000_0000
  const UINT64_SIZE: int := 0x1_0000_0000_0000_0000

  /** The value a C++ integer takes when it is converted to a 32-bit `int`. */
  function ToInt32(x: int): (r: int)
    ensures -0x8000_0000 <= r <= INT32_MAX
    ensures -0x8000_0000 <= x <= INT32_MAX ==> r == x
  {
    var m := x % UINT32_SIZE;
    if m <= INT32_MAX then m else m - UINT32_SIZE
  }

  /** C's `/` for a positive divisor. */
  function CDiv(a: int, b: int): int
    requires b > 0
  {
    if a >= 0 then a / b else -((-a) / b)
  }

  /** C's `%` for a positive divisor. */
  function CMod(a: int, b: int): int
    requires b > 0
  {
    a - b * CDiv(a, b)
  }

  // ---- multiples ----

  lemma MulStep(a: int, i: int)
    ensures a * (i + 1) == a * i + a && a * (i - 1) == a * i - a
  {}

  lemma MulSign(a: int, k: int)
    requires a > 0
    ensures k >= 0 ==> a * k >= 0
    ensures k < 0 ==> a * k < 0
  {}

  lemma MulOrder(a: int, i: int, j: int)
    requires a > 0
    ensures i <= j <==> a * i <= a * j
  {
    MulSign(a, j - i);
    assert a * (j - i) == a * j - a * i;
  }

  lemma ModWrap(x: nat, n: nat)
    requires 0 < n && x < 2 * n
    ensures x % n == if x < n then x else x - n
  {
    if x >= n { assert x == n * 1 + (x - n); }
  }

  // ---- increasing sequences ----

  predicate Increasing(s: seq<int>) {
    forall i, j :: 0 <= i < j < |s| ==> s[i] < s[j]
  }

  lemma IncreasingSnoc(s: seq<int>, x: int)
    requires Increasing(s) && forall f :: f in s ==> f < x
    ensures Increasing(s + [x])
  {
    forall i, j | 0 <= i < j < |s| + 1 ensures (s + [x])[i] < (s + [x])[j] {
      assert s[i] in s;
    }
  }

  /** There is only one way to list a set in increasing order. */
  lemma {:induction false} IncreasingUnique(a: seq<int>, b: seq<int>)
    requires Increasing(a) && Increasing(b) && forall k :: k in a <==> k in b
    ensures a == b
  {
    forall i | 0 <= i < |b| ensures b[i] in a { assert b[i] in b; }
    assert b != [] ==> b[0] in a;
    forall i | 0 <= i < |a| ensures a[i] in b { assert a[i] in a; }
    if a != [] {
      assert a == [a[0]] + a[1..] && b == [b[0]] + b[1..];
      forall k ensures k in a[1..] <==> k in b[1..] {
        assert k in a[1..] <==> k in a && k != a[0];
        assert k in b[1..] <==> k in b && k != b[0];
      }
      IncreasingUnique(a[1..], b[1..]);
      assert a[0] == b[0];
    }
  }

  // ---- subsequences ----

  /** `a` is obtained from `b` by leaving elements out. */
  ghost predicate Subsequence<T>(a: seq<T>, b: seq<T>)
    ensures Subsequence(a, b) ==> |a| <= |b|
  {
    a == [] || (b != [] && ((a[0] == b[0] && Subsequence(a[1..], b[1..])) || Subsequence(a, b[1..])))
  }

  lemma {:induction false} SubsequenceRefl<T>(a: seq<T>)
    ensures Subsequence(a, a)
  {
    if a != [] { SubsequenceRefl(a[1..]); }
  }

  lemma {:induction false} SubsequenceTrans<T>(a: seq<T>, b: seq<T>, c: seq<T>)
    requires Subsequence(a, b) && Subsequence(b, c)
    ensures Subsequence(a, c)
    decreases |a| + |b| + |c|
  {
    if a != [] {
      if b[0] == c[0] && Subsequence(b[1..], c[1..]) {
        if a[0] == b[0] && Subsequence(a[1..], b[1..]) {
          SubsequenceTrans(a[1..], b[1..], c[1..]);
        } else {
          SubsequenceTrans(a, b[1..], c[1..]);
        }
      } else {
        SubsequenceTrans(a, b, c[1..]);
      }
    }
  }

  lemma {:induction false} SubsequenceDrop<T>(a: seq<T>, x: seq<T>, b: seq<T>)
    ensures Subsequence(a + b, a + x + b)
  {
    if a != [] {
      assert (a + b)[1..] == a[1..] + b && (a + x + b)[1..] == a[1..] + x + b;
      SubsequenceDrop(a[1..], x, b);
    } else if x != [] {
      assert ([] + x + b)[1..] == [] + x[1..] + b;
      assert a + b == [] + b && a + x + b == [] + x + b;
      SubsequenceDrop([], x[1..], b);
      assert Subsequence([] + b, [] + x[1..] + b);
    } else {
      assert a + b == b && a + x + b == b;
      SubsequenceRefl(b);
    }
  }

  lemma {:induction false} SubsequenceSnoc<T>(a: seq<T>, b: seq<T>, x: T)
    requires Subsequence(a, b)
    ensures Subsequence(a, b + [x]) && Subsequence(a + [x], b + [x])
    decreases |b|
  {
    if b != [] {
      assert (b + [x])[1..] == b[1..] + [x];
      if a != [] {
        assert (a + [x])[1..] == a[1..] + [x];
        if a[0] == b[0] && Subsequence(a[1..], b[1..]) {
          SubsequenceSnoc(a[1..], b[1..], x);
        } else {
          SubsequenceSnoc(a, b[1..], x);
        }
      } else {
        SubsequenceSnoc([], b[1..], x);
      }
    } else {
      assert [x][1..] == [];
    }
  }
}
