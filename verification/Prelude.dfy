// Shared value types: optional values, results of calls that can fail, byte
// strings with Go's bytes.Compare order, and two's-complement int64 arithmetic.
module Prelude {

  datatype Option<+T> = None | Some(value: T)

  // A Go (value, error) pair. The failure-compatible members let callers write
  // `:-` where the source writes `if err != nil { return }`.
  datatype Result<+T, +E> = Ok(value: T) | Err(error: E) {
    predicate IsFailure() {
      Err?
    }

    function PropagateFailure<U>(): Result<U, E>
      requires Err?
    {
      Err(error)
    }

    function Extract(): T
      requires Ok?
    {
      value
    }
  }

  type Byte = x: int | 0 <= x < 256
  type Bytes = seq<Byte>

  // bytes.Compare(a, b) < 0
  predicate Less(a: Bytes, b: Bytes) {
    if b == [] then false
    else if a == [] then true
    else a[0] < b[0] || (a[0] == b[0] && Less(a[1..], b[1..]))
  }

  lemma {:induction false} LessIsTotal(a: Bytes, b: Bytes)
    ensures a == b || Less(a, b) || Less(b, a)
  {
    if a != [] && b != [] && a[0] == b[0] {
      LessIsTotal(a[1..], b[1..]);
      assert a == [a[0]] + a[1..] && b == [b[0]] + b[1..];
    }
  }

  lemma {:induction false} LessIsAsymmetric(a: Bytes, b: Bytes)
    ensures Less(a, b) ==> !Less(b, a) && a != b
  {
    if a != [] && b != [] && a[0] == b[0] {
      LessIsAsymmetric(a[1..], b[1..]);
    }
  }

  // The first place where the two differ decides; a proper prefix comes first.
  ghost predicate ComesFirst(a: Bytes, b: Bytes) {
    exists k :: 0 <= k <= |a| && k < |b| && a[..k] == b[..k] && (k == |a| || a[k] < b[k])
  }

  lemma {:induction false} LessIsLexicographic(a: Bytes, b: Bytes)
    ensures Less(a, b) <==> ComesFirst(a, b)
  {
    if a == [] || b == [] {
      assert b != [] ==> a[..0] == b[..0];
    } else if a[0] != b[0] {
      assert a[..0] == b[..0];
      assert forall k :: 1 <= k <= |a| && k < |b| ==> a[..k][0] == a[0] && b[..k][0] == b[0];
    } else {
      LessIsLexicographic(a[1..], b[1..]);
      if ComesFirst(a, b) {
        var k :| 0 <= k <= |a| && k < |b| && a[..k] == b[..k] && (k == |a| || a[k] < b[k]);
        assert a[1..][..k - 1] == a[..k][1..] && b[1..][..k - 1] == b[..k][1..];
      }
      if ComesFirst(a[1..], b[1..]) {
        var k :| 0 <= k <= |a[1..]| && k < |b[1..]| && a[1..][..k] == b[1..][..k] && (k == |a[1..]| || a[1..][k] < b[1..][k]);
        assert a[..k + 1] == [a[0]] + a[1..][..k] && b[..k + 1] == [b[0]] + b[1..][..k];
      }
    }
  }

  function Reversed(b: Bytes): (r: Bytes)
    ensures |r| == |b|
  {
    seq(|b|, i requires 0 <= i < |b| => b[|b| - 1 - i])
  }

  lemma ReversedIsInjective(a: Bytes, b: Bytes)
    requires Reversed(a) == Reversed(b)
    ensures a == b
  {
    assert |a| == |Reversed(a)| == |b|;
    forall i | 0 <= i < |a|
      ensures a[i] == b[i]
    {
      assert Reversed(a)[|a| - 1 - i] == Reversed(b)[|a| - 1 - i];
    }
  }

  const TWO_63: int := 0x8000_0000_0000_0000
  const TWO_64: int := 0x1_0000_0000_0000_0000

  predicate IsInt64(x: int) {
    -TWO_63 <= x < TWO_63
  }

  type Int64 = x: int | IsInt64(x)

  // The int64 that Go's wrapping arithmetic leaves in place of x.
  function Wrap64(x: int): (r: int)
    ensures IsInt64(r)
    ensures r == x <==> IsInt64(x)
  {
    (x + TWO_63) % TWO_64 - TWO_63
  }

  lemma WrapsAtTwoToThe64(x: int)
    ensures (x - Wrap64(x)) % 0x1_0000_0000_0000_0000 == 0
  {
  }

  // Go's integer division by two, which truncates toward zero.
  function HalfTruncated(x: int): int {
    if x >= 0 then x / 2 else -(-x / 2)
  }

  // ---- Sequences with the same elements ---------------------------------------------------

  lemma SameLength<T>(a: seq<T>, b: seq<T>)
    requires multiset(a) == multiset(b)
    ensures |a| == |b|
  {
    assert |multiset(a)| == |a| && |multiset(b)| == |b|;
  }

  // Where b has the first element of a, and what is left of both without it.
  lemma FindFirst<T>(a: seq<T>, b: seq<T>) returns (i: nat)
    requires a != [] && multiset(a) == multiset(b)
    ensures i < |b| && b[i] == a[0] && b == b[..i] + [b[i]] + b[i + 1..]
    ensures multiset(a[1..]) == multiset(b[..i] + b[i + 1..])
  {
    assert a[0] in multiset(b);
    i :| 0 <= i < |b| && b[i] == a[0];
    WithoutOne(a, 0);
    WithoutOne(b, i);
    assert a[..0] + a[1..] == a[1..];
  }

  lemma WithoutOne<T>(s: seq<T>, i: nat)
    requires i < |s|
    ensures s == s[..i] + [s[i]] + s[i + 1..]
    ensures multiset(s[..i] + s[i + 1..]) == multiset(s) - multiset{s[i]}
  {
    var before, after := s[..i], s[i + 1..];
    assert s == before + [s[i]] + after;
    assert multiset(before + [s[i]] + after) == multiset(before) + multiset{s[i]} + multiset(after);
  }

  // ---- Sums over sets --------------------------------------------------------------------

  ghost function SumSet<T(!new)>(s: set<T>, f: T -> int): int {
    if s == {} then 0
    else
      var x :| x in s;
      f(x) + SumSet(s - {x}, f)
  }

  // The sum does not depend on the element taken out first.
  lemma {:induction false} SumSetRemove<T(!new)>(s: set<T>, x: T, f: T -> int)
    requires x in s
    ensures SumSet(s, f) == f(x) + SumSet(s - {x}, f)
    decreases |s|
  {
    var y :| y in s && SumSet(s, f) == f(y) + SumSet(s - {y}, f);
    if y != x {
      SumSetRemove(s - {y}, x, f);
      SumSetRemove(s - {x}, y, f);
      assert s - {y} - {x} == s - {x} - {y};
    }
  }

  lemma {:induction false} SumSetSame<T(!new)>(s: set<T>, f: T -> int, g: T -> int)
    requires forall x :: x in s ==> f(x) == g(x)
    ensures SumSet(s, f) == SumSet(s, g)
    decreases |s|
  {
    if s != {} {
      var x :| x in s;
      SumSetRemove(s, x, f);
      SumSetRemove(s, x, g);
      SumSetSame(s - {x}, f, g);
    }
  }

  lemma {:induction false} SumSetMonotone<T(!new)>(s: set<T>, t: set<T>, f: T -> int)
    requires s <= t && forall x :: x in t ==> f(x) >= 0
    ensures 0 <= SumSet(s, f) <= SumSet(t, f)
    decreases |t|
  {
    if t != {} {
      var x :| x in t;
      SumSetRemove(t, x, f);
      SumSetMonotone(s - {x}, t - {x}, f);
      if x in s {
        SumSetRemove(s, x, f);
      } else {
        assert s - {x} == s;
      }
    }
  }

  // A sum whose terms outside t are 0.
  lemma {:induction false} SumSetSupport<T(!new)>(s: set<T>, t: set<T>, f: T -> int, g: T -> int, k: int)
    requires t <= s && forall x :: x in s ==> f(x) == if x in t then k * g(x) else 0
    ensures SumSet(s, f) == k * SumSet(t, g)
    decreases |s|
  {
    if s != {} {
      var x :| x in s;
      SumSetRemove(s, x, f);
      SumSetSupport(s - {x}, t - {x}, f, g, k);
      if x in t {
        SumSetRemove(t, x, g);
        Distributes(k, g(x), SumSet(t - {x}, g));
      } else {
        assert t - {x} == t;
      }
    }
  }

  lemma Distributes(k: int, a: int, b: int)
    ensures k * (a + b) == k * a + k * b
  {
  }

  lemma {:induction false} SumOfOnes<T(!new)>(s: set<T>)
    ensures SumSet(s, _ => 1) == |s|
    decreases |s|
  {
    if s != {} {
      var x :| x in s;
      SumSetRemove(s, x, _ => 1);
      SumOfOnes(s - {x});
    }
  }

  lemma {:induction false} SumSetAdd<T(!new)>(s: set<T>, f: T -> int, g: T -> int, h: T -> int)
    requires forall x :: x in s ==> h(x) == f(x) + g(x)
    ensures SumSet(s, h) == SumSet(s, f) + SumSet(s, g)
    decreases |s|
  {
    if s != {} {
      var x :| x in s;
      SumSetRemove(s, x, f);
      SumSetRemove(s, x, g);
      SumSetRemove(s, x, h);
      SumSetAdd(s - {x}, f, g, h);
    }
  }

  lemma {:induction false} SumSetBelow<T(!new)>(s: set<T>, f: T -> int, g: T -> int)
    requires forall x :: x in s ==> f(x) <= g(x)
    ensures SumSet(s, f) <= SumSet(s, g)
    decreases |s|
  {
    if s != {} {
      var x :| x in s;
      SumSetRemove(s, x, f);
      SumSetRemove(s, x, g);
      SumSetBelow(s - {x}, f, g);
    }
  }
}
