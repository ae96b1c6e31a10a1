/** Small helper types shared by every module of the model. */
module Common {

  /** A value that may be absent: Go's nil pointer or nil function value. */
  datatype Option<T> = None | Some(value: T)

  /** The scene's collision groups, one bit each (scene.go:17-21). */
  const CollisionGroupPlayaWall: bv8 := 1
  const CollisionGroupDoor: bv8 := 2
  const CollisionGroupInterest: bv8 := 4

  /** Number of positions of `s` that hold `x`. */
  function Count<T(==)>(s: seq<T>, x: T): nat
  {
    if s == [] then 0 else (if s[|s| - 1] == x then 1 else 0) + Count(s[..|s| - 1], x)
  }

  lemma {:induction false} CountAppend<T>(s: seq<T>, t: seq<T>, x: T)
    ensures Count(s + t, x) == Count(s, x) + Count(t, x)
    decreases |t|
  {
    if t == [] {
      assert s + t == s;
    } else {
      assert (s + t)[..|s + t| - 1] == s + t[..|t| - 1];
      CountAppend(s, t[..|t| - 1], x);
    }
  }

  /** The index of the first element satisfying `p`, or -1 when none does. */
  function FirstWhere<T>(s: seq<T>, p: T -> bool): (r: int)
    ensures -1 <= r < |s|
    ensures r >= 0 ==> p(s[r]) && forall j :: 0 <= j < r ==> !p(s[j])
    ensures r < 0 ==> forall j :: 0 <= j < |s| ==> !p(s[j])
    decreases |s|
  {
    if s == [] then -1
    else if p(s[0]) then 0
    else
      var r := FirstWhere(s[1..], p);
      assert forall j :: 1 <= j < |s| ==> s[j] == s[1..][j - 1];
      if r < 0 then -1 else r + 1
  }

  /** `s` with index `i` spliced out (Go's `append(s[:i], s[i+1:]...)`). */
  function RemoveAt<T>(s: seq<T>, i: int): (r: seq<T>)
    requires 0 <= i < |s|
    ensures |r| == |s| - 1
    ensures forall j :: 0 <= j < i ==> r[j] == s[j]
    ensures forall j :: i <= j < |r| ==> r[j] == s[j + 1]
    ensures multiset(r) + multiset{s[i]} == multiset(s)
  {
    assert s == s[..i] + [s[i]] + s[i + 1..];
    s[..i] + s[i + 1..]
  }

  /** Remove the first element satisfying `p`; without one, nothing changes. */
  function RemoveFirstWhere<T>(s: seq<T>, p: T -> bool): seq<T>
  {
    var d := FirstWhere(s, p);
    if d >= 0 then RemoveAt(s, d) else s
  }

  /** The search loop with `break` that each Remove runs. */
  method FindFirst<T>(s: seq<T>, p: T -> bool) returns (d: int)
    ensures d == FirstWhere(s, p)
  {
    d := -1;
    var i := 0;
    while i < |s|
      invariant 0 <= i <= |s|
      invariant forall j :: 0 <= j < i ==> !p(s[j])
    {
      if p(s[i]) {
        d := i;
        break;
      }
      i := i + 1;
    }
    FirstWhereIsFirst(s, p, d);
  }

  /** `FirstWhere` is the only index that satisfies its contract. */
  lemma FirstWhereIsFirst<T>(s: seq<T>, p: T -> bool, d: int)
    requires -1 <= d < |s|
    requires d >= 0 ==> p(s[d]) && forall j :: 0 <= j < d ==> !p(s[j])
    requires d < 0 ==> forall j :: 0 <= j < |s| ==> !p(s[j])
    ensures d == FirstWhere(s, p)
  {
  }

  /** Removing the first match keeps every other element, in order: the
      result with the removed element put back at its index is the original. */
  lemma RemoveFirstWhereKeepsOrder<T>(s: seq<T>, p: T -> bool)
    ensures var d := FirstWhere(s, p);
            var r := RemoveFirstWhere(s, p);
            if d < 0 then r == s
            else |r| == |s| - 1 && r[..d] + [s[d]] + r[d..] == s
  {
    var d := FirstWhere(s, p);
    if d >= 0 {
      var r := RemoveAt(s, d);
      assert r[..d] == s[..d];
      assert r[d..] == s[d + 1..];
      assert s == s[..d] + [s[d]] + s[d + 1..];
    }
  }

  /** Go's conversion of a float to `int`, which truncates toward zero. */
  function Trunc(x: real): (r: int)
    ensures x >= 0.0 ==> r as real <= x < r as real + 1.0
    ensures x < 0.0 ==> r as real - 1.0 < x <= r as real
  {
    if x >= 0.0 then x.Floor else -((-x).Floor)
  }

  function DigitChar(d: int): char
    requires 0 <= d < 10
  {
    "0123456789"[d]
  }

  /** Decimal digits of a natural number, most significant first. */
  function Digits(n: nat): (r: string)
    ensures |r| >= 1
    decreases n
  {
    if n < 10 then [DigitChar(n)] else Digits(n / 10) + [DigitChar(n % 10)]
  }

  /** Go's `strconv.Itoa`. */
  function Itoa(n: int): string
  {
    if n < 0 then "-" + Digits(-n) else Digits(n)
  }

  lemma {:induction false} CountAbsent<T>(s: seq<T>, x: T)
    requires x !in s
    ensures Count(s, x) == 0
    decreases |s|
  {
    if s != [] {
      assert s[..|s| - 1] + [s[|s| - 1]] == s;
      CountAbsent(s[..|s| - 1], x);
    }
  }

  lemma {:induction false} CountPositive<T>(s: seq<T>, x: T)
    requires x in s
    ensures Count(s, x) > 0
    decreases |s|
  {
    if s[|s| - 1] != x {
      assert s[..|s| - 1] + [s[|s| - 1]] == s;
      CountPositive(s[..|s| - 1], x);
    }
  }
}
