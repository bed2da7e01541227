/** Vocabulary shared by the other modules. */
module Basics {
  datatype Option<+T> = None | Some(value: T)

  type byte = b: int | 0 <= b < 256

  type Bytes = seq<byte>

  /** Big-endian uint16(n), wrapping as the conversion does. */
  function PutU16(n: int): Bytes {
    [n / 256 % 256, n % 256]
  }

  function GetU16(b: Bytes): nat
    requires |b| == 2
  {
    b[0] as int * 256 + b[1] as int
  }

  lemma U16RoundTrip(n: nat)
    requires n < 65536
    ensures GetU16(PutU16(n)) == n
  {}

  lemma U16Wraps(n: int)
    ensures GetU16(PutU16(n)) == n % 65536
  {
    var q, r := n / 65536, n % 65536;
    assert n / 256 == 256 * q + r / 256;
  }

  lemma U16Bytes(b: Bytes)
    requires |b| == 2
    ensures PutU16(GetU16(b)) == b
  {}

  lemma Regroup(a: Bytes, b: Bytes, c: Bytes)
    ensures (a + b) + c == a + (b + c)
  {}

  /** How many elements of `s` satisfy `p`. */
  function Count<T>(s: seq<T>, p: T -> bool): nat {
    if s == [] then 0 else (if p(s[0]) then 1 else 0) + Count(s[1..], p)
  }

  lemma {:induction false} CountUpdate<T>(s: seq<T>, i: nat, x: T, p: T -> bool)
    requires i < |s|
    ensures Count(s[i := x], p) + (if p(s[i]) then 1 else 0) == Count(s, p) + (if p(x) then 1 else 0)
  {
    if i == 0 {
      assert s[0 := x][1..] == s[1..];
    } else {
      CountUpdate(s[1..], i - 1, x, p);
      assert s[i := x][1..] == s[1..][i - 1 := x];
    }
  }

  lemma {:induction false} CountAppend<T>(s: seq<T>, x: T, p: T -> bool)
    ensures Count(s + [x], p) == Count(s, p) + (if p(x) then 1 else 0)
  {
    if s == [] {
      assert s + [x] == [x];
    } else {
      CountAppend(s[1..], x, p);
      assert (s + [x])[1..] == s[1..] + [x];
    }
  }

  lemma Cancel(a: int, b: int, c: int)
    requires c > 0 && a * c < b * c
    ensures a < b
  {}

  // ------------------------------------------------------------------------
  // Counters that wrap
  // ------------------------------------------------------------------------

  const U64: nat := 0x1_0000_0000_0000_0000

  /** The uint64 that an integer becomes. */
  function Wrap(n: int): nat {
    n % 0x1_0000_0000_0000_0000
  }

  predicate Apart(a: int, b: int, k: int) {
    a == b + k * 0x1_0000_0000_0000_0000
  }

  /** Equal as uint64 values. */
  ghost predicate Same(a: int, b: int) {
    exists k :: Apart(a, b, k)
  }

  lemma SameWrapped(a: int)
    ensures Same(Wrap(a), a)
  {
    assert Apart(Wrap(a), a, -(a / 0x1_0000_0000_0000_0000));
  }

  lemma SameRefl(a: int)
    ensures Same(a, a)
  {
    assert Apart(a, a, 0);
  }

  lemma SameSym(a: int, b: int)
    requires Same(a, b)
    ensures Same(b, a)
  {
    var k :| Apart(a, b, k);
    assert Apart(b, a, -k);
  }

  lemma SameTrans(a: int, b: int, c: int)
    requires Same(a, b) && Same(b, c)
    ensures Same(a, c)
  {
    var j :| Apart(a, b, j);
    var k :| Apart(b, c, k);
    assert Apart(a, c, j + k);
  }

  lemma SameAdd(a: int, b: int, c: int, d: int)
    requires Same(a, b) && Same(c, d)
    ensures Same(a + c, b + d)
  {
    var j :| Apart(a, b, j);
    var k :| Apart(c, d, k);
    assert Apart(a + c, b + d, j + k);
  }

  /** What is left out of a sum does not matter exactly when it is a multiple of 2^64. */
  lemma SameWithout(sum: int, kept: int, lost: int)
    requires Same(kept + lost, sum)
    ensures Same(kept, sum) <==> Same(lost, 0)
  {
    var j :| Apart(kept + lost, sum, j);
    if k :| Apart(kept, sum, k) {
      assert Apart(lost, 0, j - k);
    }
    if k :| Apart(lost, 0, k) {
      assert Apart(kept, sum, j - k);
    }
  }

  lemma SameIffEqual(a: int, b: int)
    ensures Same(a, b) <==> Wrap(a) == Wrap(b)
  {
    if k :| Apart(a, b, k) {
      assert Wrap(a) == Wrap(b);
    }
    if Wrap(a) == Wrap(b) {
      assert Apart(a, b, a / 0x1_0000_0000_0000_0000 - b / 0x1_0000_0000_0000_0000);
    }
  }

  lemma SameSmall(a: nat, b: nat)
    requires Same(a, b) && a < U64 && b < U64
    ensures a == b
  {
    var k :| Apart(a, b, k);
    assert k == 0;
  }
}
