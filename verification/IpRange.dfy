/** Expansion of IPv4 specifications into addresses, with 32-bit arithmetic; addresses are their numbers. */
module IpRange {
  import opened Basics

  const U32: nat := 0x1_0000_0000

  type Ip = v: nat | v < U32

  /** uint32 addition. */
  function Add32(a: nat, b: nat): Ip {
    (a + b) % U32
  }

  function Pow2(n: nat): (p: nat)
    ensures p > 0
  {
    if n == 0 then 1 else 2 * Pow2(n - 1)
  }

  lemma Double(x: int, y: int)
    ensures 2 * (x * y) == (2 * x) * y
  {}

  lemma {:induction false} Pow2Add(a: nat, b: nat)
    ensures Pow2(a + b) == Pow2(a) * Pow2(b)
  {
    if a > 0 {
      Pow2Add(a - 1, b);
      assert Pow2(a + b) == 2 * Pow2(a - 1 + b);
      Double(Pow2(a - 1), Pow2(b));
    }
  }

  lemma Pow2At32()
    ensures Pow2(32) == U32
  {
    assert Pow2(8) == 256;
    Pow2Add(8, 8);
    Pow2Add(16, 16);
  }

  // ------------------------------------------------------------------------
  // Addresses and bytes
  // ------------------------------------------------------------------------

  function ToBytes(v: Ip): Bytes {
    [v / 256 / 256 / 256, v / 256 / 256 % 256, v / 256 % 256, v % 256]
  }

  function FromBytes(b: Bytes): int
    requires |b| == 4
  {
    ((b[0] as int * 256 + b[1] as int) * 256 + b[2] as int) * 256 + b[3] as int
  }

  lemma BytesRoundTrip(v: Ip)
    ensures FromBytes(ToBytes(v)) == v
    ensures
      var b := ToBytes(v);
      |b| == 4 && b[0] as int * 0x100_0000 + b[1] as int * 0x1_0000 + b[2] as int * 0x100 + b[3] as int == v
  {}

  // ------------------------------------------------------------------------
  // Blocks and ranges
  // ------------------------------------------------------------------------

  function Upward(lo: nat, n: nat): (s: seq<nat>)
    ensures |s| == n && forall i :: 0 <= i < n ==> s[i] == lo + i
  {
    seq(n, i => lo + i)
  }

  /** The first address of the block of `size` addresses that `addr` lies in. */
  function BlockStart(addr: Ip, size: nat): nat
    requires size > 0
  {
    addr - addr % size
  }

  lemma BlockWithin(addr: nat, size: nat, blocks: nat)
    requires size > 0 && addr < size * blocks
    ensures addr - addr % size + size <= size * blocks
  {
    var q := addr / size;
    assert addr == size * q + addr % size;
    assert q * size < blocks * size;
    Cancel(q, blocks, size);
    assert size * (q + 1) <= size * blocks;
  }

  /** A block of 2^(32-prefix) addresses lies within the 32 bits. */
  lemma BlockFits(addr: Ip, prefix: nat)
    requires prefix <= 32
    ensures BlockStart(addr, Pow2(32 - prefix)) + Pow2(32 - prefix) <= U32
  {
    Pow2At32();
    Pow2Add(32 - prefix, prefix);
    BlockWithin(addr, Pow2(32 - prefix), Pow2(prefix));
  }

  lemma MulLe(c: nat, a: int, b: int)
    requires a <= b
    ensures c * a <= c * b
  {}

  lemma InBlock(addr: Ip, size: nat, v: nat)
    requires size > 0
    ensures BlockStart(addr, size) <= v < BlockStart(addr, size) + size <==> v / size == addr / size
  {
    var q, p := addr / size, v / size;
    assert addr == size * q + addr % size && v == size * p + v % size;
    if p < q {
      MulLe(size, p + 1, q);
      assert size * (p + 1) == size * p + size;
    } else if p > q {
      MulLe(size, q + 1, p);
      assert size * (q + 1) == size * q + size;
    }
  }

  /** The counting loop: a 64-bit counter narrowed to 32 bits and added to the start. */
  method Fill(start: nat, count: nat) returns (out: seq<Ip>)
    requires start + count <= U32
    ensures out == Upward(start, count)
  {
    out := [];
    var i := 0;
    while i < count
      invariant 0 <= i <= count && out == Upward(start, i)
    {
      out := out + [Add32(start, i % U32)];
      i := i + 1;
    }
  }

  /** uint64(1) << uint(32 - bits): a negative count becomes one beyond the width, and the shift gives zero. */
  function Shifted(bits: nat): nat {
    if bits <= 32 then Pow2(32 - bits) else 0
  }

  method ExpandCidr(addr: Ip, bits: nat) returns (out: seq<Ip>)
    ensures out == if bits <= 32 then Upward(BlockStart(addr, Pow2(32 - bits)), Pow2(32 - bits)) else []
  {
    var count := Shifted(bits);
    if bits <= 32 {
      BlockFits(addr, bits);
    }
    out := [];
    if count > 0 {
      out := Fill(BlockStart(addr, count), count);
    }
  }

  /** Ends in either order; the increment that would wrap past the last address is never reached. */
  method ExpandRange(a: Ip, b: Ip) returns (out: seq<Ip>)
    ensures out == Upward(if a <= b then a else b, (if a <= b then b - a else a - b) + 1)
  {
    var start, end := a, b;
    if end < start {
      start, end := end, start;
    }
    out := [start];
    var v := start;
    while v != end
      invariant start <= v <= end && out == Upward(start, v as int - start as int + 1)
      decreases end - v
    {
      v := Add32(v, 1);
      out := out + [v];
    }
  }

  /** Exactly the addresses of the block, in ascending order. */
  lemma CidrExact(addr: Ip, prefix: nat, v: Ip)
    requires prefix <= 32
    ensures
      var size := Pow2(32 - prefix);
      v in Upward(BlockStart(addr, size), size) <==> v / size == addr / size
  {
    var size := Pow2(32 - prefix);
    var s := Upward(BlockStart(addr, size), size);
    InBlock(addr, size, v);
    if BlockStart(addr, size) <= v < BlockStart(addr, size) + size {
      assert s[v - BlockStart(addr, size)] == v;
    }
  }

  // ------------------------------------------------------------------------
  // Lists
  // ------------------------------------------------------------------------

  /** A parsed spec; `Mapped` is a block written as IPv6, ::ffff:addr/prefix. */
  datatype Spec = One(ip: Ip) | Range(a: Ip, b: Ip) | Cidr(addr: Ip, prefix: nat) | Mapped(addr: Ip, prefix: nat) | Bad

  function Expand(s: Spec): Option<seq<nat>> {
    match s
    case One(ip) => Some([ip])
    case Range(a, b) => Some(Upward(if a <= b then a else b, (if a <= b then b - a else a - b) + 1))
    case Cidr(addr, prefix) =>
      if prefix > 32 then None else Some(Upward(BlockStart(addr, Pow2(32 - prefix)), Pow2(32 - prefix)))
    case Mapped(_, prefix) => if 96 <= prefix <= 128 then Some([]) else None
    case Bad => None
  }

  /**
   A block written as IPv6 stands for 2^(128-prefix) addresses, but its mask is measured against 32 bits and the
   shift that counts them gives zero: it expands to nothing, without an error, exactly when it is accepted.
   */
  lemma MappedExpandsToNothing(addr: Ip, prefix: nat)
    ensures Expand(Mapped(addr, prefix)).Some? <==> 96 <= prefix <= 128
    ensures 96 <= prefix <= 128 ==> |Expand(Mapped(addr, prefix)).value| == Shifted(prefix) < Pow2(128 - prefix)
  {}

  /** Everything the specs expand to, repetitions and all, unless one of them is invalid. */
  function ExpandAll(specs: seq<Spec>): Option<seq<nat>> {
    if specs == [] then Some([]) else
    var n := |specs| - 1;
    var before, last := ExpandAll(specs[..n]), Expand(specs[n]);
    if before.Some? && last.Some? then Some(before.value + last.value) else None
  }

  predicate Distinct(s: seq<nat>) {
    forall i, j :: 0 <= i < j < |s| ==> s[i] != s[j]
  }

  /** `p` is where `v` first occurs in `all`. */
  predicate FirstAt(all: seq<nat>, v: nat, p: int) {
    0 <= p < |all| && all[p] == v && v !in all[..p]
  }

  /** `out` is `all` without repetitions, in the order of first occurrence. */
  ghost predicate FirstSeen(all: seq<nat>, out: seq<nat>) {
    && Distinct(out)
    && (forall v :: v in out <==> v in all)
    && (forall i, j, p, q :: 0 <= i < j < |out| && FirstAt(all, out[i], p) && FirstAt(all, out[j], q) ==> p < q)
  }

  lemma FirstSeenAppend(all: seq<nat>, out: seq<nat>, v: nat)
    requires FirstSeen(all, out)
    ensures FirstSeen(all + [v], if v in all then out else out + [v])
  {
    var more := all + [v];
    forall w, p | FirstAt(more, w, p)
      ensures if w in all then FirstAt(all, w, p) else p == |all|
    {
      if p < |all| {
        assert more[..p] == all[..p];
      } else {
        assert more[..p] == all;
      }
    }
  }

  method AppendUnique(out: seq<Ip>, seen: set<nat>, ips: seq<Ip>, ghost all: seq<nat>)
    returns (longer: seq<Ip>, nowSeen: set<nat>)
    requires FirstSeen(all, out) && forall v :: v in seen <==> v in out
    ensures FirstSeen(all + ips, longer) && forall v :: v in nowSeen <==> v in longer
  {
    longer, nowSeen := out, seen;
    var i := 0;
    assert all + ips[..0] == all;
    while i < |ips|
      invariant 0 <= i <= |ips| && FirstSeen(all + ips[..i], longer)
      invariant forall v :: v in nowSeen <==> v in longer
    {
      FirstSeenAppend(all + ips[..i], longer, ips[i]);
      assert (all + ips[..i]) + [ips[i]] == all + ips[..i + 1];
      var ip: Ip := ips[i];
      if ip !in nowSeen {
        nowSeen := nowSeen + {ip};
        longer := longer + [ip];
      }
      i := i + 1;
    }
    assert ips[..i] == ips;
  }

  method ExpandSpec(s: Spec) returns (r: Option<seq<Ip>>)
    ensures r == Expand(s)
  {
    match s {
      case One(ip) => r := Some([ip]);
      case Range(a, b) =>
        var ips := ExpandRange(a, b);
        r := Some(ips);
      case Cidr(addr, prefix) =>
        if prefix > 32 {
          return None;
        }
        var ips := ExpandCidr(addr, prefix);
        r := Some(ips);
      case Mapped(addr, prefix) =>
        if prefix < 96 || prefix > 128 {
          return None;
        }
        var ips := ExpandCidr(addr, prefix);
        r := Some(ips);
      case Bad => r := None;
    }
  }

  predicate Accepted(s: Spec) {
    match s
    case Cidr(_, prefix) => prefix <= 32
    case Mapped(_, prefix) => 96 <= prefix <= 128
    case Bad => false
    case _ => true
  }

  /** The addresses a spec stands for. */
  predicate Covers(s: Spec, v: nat) {
    match s
    case One(ip) => v == ip
    case Range(a, b) => a <= v <= b || b <= v <= a
    case Cidr(addr, prefix) => prefix <= 32 && v < U32 && v / Pow2(32 - prefix) == addr / Pow2(32 - prefix)
    case Mapped(_, _) => false
    case Bad => false
  }

  lemma {:induction false} ExpandCovers(s: Spec, v: nat)
    ensures Expand(s).Some? <==> Accepted(s)
    ensures Expand(s).Some? ==> (v in Expand(s).value <==> Covers(s, v))
  {
    match s {
      case Cidr(addr, prefix) =>
        if prefix <= 32 {
          BlockFits(addr, prefix);
          if v < U32 {
            CidrExact(addr, prefix, v);
          }
        }
      case Range(a, b) =>
        var lo, hi := if a <= b then a else b, if a <= b then b else a;
        var ips := Upward(lo, hi - lo + 1);
        if lo <= v <= hi {
          assert ips[v - lo] == v;
        }
      case _ =>
    }
  }

  lemma {:induction false} ExpandAllCovers(specs: seq<Spec>, v: nat)
    ensures ExpandAll(specs).Some? <==> forall k :: 0 <= k < |specs| ==> Accepted(specs[k])
    ensures ExpandAll(specs).Some? ==>
      (v in ExpandAll(specs).value <==> exists k :: 0 <= k < |specs| && Covers(specs[k], v))
  {
    if specs != [] {
      var n := |specs| - 1;
      ExpandAllCovers(specs[..n], v);
      ExpandCovers(specs[n], v);
    }
  }

  /** Any invalid spec fails the whole list; otherwise the addresses some spec covers, each once, as first seen. */
  method ExpandList(specs: seq<Spec>) returns (r: Option<seq<Ip>>)
    ensures r.Some? <==> forall k :: 0 <= k < |specs| ==> Accepted(specs[k])
    ensures r.Some? ==> Distinct(r.value)
    ensures r.Some? ==> forall v: nat :: v in r.value <==> exists k :: 0 <= k < |specs| && Covers(specs[k], v)
    ensures r.Some? ==> ExpandAll(specs).Some? && FirstSeen(ExpandAll(specs).value, r.value)
  {
    forall v: nat
      ensures ExpandAll(specs).Some? ==>
        (v in ExpandAll(specs).value <==> exists k :: 0 <= k < |specs| && Covers(specs[k], v))
    {
      ExpandAllCovers(specs, v);
    }
    ExpandAllCovers(specs, 0);
    var out: seq<Ip>, seen: set<nat> := [], {};
    var i := 0;
    while i < |specs|
      invariant 0 <= i <= |specs| && ExpandAll(specs[..i]).Some?
      invariant FirstSeen(ExpandAll(specs[..i]).value, out)
      invariant forall v :: v in seen <==> v in out
    {
      var ips := ExpandSpec(specs[i]);
      assert specs[..i + 1][..i] == specs[..i];
      if ips.None? {
        Fails(specs, i + 1);
        return None;
      }
      out, seen := AppendUnique(out, seen, ips.value, ExpandAll(specs[..i]).value);
      i := i + 1;
    }
    assert specs[..i] == specs;
    r := Some(out);
  }

  lemma {:induction false} Fails(specs: seq<Spec>, n: nat)
    requires n <= |specs| && ExpandAll(specs[..n]).None?
    ensures ExpandAll(specs).None?
    decreases |specs| - n
  {
    if n < |specs| {
      assert specs[..n + 1][..n] == specs[..n];
      Fails(specs, n + 1);
    } else {
      assert specs[..n] == specs;
    }
  }
}
