/** The framing of UDP datagrams on a rathole data channel: [u16 addrLen][addr][u16 dataLen][data]. */
module UdpFrame {
  import opened Basics

  const MAX: nat := 65535

  datatype Datagram = Datagram(from: Bytes, data: Bytes)

  /** Lengths that two bytes can hold. */
  predicate Fits(d: Datagram) {
    |d.from| < 65536 && |d.data| < 65536
  }

  function Encode(d: Datagram): Bytes {
    PutU16(|d.from|) + d.from + PutU16(|d.data|) + d.data
  }

  /** The first datagram of `b` and the number of bytes it takes, if `b` holds all of it. */
  function Decode(b: Bytes): (r: Option<(Datagram, nat)>)
    ensures r.Some? ==> 4 <= r.value.1 <= |b|
  {
    if |b| < 2 then None else
    var n := GetU16(b[..2]);
    if |b| < 2 + n + 2 then None else
    var m := GetU16(b[2 + n..4 + n]);
    if |b| < 4 + n + m then None else
    Some((Datagram(b[2..2 + n], b[4 + n..4 + n + m]), 4 + n + m))
  }

  /** The slices of four pieces laid end to end. */
  lemma Slices(a: Bytes, b: Bytes, c: Bytes, d: Bytes)
    ensures
      var e, i, j := a + b + c + d, |a| + |b|, |a| + |b| + |c|;
      |e| == j + |d| && e[..|a|] == a && e[|a|..i] == b && e[i..j] == c && e[j..] == d
  {}

  lemma DecodePieces(a: Bytes, from: Bytes, c: Bytes, data: Bytes, rest: Bytes)
    requires |a| == 2 && |c| == 2 && GetU16(a) == |from| && GetU16(c) == |data|
    ensures Decode(a + from + c + (data + rest)) == Some((Datagram(from, data), 4 + |from| + |data|))
  {
    var b, n, m := a + from + c + (data + rest), |from|, |data|;
    Slices(a, from, c, data + rest);
    assert b[4 + n..4 + n + m] == b[4 + n..][..m];
  }

  lemma DecodeEncode(d: Datagram, rest: Bytes)
    requires Fits(d)
    ensures Decode(Encode(d) + rest) == Some((d, |Encode(d)|))
  {
    var n, m := PutU16(|d.from|), PutU16(|d.data|);
    U16RoundTrip(|d.from|);
    U16RoundTrip(|d.data|);
    Regroup(n + d.from + m, d.data, rest);
    DecodePieces(n, d.from, m, d.data, rest);
  }

  /** A datagram cut short is never taken for a whole one. */
  lemma DecodePartial(d: Datagram, k: nat)
    requires Fits(d) && k < |Encode(d)|
    ensures Decode(Encode(d)[..k]) == None
  {
    var e, n, m := Encode(d), |d.from|, |d.data|;
    var b := e[..k];
    Slices(PutU16(n), d.from, PutU16(m), d.data);
    U16RoundTrip(n);
    U16RoundTrip(m);
    if k >= 2 {
      assert b[..2] == e[..2];
      if k >= 4 + n {
        assert b[2 + n..4 + n] == e[2 + n..4 + n];
      }
    }
  }

  /** What is read was written: the bytes consumed are the datagram's own encoding. */
  lemma EncodeDecode(b: Bytes)
    requires Decode(b).Some?
    ensures Fits(Decode(b).value.0) && b[..Decode(b).value.1] == Encode(Decode(b).value.0)
  {
    var (d, k) := Decode(b).value;
    var n := |d.from|;
    U16Bytes(b[..2]);
    U16Bytes(b[2 + n..4 + n]);
    Prefix(b, k, 2, 2 + n, 4 + n);
  }

  /** A prefix put together from its pieces. */
  lemma Prefix(b: Bytes, end: nat, i: nat, j: nat, k: nat)
    requires i <= j <= k <= end <= |b|
    ensures b[..end] == b[..i] + b[i..j] + b[j..k] + b[k..end]
  {
    var c := b[..end];
    Rejoin(c, i, j, k);
    assert c[..i] == b[..i] && c[i..j] == b[i..j] && c[j..k] == b[j..k] && c[k..] == b[k..end];
  }

  lemma Rejoin(b: Bytes, i: nat, j: nat, k: nat)
    requires i <= j <= k <= |b|
    ensures b == b[..i] + b[i..j] + b[j..k] + b[k..]
  {}

  // ------------------------------------------------------------------------
  // Streams of datagrams
  // ------------------------------------------------------------------------

  predicate AllFit(ds: seq<Datagram>) {
    forall i :: 0 <= i < |ds| ==> Fits(ds[i])
  }

  function EncodeAll(ds: seq<Datagram>): Bytes {
    if ds == [] then [] else Encode(ds[0]) + EncodeAll(ds[1..])
  }

  /** Repeated reads until one would have to wait. */
  function DecodeAll(b: Bytes): seq<Datagram>
    decreases |b|
  {
    match Decode(b)
    case None => []
    case Some((d, n)) => [d] + DecodeAll(b[n..])
  }

  lemma {:induction false} EncodeAllConcat(xs: seq<Datagram>, ys: seq<Datagram>)
    ensures EncodeAll(xs + ys) == EncodeAll(xs) + EncodeAll(ys)
  {
    if xs == [] {
      assert xs + ys == ys;
    } else {
      EncodeAllConcat(xs[1..], ys);
      assert (xs + ys)[1..] == xs[1..] + ys;
      Regroup(Encode(xs[0]), EncodeAll(xs[1..]), EncodeAll(ys));
    }
  }

  lemma Consumed(wire: Bytes, rest: Bytes, a: Bytes, b: Bytes)
    requires wire + rest == a + b && |a| <= |wire|
    ensures wire[|a|..] + rest == b
  {
    assert (wire + rest)[|a|..] == wire[|a|..] + rest;
  }

  /** If `a` followed by something is `b` followed by something, one of them is a prefix of the other. */
  lemma Prefixes(a: Bytes, x: Bytes, b: Bytes, y: Bytes)
    requires a + x == b + y
    ensures |a| < |b| ==> a == b[..|a|]
    ensures |a| >= |b| ==> a == b + a[|b|..]
  {
    assert forall i :: 0 <= i < |a| ==> a[i] == (a + x)[i];
    assert forall i :: 0 <= i < |b| ==> b[i] == (b + y)[i];
  }

  lemma {:induction false} EncodeAllNext(ds: seq<Datagram>, r: nat)
    requires r < |ds|
    ensures EncodeAll(ds[..r + 1]) == EncodeAll(ds[..r]) + Encode(ds[r])
    ensures EncodeAll(ds[r..]) == Encode(ds[r]) + EncodeAll(ds[r + 1..])
  {
    assert ds[r..][0] == ds[r] && ds[r..][1..] == ds[r + 1..];
    assert ds[..r + 1] == ds[..r] + [ds[r]];
    EncodeAllConcat(ds[..r], [ds[r]]);
    assert EncodeAll([ds[r]]) == Encode(ds[r]) + EncodeAll([]);
  }

  /** A reader that has consumed the first `r` datagrams of a stream gets the next one, or waits. */
  lemma {:induction false} ReadNext(ds: seq<Datagram>, wire: Bytes, rest: Bytes, r: nat)
    requires AllFit(ds) && r <= |ds| && wire + rest == EncodeAll(ds)
    requires |EncodeAll(ds[..r])| <= |wire| && Decode(wire[|EncodeAll(ds[..r])|..]).Some?
    ensures r < |ds| && Decode(wire[|EncodeAll(ds[..r])|..]) == Some((ds[r], |Encode(ds[r])|))
    ensures EncodeAll(ds[..r + 1]) == EncodeAll(ds[..r]) + Encode(ds[r])
  {
    var pos := |EncodeAll(ds[..r])|;
    var unread := wire[pos..];
    EncodeAllConcat(ds[..r], ds[r..]);
    assert ds == ds[..r] + ds[r..];
    Consumed(wire, rest, EncodeAll(ds[..r]), EncodeAll(ds[r..]));
    if r < |ds| {
      EncodeAllNext(ds, r);
      ReadFirst(ds[r], EncodeAll(ds[r + 1..]), unread, rest);
    }
  }

  lemma ReadFirst(d: Datagram, more: Bytes, unread: Bytes, rest: Bytes)
    requires Fits(d) && unread + rest == Encode(d) + more
    ensures Decode(unread) == if |unread| < |Encode(d)| then None else Some((d, |Encode(d)|))
  {
    Prefixes(unread, rest, Encode(d), more);
    if |unread| < |Encode(d)| {
      DecodePartial(d, |unread|);
    } else {
      DecodeEncode(d, unread[|Encode(d)|..]);
    }
  }

  /** Reading everything written so far yields the whole datagrams, in order, and nothing of a partial one. */
  lemma {:induction false} DecodeAllWritten(ds: seq<Datagram>, last: Datagram, k: nat)
    requires AllFit(ds) && Fits(last) && k < |Encode(last)|
    ensures DecodeAll(EncodeAll(ds) + Encode(last)[..k]) == ds
  {
    var b := EncodeAll(ds) + Encode(last)[..k];
    if ds == [] {
      assert b == Encode(last)[..k];
      DecodePartial(last, k);
    } else {
      var tail := EncodeAll(ds[1..]) + Encode(last)[..k];
      assert b == Encode(ds[0]) + tail;
      DecodeEncode(ds[0], tail);
      assert b[|Encode(ds[0])|..] == tail;
      DecodeAllWritten(ds[1..], last, k);
    }
  }

  // ------------------------------------------------------------------------
  // writeUDP and readUDP
  // ------------------------------------------------------------------------

  /** Writing the piece e[i..j] after e[..i], whole or cut at `room`, continues the prefix. */
  lemma Advance(start: Bytes, e: Bytes, i: nat, j: nat, room: nat)
    requires i <= j <= |e|
    ensures (start + e[..i]) + e[i..j] == start + e[..j]
    ensures room <= j - i ==> (start + e[..i]) + e[i..j][..room] == start + e[..i + room]
  {}

  /** The sending end of a connection that takes `budget` more bytes and then fails. */
  class Sink {
    var written: Bytes
    var budget: nat

    constructor (budget: nat)
      ensures written == [] && this.budget == budget
    {
      written, this.budget := [], budget;
    }

    method Write(b: Bytes) returns (ok: bool)
      modifies this
      ensures ok <==> |b| <= old(budget)
      ensures ok ==> written == old(written) + b && budget == old(budget) - |b|
      ensures !ok ==> written == old(written) + b[..old(budget)] && budget == 0
    {
      ok := |b| <= budget;
      if ok {
        written, budget := written + b, budget - |b|;
      } else {
        written, budget := written + b[..budget], 0;
      }
    }

    /** Four writes in turn; a failure leaves a prefix of the encoding, an oversized datagram leaves nothing. */
    method WriteUdp(d: Datagram) returns (ok: bool)
      modifies this
      ensures ok <==> Fits(d) && |Encode(d)| <= old(budget)
      ensures ok ==> written == old(written) + Encode(d) && budget == old(budget) - |Encode(d)|
      ensures !ok && Fits(d) ==> written == old(written) + Encode(d)[..old(budget)]
      ensures !Fits(d) ==> written == old(written) && budget == old(budget)
    {
      ok := |d.from| <= MAX && |d.data| <= MAX;
      if !ok {
        return;
      }
      ghost var e, start, n := Encode(d), written, |d.from|;
      Slices(PutU16(n), d.from, PutU16(|d.data|), d.data);
      assert e[0..2] == e[..2] && written == start + e[..0];
      ok := WritePiece(PutU16(|d.from|), start, e, 0);
      if ok {
        ok := WritePiece(d.from, start, e, 2);
      }
      if ok {
        ok := WritePiece(PutU16(|d.data|), start, e, 2 + n);
      }
      if ok {
        ok := WritePiece(d.data, start, e, 4 + n);
      }
    }

    /** One of the writes of a frame `e` whose first `i` bytes are out. */
    method WritePiece(b: Bytes, ghost start: Bytes, ghost e: Bytes, ghost i: nat) returns (ok: bool)
      requires i + |b| <= |e| && e[i..i + |b|] == b && written == start + e[..i]
      modifies this
      ensures ok <==> |b| <= old(budget)
      ensures ok ==> written == start + e[..i + |b|] && budget == old(budget) - |b|
      ensures !ok ==> written == start + e[..i + old(budget)]
    {
      Advance(start, e, i, i + |b|, budget);
      ok := Write(b);
    }
  }

  /** The receiving end of a connection: the bytes that will arrive before it ends. */
  class Source {
    var unread: Bytes

    constructor (unread: Bytes)
      ensures this.unread == unread
    {
      this.unread := unread;
    }

    method ReadFull(n: nat) returns (ok: bool, b: Bytes)
      modifies this
      ensures ok <==> n <= |old(unread)|
      ensures ok ==> b == old(unread)[..n] && unread == old(unread)[n..]
    {
      ok := n <= |unread|;
      if ok {
        b, unread := unread[..n], unread[n..];
      } else {
        b, unread := unread, [];
      }
    }

    method ReadUdp() returns (ok: bool, d: Datagram)
      modifies this
      ensures ok <==> Decode(old(unread)).Some?
      ensures ok ==> Some((d, |old(unread)| - |unread|)) == Decode(old(unread))
                     && unread == old(unread)[|old(unread)| - |unread|..]
    {
      var hdr, from, data;
      d := Datagram([], []);
      ok, hdr := ReadFull(2);
      if !ok {
        return;
      }
      ok, from := ReadFull(GetU16(hdr));
      if !ok {
        return;
      }
      ghost var n := |from|;
      ok, hdr := ReadFull(2);
      if !ok {
        return;
      }
      assert hdr == old(unread)[2 + n..4 + n];
      ok, data := ReadFull(GetU16(hdr));
      if !ok {
        return;
      }
      d := Datagram(from, data);
      assert from == old(unread)[2..2 + n] && data == old(unread)[4 + n..4 + n + |data|];
    }
  }
}
