/** Reading NFLOG packets from a file that a host of the other byte order wrote:
    the type and length of each TLV are swapped in place. */
module Nflog {

  type Byte = n: nat | n < 256

  type U16 = n: nat | n < 0x10000

  const SIZEOF_HDR: nat := 4
  const SIZEOF_TLV: nat := 4

  /** A 16-bit number in memory. */
  function Short(b0: Byte, b1: Byte, big: bool): nat {
    if big then b0 * 256 + b1 else b1 * 256 + b0
  }

  /** A TLV is padded to a multiple of 4 bytes; the sum is kept in 16 bits. */
  function Padded(size: nat): nat {
    if size % 4 != 0 then (size + (4 - size % 4)) % 0x10000 else size
  }

  /** Where the byte goes that is at i, when the header at q is swapped. */
  function Partner(q: nat, i: nat): nat
    requires q <= i
  {
    if (i - q) % 2 == 0 then i + 1 else i - 1
  }

  // --------------------------------------------------- what the walk computes

  function SwapAt(buf: seq<Byte>, p: nat): (r: seq<Byte>)
    requires p + SIZEOF_TLV <= |buf|
    ensures |r| == |buf|
  {
    buf[p := buf[p + 1]][p + 1 := buf[p]][p + 2 := buf[p + 3]][p + 3 := buf[p + 2]]
  }

  /** The padded length in the header at p. */
  function SizeAt(b: seq<Byte>, p: nat, big: bool): nat
    requires p + SIZEOF_TLV <= |b|
  {
    Padded(Short(b[p], b[p + 1], big))
  }

  /** The TLVs from p on, with caplen bytes captured and length bytes in all. */
  function Walk(buf: seq<Byte>, p: nat, caplen: nat, length: nat, big: bool): (r: seq<Byte>)
    requires p + caplen <= |buf|
    ensures |r| == |buf|
    decreases caplen
  {
    if caplen < SIZEOF_TLV then buf else
    var b := SwapAt(buf, p);
    var size := SizeAt(b, p, big);
    if size < SIZEOF_TLV || caplen < size || length < size then b
    else Walk(b, p + size, caplen - size, length - size, big)
  }

  function SwapHeader(buf: seq<Byte>, caplen: nat, length: nat, big: bool): seq<Byte>
    requires caplen <= |buf|
  {
    if caplen < SIZEOF_HDR || length < SIZEOF_HDR || buf[1] != 0 then buf
    else Walk(buf, SIZEOF_HDR, caplen - SIZEOF_HDR, length - SIZEOF_HDR, big)
  }

  /** swap_nflog_header, in place. */
  method SwapNflogHeader(buf: array<Byte>, hdrCaplen: nat, hdrLen: nat, big: bool)
    requires hdrCaplen <= buf.Length
    modifies buf
    ensures buf[..] == SwapHeader(old(buf[..]), hdrCaplen, hdrLen, big)
    ensures hdrCaplen < 4 || hdrLen < 4 || old(buf[1]) != 0 ==> buf[..] == old(buf[..])
  {
    hide SizeAt, SwapAt;
    var p, caplen, length := 0, hdrCaplen, hdrLen;
    if caplen < SIZEOF_HDR || length < SIZEOF_HDR {
      return;
    }
    if buf[1] != 0 {
      return;
    }
    length := length - SIZEOF_HDR;
    caplen := caplen - SIZEOF_HDR;
    p := p + SIZEOF_HDR;
    while caplen >= SIZEOF_TLV
      invariant 0 <= caplen && 0 <= length && 0 <= p && p + caplen <= buf.Length
      invariant SwapHeader(old(buf[..]), hdrCaplen, hdrLen, big) == Walk(buf[..], p, caplen, length, big)
      decreases caplen
    {
      var size := SwapTlv(buf, p, big);
      if size < SIZEOF_TLV {
        return;
      }
      if caplen < size || length < size {
        return;
      }
      length := length - size;
      caplen := caplen - size;
      p := p + size;
    }
  }

  /** Swaps the type and the length, and says how far the next TLV is. */
  method SwapTlv(buf: array<Byte>, p: nat, big: bool) returns (size: nat)
    requires p + SIZEOF_TLV <= buf.Length
    modifies buf
    ensures buf[..] == SwapAt(old(buf[..]), p) && size == SizeAt(buf[..], p, big)
  {
    buf[p + 2], buf[p + 3] := buf[p + 3], buf[p + 2];
    buf[p], buf[p + 1] := buf[p + 1], buf[p];
    size := Short(buf[p], buf[p + 1], big);
    if size % 4 != 0 {
      size := (size + (4 - size % 4)) % 0x10000;
    }
  }

  // ---------------------------------------------------------- what it touches

  /** Where the headers that are swapped start. */
  function Starts(buf: seq<Byte>, p: nat, caplen: nat, length: nat, big: bool): seq<nat>
    requires p + caplen <= |buf|
    decreases caplen
  {
    if caplen < SIZEOF_TLV then [] else
    var b := SwapAt(buf, p);
    var size := SizeAt(b, p, big);
    if size < SIZEOF_TLV || caplen < size || length < size then [p]
    else [p] + Starts(b, p + size, caplen - size, length - size, big)
  }

  /** Byte i is in the header at q. */
  predicate InHeader(q: nat, i: nat) {
    q <= i < q + SIZEOF_TLV
  }

  ghost predicate Apart(s: seq<nat>) {
    forall j, k | 0 <= j < k < |s| :: s[j] + SIZEOF_TLV <= s[k]
  }

  /** Headers do not overlap, and are captured whole. */
  lemma {:induction false} StartsApart(buf: seq<Byte>, p: nat, caplen: nat, length: nat, big: bool)
    requires p + caplen <= |buf|
    ensures forall q | q in Starts(buf, p, caplen, length, big) :: p <= q && q + SIZEOF_TLV <= p + caplen
    ensures Apart(Starts(buf, p, caplen, length, big))
    decreases caplen
  {
    hide SizeAt;
    if caplen >= SIZEOF_TLV {
      var b := SwapAt(buf, p);
      var size := SizeAt(b, p, big);
      if !(size < SIZEOF_TLV || caplen < size || length < size) {
        StartsApart(b, p + size, caplen - size, length - size, big);
        var rest := Starts(b, p + size, caplen - size, length - size, big);
        FirstApart(p, rest);
      }
    }
  }

  lemma FirstApart(p: nat, rest: seq<nat>)
    requires Apart(rest) && forall q | q in rest :: p + SIZEOF_TLV <= q
    ensures Apart([p] + rest)
  {
    var s := [p] + rest;
    forall j, k | 0 <= j < k < |s| ensures s[j] + SIZEOF_TLV <= s[k] {
      assert s[k] == rest[k - 1] && rest[k - 1] in rest;
      assert j > 0 ==> s[j] == rest[j - 1];
    }
  }

  lemma SwapAtByte(buf: seq<Byte>, p: nat, i: nat)
    requires p + SIZEOF_TLV <= |buf| && i < |buf|
    ensures InHeader(p, i) ==> Partner(p, i) < |buf| && SwapAt(buf, p)[i] == buf[Partner(p, i)]
    ensures !InHeader(p, i) ==> SwapAt(buf, p)[i] == buf[i]
  {
  }

  lemma PartnerNear(q: nat, i: nat)
    requires InHeader(q, i)
    ensures InHeader(q, Partner(q, i))
  {
  }

  /** The walk from p is one swap, and the walk from the next header if there is
      one. */
  lemma WalkStep(buf: seq<Byte>, p: nat, caplen: nat, length: nat, big: bool, q: nat)
    requires p + caplen <= |buf| && caplen >= SIZEOF_TLV
    ensures var b := SwapAt(buf, p);
      var size := SizeAt(b, p, big);
      if size < SIZEOF_TLV || caplen < size || length < size then
        Walk(buf, p, caplen, length, big) == b && (q in Starts(buf, p, caplen, length, big) <==> q == p)
      else
        && Walk(buf, p, caplen, length, big) == Walk(b, p + size, caplen - size, length - size, big)
        && (q in Starts(buf, p, caplen, length, big) <==>
              q == p || q in Starts(b, p + size, caplen - size, length - size, big))
  {
    hide SizeAt, SwapAt;
  }

  /** A byte in one of these headers changes places with its neighbour. */
  lemma {:induction false} WalkSwaps(buf: seq<Byte>, p: nat, caplen: nat, length: nat, big: bool, q: nat, i: nat)
    requires p + caplen <= |buf| && i < |buf| && q in Starts(buf, p, caplen, length, big) && InHeader(q, i)
    ensures Partner(q, i) < |buf| && Walk(buf, p, caplen, length, big)[i] == buf[Partner(q, i)]
    decreases caplen
  {
    hide SizeAt, SwapAt, Partner;
    WalkStep(buf, p, caplen, length, big, q);
    var b := SwapAt(buf, p);
    var size := SizeAt(b, p, big);
    SwapAtByte(buf, p, i);
    PartnerNear(q, i);
    if !(size < SIZEOF_TLV || caplen < size || length < size) {
      StartsApart(b, p + size, caplen - size, length - size, big);
      if q == p {
        WalkKeeps(b, p + size, caplen - size, length - size, big, i);
      } else {
        WalkSwaps(b, p + size, caplen - size, length - size, big, q, i);
        SwapAtByte(buf, p, Partner(q, i));
      }
    }
  }

  /** Every other byte stays as it is. */
  lemma {:induction false} WalkKeeps(buf: seq<Byte>, p: nat, caplen: nat, length: nat, big: bool, i: nat)
    requires p + caplen <= |buf| && i < |buf| && forall q | q in Starts(buf, p, caplen, length, big) :: !InHeader(q, i)
    ensures Walk(buf, p, caplen, length, big)[i] == buf[i]
    decreases caplen
  {
    hide SizeAt, SwapAt;
    if caplen >= SIZEOF_TLV {
      var b := SwapAt(buf, p);
      var size := SizeAt(b, p, big);
      SwapAtByte(buf, p, i);
      if size < SIZEOF_TLV || caplen < size || length < size {
        assert p in [p];
      } else {
        var rest := Starts(b, p + size, caplen - size, length - size, big);
        assert forall q :: q in [p] + rest <==> q == p || q in rest;
        WalkKeeps(b, p + size, caplen - size, length - size, big, i);
      }
    }
  }

  // -------------------------------------------------------------- round trip

  /** A TLV as one host means it: its length counts the header and the value,
      not the padding, which `rest` has as well. */
  datatype Tlv = Tlv(length: U16, kind: U16, rest: seq<Byte>)

  predicate Proper(t: Tlv) {
    4 <= t.length <= 65532 && |t.rest| == Padded(t.length) - 4
  }

  predicate AllProper(ts: seq<Tlv>) {
    forall i | 0 <= i < |ts| :: Proper(ts[i])
  }

  function Bytes(n: U16, big: bool): (b: seq<Byte>)
    ensures |b| == 2
  {
    if big then [n / 256, n % 256] else [n % 256, n / 256]
  }

  function Encode(ts: seq<Tlv>, big: bool): seq<Byte> {
    if ts == [] then [] else
    Bytes(ts[0].length, big) + Bytes(ts[0].kind, big) + ts[0].rest + Encode(ts[1..], big)
  }

  lemma SwapOne(pre: seq<Byte>, t: Tlv, tail: seq<Byte>, big: bool)
    requires Proper(t)
    ensures var p, b := |pre|, SwapAt(pre + (Bytes(t.length, !big) + Bytes(t.kind, !big) + t.rest + tail), |pre|);
      && b == pre + (Bytes(t.length, big) + Bytes(t.kind, big) + t.rest) + tail
      && SizeAt(b, p, big) == SIZEOF_TLV + |t.rest| >= SIZEOF_TLV
  {
  }

  /** Whatever the TLVs, the encoding of the other host becomes that of this
      one. */
  lemma {:induction false} WalkConverts(pre: seq<Byte>, ts: seq<Tlv>, length: nat, big: bool)
    requires AllProper(ts)
    requires |Encode(ts, !big)| <= length
    ensures Walk(pre + Encode(ts, !big), |pre|, |Encode(ts, !big)|, length, big) == pre + Encode(ts, big)
    ensures |Encode(ts, big)| == |Encode(ts, !big)|
    decreases |ts|
  {
    hide SizeAt, Bytes, SwapAt, Proper, Walk;
    if ts != [] {
      var t, tail := ts[0], Encode(ts[1..], !big);
      var two := Bytes(t.length, !big) + Bytes(t.kind, !big) + t.rest;
      var one := Bytes(t.length, big) + Bytes(t.kind, big) + t.rest;
      assert Encode(ts, !big) == two + tail && Encode(ts, big) == one + Encode(ts[1..], big) && |two| == |one|;
      SwapOne(pre, t, tail, big);
      WalkOne(pre, two, one, tail, length, big);
      WalkConverts(pre + one, ts[1..], length - |one|, big);
      assert pre + one + Encode(ts[1..], big) == pre + (one + Encode(ts[1..], big));
    } else {
      WalkNone(pre, length, big);
    }
  }

  lemma WalkNone(pre: seq<Byte>, length: nat, big: bool)
    ensures Walk(pre + [], |pre|, 0, length, big) == pre + []
  {
  }

  lemma WalkOne(pre: seq<Byte>, two: seq<Byte>, one: seq<Byte>, tail: seq<Byte>, length: nat, big: bool)
    requires |one| == |two| >= SIZEOF_TLV && |two| + |tail| <= length
    requires SwapAt(pre + (two + tail), |pre|) == pre + one + tail && SizeAt(pre + one + tail, |pre|, big) == |one|
    ensures Walk(pre + (two + tail), |pre|, |two + tail|, length, big)
         == Walk(pre + one + tail, |pre + one|, |tail|, length - |one|, big)
  {
    hide SizeAt, SwapAt;
  }

  /** A whole packet: header of version 0, then TLVs. */
  lemma HeaderConverts(header: seq<Byte>, ts: seq<Tlv>, length: nat, big: bool)
    requires |header| == 4 && header[1] == 0 && AllProper(ts) && 4 + |Encode(ts, !big)| <= length
    ensures SwapHeader(header + Encode(ts, !big), 4 + |Encode(ts, !big)|, length, big) == header + Encode(ts, big)
  {
    WalkConverts(header, ts, length - 4, big);
  }

  /** A length that only padding makes 65536 or more ends the walk: the sum is 0
      in 16 bits. */
  lemma PaddingWraps(size: nat)
    requires size < 0x10000
    ensures Padded(size) < SIZEOF_TLV <==> size == 0 || size > 65532
    ensures Padded(size) % 4 == 0 && (Padded(size) >= SIZEOF_TLV ==> size <= Padded(size) < size + 4)
  {
  }
}
