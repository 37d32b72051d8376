/** Tests for encapsulated frames on Ethernet: each `vlan` or `mpls` term moves
    the offsets that the terms after it use. */
module Encap {
  import opened Basics
  import opened Bpf
  import opened Numbers
  import opened Bits
  import opened Codegen
  import opened Compare
  import opened Insns
  import Hazards
  import Rounds
  import Pcap
  import ValueTable

  const ETHERTYPE_8021Q: Word := 0x8100
  const ETHERTYPE_8021QINQ: Word := 0x9100
  const ETHERTYPE_MPLS: Word := 0x8847

  /** A term of the filter; a negative number (as an int) stands for none. */
  datatype Term = Vlan(num: Word) | Mpls(num: Word)

  // ---------------------------------------------------------------- the frame

  /** Offset n, and i tags or label entries of 4 bytes more, in 32 bits. */
  function Place(n: nat, i: nat): nat {
    (n + 4 * i) % WORDS
  }

  predicate Within(n: nat, size: Size, p: Packet) {
    n + Width(size) <= Unsigned(p.buflen)
  }

  /** The number at offset n; 0 if it was not captured. */
  function NumberAt(size: Size, n: nat, p: Packet): nat {
    UnsignedRange(p.buflen);
    if Within(n, size, p) then BigEndian(size, p, n) else 0
  }

  /** These two bytes are at offset n. */
  predicate TwoBytes(n: nat, a: nat, b: nat, p: Packet) {
    UnsignedRange(p.buflen);
    Within(n, H, p) && ByteAt(p, n) == a && ByteAt(p, n + 1) == b
  }

  /** The number is not negative as an int, which stands for none. */
  predicate Named(num: Word) {
    Unsigned(num) < 0x8000_0000
  }

  /** Entry i of the label stack, at 14 bytes and i entries, has this label. */
  predicate LabelIs(i: nat, num: Word, p: Packet) {
    Within(Place(14, i), W, p) && NumberAt(W, Place(14, i), p) / 0x1000 == Unsigned(num) % 0x10_0000
  }

  /** The frame has the tag or label entry that term i asks for at its place: a
      tag has type 81 00 or 91 00 and an id of 12 bits; a stack of labels has type
      88 47, entries before others have the lowest bit of the third byte clear,
      and the label is in the top 20 bits. */
  predicate TermHolds(ts: seq<Term>, i: nat, p: Packet)
    requires i < |ts|
  {
    match ts[i]
    case Vlan(num) =>
      && (TwoBytes(Place(12, i), 0x81, 0x00, p) || TwoBytes(Place(12, i), 0x91, 0x00, p))
      && (Named(num) ==> Within(Place(14, i), H, p) && NumberAt(H, Place(14, i), p) % 0x1000 == Unsigned(num))
    case Mpls(num) =>
      && (if i > 0 && ts[i - 1].Mpls? then
            Within(Place(16, i - 1), B, p) && NumberAt(B, Place(16, i - 1), p) % 2 == 0
          else TwoBytes(Place(12, i), 0x88, 0x47, p))
      && (Named(num) ==> LabelIs(i, num, p))
  }

  /** The frame is long enough for, and has, all the tags and label entries. */
  ghost predicate Stacked(ts: seq<Term>, p: Packet) {
    forall i | 0 <= i < |ts| :: TermHolds(ts, i, p)
  }

  /** What term i looks at was captured. */
  predicate TermWhole(ts: seq<Term>, i: nat, p: Packet)
    requires i < |ts|
  {
    match ts[i]
    case Vlan(num) => Within(Place(12, i), H, p) && (Named(num) ==> Within(Place(14, i), H, p))
    case Mpls(num) =>
      && (if i > 0 && ts[i - 1].Mpls? then Within(Place(16, i - 1), B, p) else Within(Place(12, i), H, p))
      && (Named(num) ==> Within(Place(14, i), W, p))
  }

  /** The frame is long enough for all the terms. */
  ghost predicate Whole(ts: seq<Term>, p: Packet) {
    forall i | 0 <= i < |ts| :: TermWhole(ts, i, p)
  }

  /** f is the test for term i: a test of fields that accepts the frames for
      which the term holds, and decides if it can load what it looks at. */
  ghost predicate TestsTerm(f: Filter, ts: seq<Term>, i: nat)
    requires i < |ts|
  {
    && SelfContained(f) && FieldTests(f)
    && forall p {:trigger Accepts(f, p)} {:trigger Decided(f, p)} ::
         (Accepts(f, p) <==> TermHolds(ts, i, p)) && (TermWhole(ts, i, p) ==> Decided(f, p))
  }

  /** f is the test for all the terms. */
  ghost predicate TestsTerms(f: Filter, ts: seq<Term>) {
    && SelfContained(f) && FieldTests(f)
    && forall p {:trigger Accepts(f, p)} {:trigger Decided(f, p)} ::
         (Accepts(f, p) <==> Stacked(ts, p)) && (Whole(ts, p) ==> Decided(f, p))
  }

  /** No tag has an id above 4095. */
  lemma LargeIds(ts: seq<Term>, p: Packet, i: nat)
    requires i < |ts| && ts[i].Vlan? && 0xfff < Unsigned(ts[i].num) < 0x8000_0000
    ensures !TermHolds(ts, i, p)
  {
    hide NumberAt, Place, TwoBytes, Within, Unsigned;
  }

  /** Of a label only the low 20 bits count. */
  lemma LowLabel(i: nat, num: Word, p: Packet)
    ensures LabelIs(i, num, p) <==> LabelIs(i, num & 0xfffff, p)
  {
    LowTwentyNumber(num);
    hide NumberAt, Place, Within, Unsigned;
    Twice(Unsigned(num));
  }

  // -------------------------------------------------------- fields and bytes

  lemma Twice(n: nat)
    ensures n % 0x10_0000 % 0x10_0000 == n % 0x10_0000
  {
  }

  lemma LowBitsSum(a: bv8, b: bv8, c: bv8, d: bv8)
    ensures ((((a as Word) << 24) | ((b as Word) << 16) | ((c as Word) << 8) | (d as Word)) & 0xfffff) as int ==
            0x1_0000 * ((b & 0xf) as int) + 0x100 * (c as int) + (d as int)
  {
  }

  lemma TwelveBitsSum(a: bv8, b: bv8, c: bv8, d: bv8)
    ensures ((((a as Word) << 24) | ((b as Word) << 16) | ((c as Word) << 8) | (d as Word)) & 0xfff) as int ==
            0x100 * ((c & 0xf) as int) + (d as int)
  {
  }

  lemma LastBitSum(a: bv8, b: bv8, c: bv8, d: bv8)
    ensures ((((a as Word) << 24) | ((b as Word) << 16) | ((c as Word) << 8) | (d as Word)) & 1) as int ==
      (d & 1) as int
  {
  }

  lemma LabelMaskSum(a: bv8, b: bv8, c: bv8, d: bv8)
    ensures ((((a as Word) << 24) | ((b as Word) << 16) | ((c as Word) << 8) | (d as Word)) & 0xfffff000) as int ==
            0x100_0000 * (a as int) + 0x1_0000 * (b as int) + 0x1000 * ((c >> 4) as int)
  {
  }

  lemma LabelShiftSum(a: bv8, b: bv8, c: bv8, d: bv8)
    ensures ((((a as Word) << 24) | ((b as Word) << 16) | ((c as Word) << 8) | (d as Word)) << 12) as int ==
            0x1000_0000 * ((b & 0xf) as int) + 0x10_0000 * (c as int) + 0x1000 * (d as int)
  {
  }

  lemma LowNibble(b: bv8)
    ensures (b & 0xf) as int == Num8(b) % 16
  {
  }

  lemma HighNibble(b: bv8)
    ensures (b >> 4) as int == Num8(b) / 16
  {
  }

  lemma LastBit(b: bv8)
    ensures (b & 1) as int == Num8(b) % 2
  {
  }

  lemma CutTwenty(n: int, q: int, r: int)
    requires n == 0x10_0000 * q + r && 0 <= r < 0x10_0000
    ensures n % 0x10_0000 == r
  {
  }

  lemma CutTwelve(n: int, q: int, r: int)
    requires n == 0x1000 * q + r && 0 <= r < 0x1000
    ensures n % 0x1000 == r && n / 0x1000 == q
  {
  }

  lemma Nibbles(b: nat)
    requires b < 256
    ensures b == 16 * (b / 16) + b % 16 && b / 16 < 16
  {
  }

  lemma TwentyBits(n: nat, a: nat, b: nat, c: nat, d: nat)
    requires n == 0x100_0000 * a + 0x1_0000 * b + 0x100 * c + d && b < 256 && c < 256 && d < 256
    ensures n % 0x10_0000 == 0x1_0000 * (b % 16) + 0x100 * c + d
  {
    Nibbles(b);
    CutTwenty(n, 16 * a + b / 16, 0x1_0000 * (b % 16) + 0x100 * c + d);
  }

  lemma TwelveBits(n: nat, a: nat, b: nat, c: nat, d: nat)
    requires n == 0x100_0000 * a + 0x1_0000 * b + 0x100 * c + d && c < 256 && d < 256
    ensures n % 0x1000 == 0x100 * (c % 16) + d && n / 0x1000 == 0x1000 * a + 0x10 * b + c / 16
  {
    Nibbles(c);
    CutTwelve(n, 0x1000 * a + 0x10 * b + c / 16, 0x100 * (c % 16) + d);
  }

  lemma OneBit(n: nat, a: nat, b: nat, c: nat, d: nat)
    requires n == 0x100_0000 * a + 0x1_0000 * b + 0x100 * c + d
    ensures n % 2 == d % 2
  {
    assert n == 2 * (0x80_0000 * a + 0x8000 * b + 0x80 * c) + d;
  }

  function LowTwenty(w: Word): Word { w & 0xfffff }

  /** A label where it is on the wire. */
  function Shifted(num: Word): Word { num << 12 }

  lemma LowTwentyNumber(w: Word)
    ensures Unsigned(LowTwenty(w)) == Unsigned(w) % 0x10_0000
  {
    var a, b, c, d := Byte(w, 0), Byte(w, 1), Byte(w, 2), Byte(w, 3);
    WordBytes(w);
    WordNumber(w);
    Word4Is(a, b, c, d);
    LowBitsSum(a, b, c, d);
    hide Byte, Word4, Num8;
    LowNibble(b);
    ByteRange(b);
    ByteRange(c);
    ByteRange(d);
    TwentyBits(Unsigned(w), Num8(a), Num8(b), Num8(c), Num8(d));
  }

  lemma TwelveNumber(w: Word)
    ensures Unsigned(Masked(w, 0xfff)) == Unsigned(w) % 0x1000
  {
    var a, b, c, d := Byte(w, 0), Byte(w, 1), Byte(w, 2), Byte(w, 3);
    WordBytes(w);
    WordNumber(w);
    Word4Is(a, b, c, d);
    TwelveBitsSum(a, b, c, d);
    hide Byte, Word4, Num8;
    LowNibble(c);
    ByteRange(c);
    ByteRange(d);
    TwelveBits(Unsigned(w), Num8(a), Num8(b), Num8(c), Num8(d));
  }

  lemma LastNumberBit(w: Word)
    ensures Unsigned(Masked(w, 1)) == Unsigned(w) % 2
  {
    var a, b, c, d := Byte(w, 0), Byte(w, 1), Byte(w, 2), Byte(w, 3);
    WordBytes(w);
    WordNumber(w);
    Word4Is(a, b, c, d);
    LastBitSum(a, b, c, d);
    hide Byte, Word4, Num8;
    LastBit(d);
    OneBit(Unsigned(w), Num8(a), Num8(b), Num8(c), Num8(d));
  }

  lemma LabelMaskParts(w: Word)
    ensures Unsigned(Masked(w, 0xfffff000)) ==
      0x100_0000 * Num8(Byte(w, 0)) + 0x1_0000 * Num8(Byte(w, 1)) + 0x1000 * (Num8(Byte(w, 2)) / 16)
  {
    var a, b, c, d := Byte(w, 0), Byte(w, 1), Byte(w, 2), Byte(w, 3);
    WordBytes(w);
    Word4Is(a, b, c, d);
    LabelMaskSum(a, b, c, d);
    HighNibble(c);
    hide Byte, Word4;
  }

  lemma LabelMaskNumber(w: Word)
    ensures Unsigned(Masked(w, 0xfffff000)) == 0x1000 * (Unsigned(w) / 0x1000)
  {
    hide Byte, Num8, Unsigned, Masked;
    LabelMaskParts(w);
    WordNumber(w);
    ByteRange(Byte(w, 2));
    ByteRange(Byte(w, 3));
    TwelveBits(Unsigned(w), Num8(Byte(w, 0)), Num8(Byte(w, 1)), Num8(Byte(w, 2)), Num8(Byte(w, 3)));
  }

  lemma LabelShiftParts(num: Word)
    ensures Unsigned(Shifted(num)) ==
      0x1000_0000 * (Num8(Byte(num, 1)) % 16) + 0x10_0000 * Num8(Byte(num, 2)) + 0x1000 * Num8(Byte(num, 3))
  {
    var a, b, c, d := Byte(num, 0), Byte(num, 1), Byte(num, 2), Byte(num, 3);
    WordBytes(num);
    Word4Is(a, b, c, d);
    LabelShiftSum(a, b, c, d);
    LowNibble(b);
    hide Byte, Word4;
  }

  lemma LabelShiftNumber(num: Word)
    ensures Unsigned(Shifted(num)) == 0x1000 * (Unsigned(num) % 0x10_0000)
  {
    hide Byte, Num8, Unsigned, Shifted;
    LabelShiftParts(num);
    WordNumber(num);
    ByteRange(Byte(num, 1));
    ByteRange(Byte(num, 2));
    ByteRange(Byte(num, 3));
    TwentyBits(Unsigned(num), Num8(Byte(num, 0)), Num8(Byte(num, 1)), Num8(Byte(num, 2)), Num8(Byte(num, 3)));
  }

  lemma {:induction false} OffNumber(i: nat)
    ensures Unsigned(Off(i)) == 4 * i % WORDS
  {
    SmallNumbers();
    hide Unsigned, Plus;
    if i > 0 {
      OffNumber(i - 1);
      SumNumber(Off(i - 1), 4);
      SumMod(4 * (i - 1), Unsigned(Off(i - 1)), 4);
    }
  }

  lemma PlaceNumber(k: Word, n: nat, i: nat)
    requires Unsigned(k) == n
    ensures Unsigned(Plus(k, Off(i))) == Place(n, i)
  {
    hide Unsigned, Plus;
    OffNumber(i);
    SumNumber(k, Off(i));
    SumMod(4 * i, Unsigned(Off(i)), n);
  }

  lemma FieldNumber(size: Size, k: Word, mask: Word, v: Word, p: Packet)
    ensures LoadAbs(size, k, p).Some? <==> Within(Unsigned(k), size, p)
    ensures LoadAbs(size, k, p).Some? ==> Unsigned(LoadAbs(size, k, p).value) == NumberAt(size, Unsigned(k), p)
    ensures FieldIs(size, k, mask, v, p) <==>
      LoadAbs(size, k, p).Some? && Unsigned(Masked(LoadAbs(size, k, p).value, mask)) == Unsigned(v)
  {
    hide Unsigned, LoadAbs, Masked, BigEndian;
    UnsignedRange(p.buflen);
    LoadNumber(size, k, p);
    if LoadAbs(size, k, p).Some? && Unsigned(Masked(LoadAbs(size, k, p).value, mask)) == Unsigned(v) {
      UnsignedSame(Masked(LoadAbs(size, k, p).value, mask), v);
    }
  }

  lemma TypeFound(k: Word, w: Word, a: nat, b: nat, p: Packet)
    requires a < 256 && b < 256 && Unsigned(w) == 0x100 * a + b
    ensures FieldIs(H, k, ALL_ONES, w, p) <==> TwoBytes(Unsigned(k), a, b, p)
  {
    hide Unsigned, LoadAbs, Masked, FieldIs, ByteAt;
    FieldNumber(H, k, ALL_ONES, w, p);
    UnsignedRange(p.buflen);
    if Within(Unsigned(k), H, p) {
      MaskedAll(LoadAbs(H, k, p).value);
      ByteAtRange(p, Unsigned(k));
      ByteAtRange(p, Unsigned(k) + 1);
    }
  }

  lemma IdFound(k: Word, num: Word, p: Packet)
    ensures FieldIs(H, k, 0xfff, num, p) <==>
      Within(Unsigned(k), H, p) && NumberAt(H, Unsigned(k), p) % 0x1000 == Unsigned(num)
  {
    hide Unsigned, LoadAbs, Masked, FieldIs, NumberAt, Within;
    FieldNumber(H, k, 0xfff, num, p);
    if LoadAbs(H, k, p).Some? {
      TwelveNumber(LoadAbs(H, k, p).value);
    }
  }

  lemma BottomFound(k: Word, p: Packet)
    ensures FieldIs(B, k, 1, 0, p) <==>
      Within(Unsigned(k), B, p) && NumberAt(B, Unsigned(k), p) % 2 == 0
  {
    Zeros();
    hide Unsigned, LoadAbs, Masked, FieldIs, NumberAt, Within;
    FieldNumber(B, k, 1, 0, p);
    if LoadAbs(B, k, p).Some? {
      LastNumberBit(LoadAbs(B, k, p).value);
    }
  }

  lemma NamedIs(num: Word)
    ensures Given(num) <==> Named(num)
  {
    Thousands();
    hide Unsigned;
    WordOrder(0x80000000, num);
  }

  lemma Thousands()
    ensures Unsigned(0x80000000) == 0x8000_0000 && Unsigned(12) == 12 && Unsigned(14) == 14 && Unsigned(16) == 16
    ensures Unsigned(ETHERTYPE_8021Q) == 0x100 * 0x81 + 0x00 && Unsigned(ETHERTYPE_8021QINQ) == 0x100 * 0x91 + 0x00
    ensures Unsigned(ETHERTYPE_MPLS) == 0x100 * 0x88 + 0x47
  {
  }

  // ---------------------------------------------------- what the code looks at

  /** The length of n tags or label entries, in 32 bits. */
  function Off(n: nat): Word {
    if n == 0 then 0 else Plus(Off(n - 1), 4)
  }

  predicate Given(num: Word) {
    num < 0x80000000
  }

  /** Term i holds, by the fields that its test loads. */
  predicate TermFound(ts: seq<Term>, i: nat, p: Packet)
    requires i < |ts|
  {
    match ts[i]
    case Vlan(num) =>
      && (FieldIs(H, Plus(12, Off(i)), ALL_ONES, ETHERTYPE_8021Q, p)
        || FieldIs(H, Plus(12, Off(i)), ALL_ONES, ETHERTYPE_8021QINQ, p))
      && (Given(num) ==> FieldIs(H, Plus(14, Off(i)), 0xfff, num, p))
    case Mpls(num) =>
      && (if i > 0 && ts[i - 1].Mpls? then FieldIs(B, Plus(16, Off(i - 1)), 1, 0, p)
          else FieldIs(H, Plus(12, Off(i)), ALL_ONES, ETHERTYPE_MPLS, p))
      && (Given(num) ==> FieldIs(W, Plus(14, Off(i)), 0xfffff000, Shifted(num), p))
  }

  /** What its test loads was captured. */
  predicate TermLoads(ts: seq<Term>, i: nat, p: Packet)
    requires i < |ts|
  {
    match ts[i]
    case Vlan(num) =>
      LoadAbs(H, Plus(12, Off(i)), p).Some? && (Given(num) ==> LoadAbs(H, Plus(14, Off(i)), p).Some?)
    case Mpls(num) =>
      && (if i > 0 && ts[i - 1].Mpls? then LoadAbs(B, Plus(16, Off(i - 1)), p).Some?
          else LoadAbs(H, Plus(12, Off(i)), p).Some?)
      && (Given(num) ==> LoadAbs(W, Plus(14, Off(i)), p).Some?)
  }

  ghost predicate TestsFound(f: Filter, ts: seq<Term>, i: nat)
    requires i < |ts|
  {
    && SelfContained(f) && FieldTests(f)
    && forall p {:trigger Accepts(f, p)} {:trigger Decided(f, p)} ::
         (Accepts(f, p) <==> TermFound(ts, i, p)) && (TermLoads(ts, i, p) ==> Decided(f, p))
  }

  lemma LabelFound(i: nat, num: Word, p: Packet)
    ensures FieldIs(W, Plus(14, Off(i)), 0xfffff000, Shifted(num), p) <==> LabelIs(i, num, p)
    ensures LoadAbs(W, Plus(14, Off(i)), p).Some? <==> Within(Place(14, i), W, p)
  {
    Thousands();
    var k := Plus(14, Off(i));
    hide Unsigned, LoadAbs, Plus, Off, Place, NumberAt, Within, Masked, Shifted, FieldIs;
    PlaceNumber(14, 14, i);
    FieldNumber(W, k, 0xfffff000, Shifted(num), p);
    LabelShiftNumber(num);
    if LoadAbs(W, k, p).Some? {
      LabelMaskNumber(LoadAbs(W, k, p).value);
    }
  }

  lemma VlanFound(ts: seq<Term>, i: nat, p: Packet)
    requires i < |ts| && ts[i].Vlan?
    ensures TermFound(ts, i, p) <==> TermHolds(ts, i, p)
    ensures TermWhole(ts, i, p) ==> TermLoads(ts, i, p)
  {
    Thousands();
    hide Unsigned, LoadAbs, Plus, Off, Place, NumberAt, Within, FieldIs, TwoBytes, Given, Named, Masked;
    PlaceNumber(12, 12, i);
    PlaceNumber(14, 14, i);
    NamedIs(ts[i].num);
    FieldNumber(H, Plus(12, Off(i)), ALL_ONES, 0, p);
    FieldNumber(H, Plus(14, Off(i)), ALL_ONES, 0, p);
    TypeFound(Plus(12, Off(i)), ETHERTYPE_8021Q, 0x81, 0x00, p);
    TypeFound(Plus(12, Off(i)), ETHERTYPE_8021QINQ, 0x91, 0x00, p);
    IdFound(Plus(14, Off(i)), ts[i].num, p);
  }

  lemma MplsFound(ts: seq<Term>, i: nat, p: Packet)
    requires i < |ts| && ts[i].Mpls?
    ensures TermFound(ts, i, p) <==> TermHolds(ts, i, p)
    ensures TermWhole(ts, i, p) ==> TermLoads(ts, i, p)
  {
    Thousands();
    hide Unsigned, LoadAbs, Plus, Off, Place, NumberAt, Within, FieldIs, TwoBytes, Given, Named, Masked, Shifted,
      LabelIs;
    NamedIs(ts[i].num);
    LabelFound(i, ts[i].num, p);
    if i > 0 && ts[i - 1].Mpls? {
      PlaceNumber(16, 16, i - 1);
      FieldNumber(B, Plus(16, Off(i - 1)), ALL_ONES, 0, p);
      BottomFound(Plus(16, Off(i - 1)), p);
    } else {
      PlaceNumber(12, 12, i);
      FieldNumber(H, Plus(12, Off(i)), ALL_ONES, 0, p);
      TypeFound(Plus(12, Off(i)), ETHERTYPE_MPLS, 0x88, 0x47, p);
    }
  }

  /** The fields hold what the bytes of the frame say. */
  lemma FoundHolds(f: Filter, ts: seq<Term>, i: nat)
    requires i < |ts| && TestsFound(f, ts, i)
    ensures TestsTerm(f, ts, i)
  {
    hide SelfContained, FieldTests, Accepts, Decided, TermFound, TermHolds, TermLoads, TermWhole;
    forall p
      ensures TermFound(ts, i, p) <==> TermHolds(ts, i, p)
      ensures TermWhole(ts, i, p) ==> TermLoads(ts, i, p)
    {
      match ts[i]
      case Vlan(_) => VlanFound(ts, i, p);
      case Mpls(_) => MplsFound(ts, i, p);
    }
  }

  /** Only tags may come before a tag. */
  ghost predicate TagsFirst(ts: seq<Term>) {
    forall i, j | 0 <= i < j < |ts| && ts[j].Vlan? :: ts[i].Vlan?
  }

  function Tags(ts: seq<Term>): (n: nat)
    ensures n <= |ts|
  {
    if ts == [] then 0 else Tags(ts[..|ts| - 1]) + (if ts[|ts| - 1].Vlan? then 1 else 0)
  }

  lemma {:induction false} TagsAll(ts: seq<Term>)
    ensures Tags(ts) == |ts| <==> forall i | 0 <= i < |ts| :: ts[i].Vlan?
  {
    if ts != [] {
      TagsAll(ts[..|ts| - 1]);
      assert forall i | 0 <= i < |ts| - 1 :: ts[i] == ts[..|ts| - 1][i];
    }
  }

  // -------------------------------------------------------------- arithmetic

  lemma {:induction false} OffPlus(a: nat, b: nat)
    ensures Plus(Off(a), Off(b)) == Off(a + b)
  {
    hide Plus;
    if b == 0 {
      PlusZero(Off(a));
    } else {
      OffPlus(a, b - 1);
      PlusAssoc(Off(a), Off(b - 1), 4);
      assert Off(a + b) == Plus(Off(a + (b - 1)), 4);
    }
  }

  lemma StepForthBack(y: Word)
    ensures Minus(Plus(y, 4), 4) == y
  {
    hide *;
    SubMoves(Plus(y, 4), 4, y);
  }

  lemma PlusSixteen(x: Word, y: Word)
    ensures Plus(Plus(14, x), Plus(y, 2)) == Plus(16, Plus(x, y))
  {
    assert Plus(14, 2) == 16;
    hide *;
    PlusAssoc(14, x, Plus(y, 2));
    PlusAssoc(x, y, 2);
    PlusTurn(Plus(x, y), 2);
    PlusAssoc(14, 2, Plus(x, y));
  }

  /** The third byte of the label entry before. */
  lemma EntryBefore(x: Word, y: Word)
    ensures Plus(Plus(14, x), Plus(Minus(Plus(y, 4), 4), 2)) == Plus(16, Plus(x, y))
  {
    hide *;
    StepForthBack(y);
    PlusSixteen(x, y);
  }

  // --------------------------------------------------------------- the offsets

  class Offsets {
    var off_linktype: Word
    var off_linkpl: Word
    var off_nl: Word
    var vlan_stack_depth: nat
    var label_stack_depth: nat

    /** The offsets behind the tags and label entries of ts. */
    ghost predicate Behind(ts: seq<Term>)
      reads this
    {
      && TagsFirst(ts)
      && vlan_stack_depth == Tags(ts) && label_stack_depth == |ts| - Tags(ts)
      && off_linktype == Plus(12, Off(vlan_stack_depth))
      && off_linkpl == Plus(14, Off(vlan_stack_depth))
      && off_nl == Off(label_stack_depth)
    }

    /** init_linktype for Ethernet */
    constructor ()
      ensures Behind([])
    {
      off_linktype, off_linkpl, off_nl := 12, 14, 0;
      vlan_stack_depth, label_stack_depth := 0, 0;
      new;
      PlusZero(12);
      PlusZero(14);
    }

    /** gen_linktype, for an Ethernet type and outside a label stack. */
    method GenLinktype(proto: Word) returns (f: Filter)
      ensures SelfContained(f) && FieldTests(f)
      ensures forall p :: Verdict(f, p, Zero()) == FieldSays(H, off_linktype, ALL_ONES, JEQ, false, proto, p)
      ensures forall p :: Accepts(f, p) <==> FieldIs(H, off_linktype, ALL_ONES, proto, p)
      ensures forall p :: Decided(f, p) <==> LoadAbs(H, off_linktype, p).Some?
    {
      f := GenMcmp(off_linktype, H, proto, ALL_ONES);
    }

    /** gen_vlan; None is the error after a label stack. */
    method GenVlan(num: Word, ghost ts: seq<Term>) returns (r: Option<Filter>)
      requires Behind(ts)
      modifies this
      ensures r.None? <==> !TagsFirst(ts + [Vlan(num)])
      ensures r.Some? ==> Behind(ts + [Vlan(num)]) && TestsTerm(r.value, ts + [Vlan(num)], |ts|)
    {
      hide SelfContained, Accepts, Decided, FieldIs, LoadAbs, Verdict, Plus, Given, TestsTerm;
      VlanAllowed(ts, num);
      if label_stack_depth > 0 {
        return None;
      }
      var n := vlan_stack_depth;
      var b0 := GenLinktype(ETHERTYPE_8021Q);
      var b1 := GenLinktype(ETHERTYPE_8021QINQ);
      SameField(b0, b1, off_linktype);
      b0 := Or(b0, b1);
      if Given(num) {
        PlusZero(off_linkpl);
        b1 := GenMcmp(Plus(off_linkpl, off_nl), H, num, 0xfff);
        BothAccept(b0, b1);
        b0 := And(b0, b1);
      }
      PlusAssoc(14, Off(n), 4);
      PlusAssoc(12, Off(n), 4);
      off_linkpl := Plus(off_linkpl, 4);
      off_linktype := Plus(off_linktype, 4);
      vlan_stack_depth := vlan_stack_depth + 1;
      r := Some(b0);
      FoundHolds(b0, ts + [Vlan(num)], |ts|);
    }

    /** gen_mpls before the label: the bottom-of-stack bit of the entry before,
        or the Ethernet type. */
    method GenMplsBefore(ghost ts: seq<Term>) returns (f: Filter)
      requires Behind(ts)
      ensures SelfContained(f) && FieldTests(f)
      ensures TestsFound(f, ts + [Mpls(0xffffffff)], |ts|)
    {
      hide SelfContained, Accepts, Decided, FieldIs, LoadAbs, FieldTests, Verdict, Plus, Masked, Minus;
      MplsAllowed(ts, 0xffffffff);
      assert !Given(0xffffffff);
      hide Given;
      if label_stack_depth > 0 {
        EntryBefore(Off(vlan_stack_depth), Off(label_stack_depth - 1));
        OffPlus(vlan_stack_depth, label_stack_depth - 1);
        f := GenMcmp(Plus(off_linkpl, Plus(Minus(off_nl, 4), 2)), B, 0, 1);
      } else {
        f := GenLinktype(ETHERTYPE_MPLS);
      }
    }

    /** gen_mpls */
    method GenMpls(num: Word, ghost ts: seq<Term>) returns (f: Filter)
      requires Behind(ts)
      modifies this
      ensures Behind(ts + [Mpls(num)]) && TestsTerm(f, ts + [Mpls(num)], |ts|)
    {
      hide SelfContained, Accepts, Decided, FieldIs, LoadAbs, FieldTests, Verdict, Plus, Masked, Minus, Shifted,
        TestsTerm;
      MplsAllowed(ts, num);
      f := GenMplsBefore(ts);
      assert !Given(0xffffffff);
      hide Given;
      OffPlus(vlan_stack_depth, label_stack_depth);
      PlusAssoc(14, off_linktype, off_nl);
      if Given(num) {
        PlusAssoc(14, Off(vlan_stack_depth), off_nl);
        var b1 := GenMcmp(Plus(off_linkpl, off_nl), W, Shifted(num), 0xfffff000);
        BothAccept(f, b1);
        f := And(f, b1);
      }
      FoundHolds(f, ts + [Mpls(num)], |ts|);
      off_nl := Plus(off_nl, 4);
      label_stack_depth := label_stack_depth + 1;
    }

    /** The terms of a filter joined by `and`. */
    method GenTerms(ts: seq<Term>) returns (r: Option<Filter>)
      requires ts != [] && Behind([])
      modifies this
      ensures r.None? <==> !TagsFirst(ts)
      ensures r.Some? ==> TestsTerms(r.value, ts)
    {
      hide TestsTerm, TestsTerms, TagsFirst, Tags;
      r := None;
      for k := 0 to |ts|
        invariant Behind(ts[..k]) && (r.None? <==> k == 0)
        invariant r.Some? ==> TestsTerms(r.value, ts[..k])
      {
        assert ts[..k + 1] == ts[..k] + [ts[k]];
        var b := GenTerm(ts[k], ts[..k]);
        if b.None? {
          PrefixTagsFirst(ts, k + 1);
          return None;
        }
        r := AndTerm(r, b.value, ts, k);
      }
      assert ts[..|ts|] == ts;
      BehindTagsFirst(ts);
    }

    lemma BehindTagsFirst(ts: seq<Term>)
      requires Behind(ts)
      ensures TagsFirst(ts)
    {
    }

    method GenTerm(t: Term, ghost ts: seq<Term>) returns (b: Option<Filter>)
      requires Behind(ts)
      modifies this
      ensures b.None? <==> !TagsFirst(ts + [t])
      ensures b.Some? ==> Behind(ts + [t]) && TestsTerm(b.value, ts + [t], |ts|)
    {
      hide TestsTerm, TagsFirst, Tags;
      match t
      case Vlan(num) =>
        b := GenVlan(num, ts);
      case Mpls(num) =>
        var f := GenMpls(num, ts);
        b := Some(f);
        BehindTagsFirst(ts + [t]);
    }
  }

  /** gen_and with the terms before, if there are any */
  method AndTerm(r: Option<Filter>, f: Filter, ghost ts: seq<Term>, ghost k: nat) returns (r': Option<Filter>)
    requires k < |ts| && (r.None? <==> k == 0) && TestsTerm(f, ts[..k] + [ts[k]], k)
    requires r.Some? ==> TestsTerms(r.value, ts[..k])
    ensures r'.Some? && TestsTerms(r'.value, ts[..k + 1])
  {
    hide SelfContained, Accepts, Decided, FieldTests, TermHolds, TermWhole;
    assert ts[..k + 1] == ts[..k] + [ts[k]];
    StackedNext(ts, k);
    WholeNext(ts, k);
    if r.Some? {
      BothAccept(r.value, f);
    } else {
      assert ts[..k] == [];
    }
    hide Stacked, Whole;
    r' := Joined(r, f);
  }

  /** A term looks at itself and at the one before. */
  lemma SameTerm(us: seq<Term>, vs: seq<Term>, i: nat, p: Packet)
    requires i < |us| && i < |vs| && us[i] == vs[i] && (i > 0 ==> us[i - 1] == vs[i - 1])
    ensures TermHolds(us, i, p) == TermHolds(vs, i, p) && TermWhole(us, i, p) == TermWhole(vs, i, p)
  {
    hide TwoBytes, LabelIs, Within, NumberAt, Place, Named;
  }

  lemma WholeNext(ts: seq<Term>, k: nat)
    requires k < |ts|
    ensures forall p :: Whole(ts[..k + 1], p) ==> Whole(ts[..k], p) && TermWhole(ts[..k + 1], k, p)
  {
    var us, vs := ts[..k + 1], ts[..k];
    hide TermWhole;
    forall i, p | 0 <= i < k ensures TermWhole(us, i, p) <==> TermWhole(vs, i, p) {
      SameTerm(us, vs, i, p);
    }
  }

  lemma PrefixTagsFirst(ts: seq<Term>, k: nat)
    requires k <= |ts|
    ensures TagsFirst(ts) ==> TagsFirst(ts[..k])
  {
  }

  lemma StackedNext(ts: seq<Term>, k: nat)
    requires k < |ts|
    ensures forall p :: Stacked(ts[..k + 1], p) <==> Stacked(ts[..k], p) && TermHolds(ts[..k + 1], k, p)
  {
    forall p ensures Stacked(ts[..k + 1], p) <==> Stacked(ts[..k], p) && TermHolds(ts[..k + 1], k, p) {
      StackedSplit(ts, k, p);
    }
  }

  lemma StackedSplit(ts: seq<Term>, k: nat, p: Packet)
    requires k < |ts|
    ensures Stacked(ts[..k + 1], p) <==> Stacked(ts[..k], p) && TermHolds(ts[..k + 1], k, p)
  {
    hide TermHolds;
    var us, vs := ts[..k + 1], ts[..k];
    forall i | 0 <= i < k ensures TermHolds(us, i, p) <==> TermHolds(vs, i, p) {
      SameTerm(us, vs, i, p);
    }
    if Stacked(us, p) {
      forall i | 0 <= i < |vs| ensures TermHolds(vs, i, p) {
        assert TermHolds(us, i, p);
      }
    } else if Stacked(vs, p) && TermHolds(us, k, p) {
      forall i | 0 <= i < |us| ensures TermHolds(us, i, p) {
        assert i < k ==> TermHolds(vs, i, p);
      }
    }
  }

  lemma VlanAllowed(ts: seq<Term>, num: Word)
    requires TagsFirst(ts)
    ensures TagsFirst(ts + [Vlan(num)]) <==> Tags(ts) == |ts|
    ensures Tags(ts + [Vlan(num)]) == Tags(ts) + 1
  {
    TagsAll(ts);
    assert (ts + [Vlan(num)])[..|ts|] == ts;
    if TagsFirst(ts + [Vlan(num)]) {
      forall i | 0 <= i < |ts| ensures ts[i].Vlan? {
        assert (ts + [Vlan(num)])[|ts|].Vlan?;
      }
    }
  }

  lemma MplsAllowed(ts: seq<Term>, num: Word)
    requires TagsFirst(ts)
    ensures TagsFirst(ts + [Mpls(num)]) && Tags(ts + [Mpls(num)]) == Tags(ts)
    ensures Tags(ts) < |ts| <==> |ts| > 0 && ts[|ts| - 1].Mpls?
  {
    var us := ts + [Mpls(num)];
    assert us[..|ts|] == ts && us[|ts|].Mpls?;
    forall i, j | 0 <= i < j < |us| && us[j].Vlan? ensures us[i].Vlan? {
      assert ts[j].Vlan?;
    }
    LastTerm(ts);
  }

  lemma LastTerm(ts: seq<Term>)
    requires TagsFirst(ts)
    ensures Tags(ts) < |ts| <==> |ts| > 0 && ts[|ts| - 1].Mpls?
  {
    TagsAll(ts);
    hide Tags;
    if |ts| > 0 && ts[|ts| - 1].Vlan? {
      forall i | 0 <= i < |ts| ensures ts[i].Vlan? {
        assert ts[|ts| - 1].Vlan?;
      }
    }
  }

  /** Two tests of the same field, one or the other. */
  lemma SameField(l: Filter, r: Filter, k: Word)
    requires SelfContained(l) && SelfContained(r)
    requires forall p :: Verdict(l, p, Zero()) == FieldSays(H, k, ALL_ONES, JEQ, false, ETHERTYPE_8021Q, p)
    requires forall p :: Verdict(r, p, Zero()) == FieldSays(H, k, ALL_ONES, JEQ, false, ETHERTYPE_8021QINQ, p)
    ensures SelfContained(Or(l, r)) && forall p :: Accepts(Or(l, r), p) <==> Accepts(l, p) || Accepts(r, p)
    ensures forall p | Decided(l, p) :: Decided(Or(l, r), p)
  {
    hide SelfContained, Verdict, LoadAbs, Holds, Masked;
    forall p ensures Verdict(l, p, Zero()).None? <==> Verdict(r, p, Zero()).None? {
    }
    EitherAccepts(l, r);
  }

  /** The whole compiler on such a filter: the array accepts exactly the frames
      with these tags and label entries. */
  method CompileTerms(ts: seq<Term>, snaplen: Word) returns (r: Option<array<Insn>>)
    requires ts != []
    ensures r.None? <==> !TagsFirst(ts)
    ensures r.Some? && snaplen != 0 ==>
      forall p, st :: Interp(r.value[..], 0, p, st) == Done(Some(snaplen)) <==> Stacked(ts, p)
  {
    var o := new Offsets();
    var f := o.GenTerms(ts);
    if f.None? {
      return None;
    }
    var prog := Pcap.Compile(f.value, snaplen);
    r := Some(prog);
    hide Stacked, TagsFirst;
    if snaplen != 0 {
      forall p, st ensures Interp(prog[..], 0, p, st) == Done(Some(snaplen)) <==> Stacked(ts, p) {
        assert Interp(prog[..], 0, p, st) == Done(Returned(Eval(f.value, p, st), snaplen));
        ReturnedAccepts(f.value, p, st, snaplen);
        assert Accepts(f.value, p) <==> Stacked(ts, p);
      }
    }
  }

  /** The same with any number of rounds of the optimizer: the frames that have
      them are still accepted, and other frames that are long enough for all the
      terms are still refused. */
  method CompileTermsOptimized(ts: seq<Term>, snaplen: Word, hash: ValueTable.Key -> nat, rounds: nat, safe: bool)
      returns (r: Option<array<Insn>>, ghost f: Filter, ghost root: nat, ghost steps: seq<Hazards.Step>)
    requires ts != []
    ensures r.None? <==> !TagsFirst(ts)
    ensures r.Some? ==> forall p :: Accepts(f, p) <==> Stacked(ts, p)
    ensures r.Some? ==>
      Pcap.Followed(f, snaplen, r.value[..], root, steps) && Rounds.Optimized(steps, root, rounds, safe)
    ensures r.Some? ==> forall p, st | Stacked(ts, p) :: Interp(r.value[..], 0, p, st) == Done(Some(snaplen))
    ensures r.Some? ==>
      forall p, st | Whole(ts, p) && !Stacked(ts, p) :: Interp(r.value[..], 0, p, st) == Done(Some(0))
  {
    var o := new Offsets();
    var g := o.GenTerms(ts);
    if g.None? {
      return None, Prim([], JmpK(JEQ, 0)), 0, [];
    }
    f := g.value;
    Pcap.FieldsFresh(f);
    var ok, prog, entry;
    ok, prog, entry, steps := Pcap.CompileOptimized(g.value, snaplen, hash, rounds, safe);
    r, root := Some(prog), entry;
    hide Stacked, Whole, TagsFirst, Pcap.Fresh, Pcap.AllFields, Pcap.Followed, Rounds.Optimized;
    forall p, st | Stacked(ts, p) || Whole(ts, p)
      ensures Interp(prog[..], 0, p, st) == Done(Some(if Stacked(ts, p) then snaplen else 0))
    {
      assert Accepts(f, p) <==> Stacked(ts, p);
      assert Whole(ts, p) ==> Decided(f, p);
      DecidedReturned(f, p, st, snaplen);
    }
  }

  lemma DecidedReturned(f: Filter, p: Packet, st: State, snaplen: Word)
    requires SelfContained(f) && (Accepts(f, p) || Decided(f, p))
    ensures Eval(f, p, st).Exit? && Returned(Eval(f, p, st), snaplen) == Some(if Accepts(f, p) then snaplen else 0)
  {
    assert Verdict(f, p, st) == Verdict(f, p, Zero());
    hide Eval;
  }

  lemma ReturnedAccepts(f: Filter, p: Packet, st: State, snaplen: Word)
    requires SelfContained(f) && snaplen != 0
    ensures Returned(Eval(f, p, st), snaplen) == Some(snaplen) <==> Accepts(f, p)
  {
    assert Verdict(f, p, st) == Verdict(f, p, Zero());
    hide Eval;
  }
}
