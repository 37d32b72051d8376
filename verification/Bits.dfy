/** Words bit by bit, and what the machine's operations, tests and loads are in
    numbers. */
module Bits {
  import opened Basics
  import opened Bpf
  import opened Numbers

  /** Bit i of a number, the lowest being bit 0. */
  predicate Bit(n: nat, i: nat) {
    if i == 0 then n % 2 == 1 else Bit(n / 2, i - 1)
  }

  function Half(w: Word): Word { w >> 1 }

  predicate Odd(w: Word) { w & 1 == 1 }

  function Both(a: Word, b: Word): Word { a & b }

  function Either(a: Word, b: Word): Word { a | b }

  function Differ(a: Word, b: Word): Word { a ^ b }

  lemma HalfSum(a: bv8, b: bv8, c: bv8, d: bv8)
    ensures (((a as Word) << 24) | ((b as Word) << 16) | ((c as Word) << 8) | (d as Word)) as int ==
      2 * (((((a as Word) << 24) | ((b as Word) << 16) | ((c as Word) << 8) | (d as Word)) >> 1) as int)
      + (((((a as Word) << 24) | ((b as Word) << 16) | ((c as Word) << 8) | (d as Word)) & 1) as int)
  {
  }

  lemma LowBit(w: Word)
    ensures (w & 1) as int == if w & 1 == 1 then 1 else 0
  {
  }

  lemma HalfNumber(w: Word)
    ensures Unsigned(Half(w)) == Unsigned(w) / 2 && (Odd(w) <==> Unsigned(w) % 2 == 1)
  {
    var a, b, c, d := Byte(w, 0), Byte(w, 1), Byte(w, 2), Byte(w, 3);
    WordBytes(w);
    Word4Is(a, b, c, d);
    HalfSum(a, b, c, d);
    LowBit(w);
    hide Byte, Word4;
  }

  lemma OddBoth(a: Word, b: Word)
    ensures Odd(Both(a, b)) <==> Odd(a) && Odd(b)
  {
  }

  lemma OddEither(a: Word, b: Word)
    ensures Odd(Either(a, b)) <==> Odd(a) || Odd(b)
  {
  }

  lemma OddDiffer(a: Word, b: Word)
    ensures Odd(Differ(a, b)) <==> Odd(a) != Odd(b)
  {
  }

  lemma HalfBoth(a: Word, b: Word)
    ensures Half(Both(a, b)) == Both(Half(a), Half(b))
  {
  }

  lemma HalfEither(a: Word, b: Word)
    ensures Half(Either(a, b)) == Either(Half(a), Half(b))
  {
  }

  lemma HalfDiffer(a: Word, b: Word)
    ensures Half(Differ(a, b)) == Differ(Half(a), Half(b))
  {
  }

  /** And, or and exclusive or work on each bit. */
  lemma {:induction false} EachBit(a: Word, b: Word, i: nat)
    ensures Bit(Unsigned(Both(a, b)), i) <==> Bit(Unsigned(a), i) && Bit(Unsigned(b), i)
    ensures Bit(Unsigned(Either(a, b)), i) <==> Bit(Unsigned(a), i) || Bit(Unsigned(b), i)
    ensures Bit(Unsigned(Differ(a, b)), i) <==> Bit(Unsigned(a), i) != Bit(Unsigned(b), i)
    decreases i
  {
    hide Unsigned, Half, Odd, Both, Either, Differ;
    HalfNumber(a);
    HalfNumber(b);
    HalfNumber(Both(a, b));
    HalfNumber(Either(a, b));
    HalfNumber(Differ(a, b));
    if i == 0 {
      OddBoth(a, b);
      OddEither(a, b);
      OddDiffer(a, b);
    } else {
      HalfBoth(a, b);
      HalfEither(a, b);
      HalfDiffer(a, b);
      EachBit(Half(a), Half(b), i - 1);
    }
  }

  lemma {:induction false} NoBit(i: nat)
    ensures !Bit(0, i)
  {
    if i > 0 {
      NoBit(i - 1);
    }
  }

  /** A number that is not 0 has a bit. */
  lemma {:induction false} SomeBit(n: nat) returns (i: nat)
    requires n > 0
    ensures Bit(n, i)
  {
    if n % 2 == 1 {
      i := 0;
    } else {
      i := SomeBit(n / 2);
      i := i + 1;
    }
  }

  // ------------------------------------------------------------------ shifts

  function Power(n: nat): nat {
    if n == 0 then 1 else 2 * Power(n - 1)
  }

  function LeftBy(a: Word, n: Word): Word
    requires n < 32
  {
    a << n
  }

  function RightBy(a: Word, n: Word): Word
    requires n < 32
  {
    a >> n
  }

  lemma LeftOne(a: Word, n: Word)
    requires n < 31
    ensures LeftBy(a, n + 1) == Plus(LeftBy(a, n), LeftBy(a, n))
  {
  }

  lemma RightOne(a: Word, n: Word)
    requires n < 31
    ensures RightBy(a, n + 1) == Half(RightBy(a, n))
  {
  }

  lemma ByNothing(a: Word)
    ensures LeftBy(a, 0) == a && RightBy(a, 0) == a
  {
  }

  lemma Shorter(n: Word)
    requires 0 < Unsigned(n) < 32
    ensures n < 32 && n - 1 < 31 && n - 1 + 1 == n && Unsigned(n - 1) == Unsigned(n) - 1
  {
    OneBack(n);
    LastNumber(n);
    Thirty();
    hide Unsigned, Plus, Minus;
    WordOrder(32, n);
    WordOrder(31, n - 1);
  }

  lemma Thirty()
    ensures Unsigned(31) == 31 && Unsigned(32) == 32
  {
  }

  lemma ShiftRange(n: Word)
    ensures n < 32 <==> Unsigned(n) < 32
  {
    Thirty();
    hide Unsigned;
    WordOrder(32, n);
  }

  lemma DoubleMod(x: int, k: int)
    requires k == x % WORDS
    ensures (k + k) % WORDS == (2 * x) % WORDS
  {
  }

  lemma Doubled(m: int, p: int, k: int)
    requires k == (m * p) % WORDS
    ensures (k + k) % WORDS == (m * (2 * p)) % WORDS
  {
    DoubleMod(m * p, k);
    assert m * (2 * p) == 2 * (m * p);
  }

  lemma {:induction false} LeftNumber(a: Word, n: Word)
    requires n < 32
    ensures Unsigned(LeftBy(a, n)) == (Unsigned(a) * Power(Unsigned(n))) % WORDS
    decreases Unsigned(n)
  {
    ShiftRange(n);
    UnsignedZero(n);
    UnsignedRange(a);
    if Unsigned(n) == 0 {
      ByNothing(a);
      SmallMod(Unsigned(a));
    } else {
      Shorter(n);
      LeftNumber(a, n - 1);
      LeftOne(a, n - 1);
      hide Unsigned, LeftBy, Plus;
      SumNumber(LeftBy(a, n - 1), LeftBy(a, n - 1));
      Doubled(Unsigned(a), Power(Unsigned(n) - 1), Unsigned(LeftBy(a, n - 1)));
    }
  }

  lemma Halved(m: int, p: int)
    requires p > 0
    ensures m / p / 2 == m / (2 * p)
  {
    var q, r := m / p, m % p;
    var h, s := q / 2, q % 2;
    assert m == p * q + r && q == 2 * h + s;
    assert p * q == (2 * p) * h + p * s;
    assert m == (2 * p) * h + (p * s + r) && 0 <= p * s + r < 2 * p;
    QuotientIs(m, 2 * p, h, p * s + r);
  }

  lemma {:induction false} PowerPositive(n: nat)
    ensures Power(n) > 0
  {
    if n > 0 {
      PowerPositive(n - 1);
    }
  }

  lemma {:induction false} RightNumber(a: Word, n: Word)
    requires n < 32
    ensures Power(Unsigned(n)) > 0 && Unsigned(RightBy(a, n)) == Unsigned(a) / Power(Unsigned(n))
    decreases Unsigned(n)
  {
    ShiftRange(n);
    UnsignedZero(n);
    PowerPositive(Unsigned(n));
    if Unsigned(n) == 0 {
      ByNothing(a);
    } else {
      Shorter(n);
      RightNumber(a, n - 1);
      RightOne(a, n - 1);
      hide Unsigned, RightBy, Half, Odd;
      HalfNumber(RightBy(a, n - 1));
      Halved(Unsigned(a), Power(Unsigned(n) - 1));
    }
  }

  // -------------------------------------------------------------- operations

  /** c is what the operation makes of a and b. */
  ghost predicate Calculates(op: AluOp, a: nat, b: nat, c: nat) {
    match op
    case ADD => c == (a + b) % WORDS
    case SUB => c == (a - b) % WORDS
    case MUL => c == (a * b) % WORDS
    case DIV => b > 0 && c == a / b
    case MOD => b > 0 && c == a % b
    case AND => forall i: nat :: Bit(c, i) <==> Bit(a, i) && Bit(b, i)
    case OR => forall i: nat :: Bit(c, i) <==> Bit(a, i) || Bit(b, i)
    case XOR => forall i: nat :: Bit(c, i) <==> Bit(a, i) != Bit(b, i)
    case LSH => c == (a * Power(b)) % WORDS
    case RSH => Power(b) > 0 && c == a / Power(b)
  }

  lemma BitwiseNumbers(a: Word, b: Word)
    ensures Calculates(AND, Unsigned(a), Unsigned(b), Unsigned(Both(a, b)))
    ensures Calculates(OR, Unsigned(a), Unsigned(b), Unsigned(Either(a, b)))
    ensures Calculates(XOR, Unsigned(a), Unsigned(b), Unsigned(Differ(a, b)))
  {
    hide Unsigned, Both, Either, Differ;
    forall i: nat
      ensures Bit(Unsigned(Both(a, b)), i) <==> Bit(Unsigned(a), i) && Bit(Unsigned(b), i)
      ensures Bit(Unsigned(Either(a, b)), i) <==> Bit(Unsigned(a), i) || Bit(Unsigned(b), i)
      ensures Bit(Unsigned(Differ(a, b)), i) <==> Bit(Unsigned(a), i) != Bit(Unsigned(b), i)
    {
      EachBit(a, b, i);
    }
  }

  lemma AluIs(op: AluOp, a: Word, b: Word)
    ensures op == AND ==> Alu(op, a, b) == Some(Both(a, b))
    ensures op == OR ==> Alu(op, a, b) == Some(Either(a, b))
    ensures op == XOR ==> Alu(op, a, b) == Some(Differ(a, b))
    ensures op == LSH && b < 32 ==> Alu(op, a, b) == Some(LeftBy(a, b))
    ensures op == RSH && b < 32 ==> Alu(op, a, b) == Some(RightBy(a, b))
  {
  }

  /** The operations of the machine in numbers; it rejects the packet at a
      division by 0, and at a shift by 32 or more. */
  lemma AluNumbers(op: AluOp, a: Word, b: Word)
    ensures Alu(op, a, b).None? <==>
            (op in {DIV, MOD} && Unsigned(b) == 0) || (op in {LSH, RSH} && Unsigned(b) >= 32)
    ensures Alu(op, a, b).Some? ==> Calculates(op, Unsigned(a), Unsigned(b), Unsigned(Alu(op, a, b).value))
  {
    AluIs(op, a, b);
    ShiftRange(b);
    UnsignedZero(b);
    hide Unsigned, Plus, Minus, Times, Quotient, Remainder, LeftBy, RightBy, Both, Either, Differ, Power, Bit;
    BitwiseNumbers(a, b);
    SumNumber(a, b);
    DifferenceNumber(a, b);
    ProductNumber(a, b);
    if b != 0 {
      QuotientNumber(a, b);
      RemainderNumber(a, b);
    }
    if b < 32 {
      LeftNumber(a, b);
      RightNumber(a, b);
    }
  }

  ghost predicate Meet(a: nat, b: nat) {
    exists i: nat :: Bit(a, i) && Bit(b, i)
  }

  ghost predicate Compares(t: Test, a: nat, b: nat) {
    match t
    case JEQ => a == b
    case JGT => a > b
    case JGE => a >= b
    case JSET => Meet(a, b)
  }

  lemma CommonBit(a: Word, b: Word)
    ensures Both(a, b) != 0 <==> Meet(Unsigned(a), Unsigned(b))
  {
    UnsignedZero(Both(a, b));
    hide Unsigned, Both;
    var n := Unsigned(Both(a, b));
    if n > 0 {
      var i := SomeBit(n);
      EachBit(a, b, i);
    }
    forall i: nat | Bit(Unsigned(a), i) && Bit(Unsigned(b), i) ensures n > 0 {
      EachBit(a, b, i);
      NoBit(i);
    }
  }

  predicate Larger(a: Word, b: Word) { a > b }

  lemma LargerNumber(a: Word, b: Word)
    ensures Larger(a, b) <==> Unsigned(a) > Unsigned(b)
  {
    hide Unsigned;
    WordOrder(a, b);
  }

  lemma SetIs(a: Word, b: Word)
    ensures Holds(JSET, a, b) <==> Both(a, b) != 0
  {
  }

  lemma EqualIs(a: Word, b: Word)
    ensures Holds(JEQ, a, b) <==> a == b
  {
  }

  lemma LargerIs(a: Word, b: Word)
    ensures Holds(JGT, a, b) <==> Larger(a, b)
  {
  }

  lemma NotLargerIs(a: Word, b: Word)
    ensures Holds(JGE, a, b) <==> !Larger(b, a)
  {
  }

  /** The tests of the machine compare numbers, or look for a common bit. */
  lemma HoldsNumbers(t: Test, a: Word, b: Word)
    ensures Holds(t, a, b) <==> Compares(t, Unsigned(a), Unsigned(b))
  {
    hide Unsigned, Both, Holds, Larger;
    match t
    case JEQ =>
      EqualIs(a, b);
      WordOrder(a, b);
    case JGT =>
      LargerIs(a, b);
      LargerNumber(a, b);
    case JGE =>
      NotLargerIs(a, b);
      LargerNumber(b, a);
    case JSET =>
      SetIs(a, b);
      CommonBit(a, b);
  }

  // ------------------------------------------------------------------- loads

  /** Byte n of a packet, as a number. */
  function ByteAt(p: Packet, n: nat): nat
    requires n < WORDS
  {
    Num8(p.byteAt(n as Word))
  }

  lemma OffsetIs(k: Word, i: Word)
    requires Unsigned(k) + Unsigned(i) < WORDS
    ensures (Unsigned(k) + Unsigned(i)) as Word == Plus(k, i)
  {
    hide Unsigned, Plus;
    SumNumber(k, i);
    SmallMod(Unsigned(k) + Unsigned(i));
    NumberOf(Unsigned(k) + Unsigned(i));
    UnsignedSame((Unsigned(k) + Unsigned(i)) as Word, Plus(k, i));
  }

  lemma NoWrap(k: Word, l: Word)
    requires Unsigned(k) <= Unsigned(l)
    ensures Unsigned(Minus(l, k)) == Unsigned(l) - Unsigned(k)
  {
    hide Unsigned, Minus;
    DifferenceNumber(l, k);
    UnsignedRange(l);
    SmallMod(Unsigned(l) - Unsigned(k));
  }

  lemma PastIs(k: Word, n: Word, l: Word)
    ensures Past(k, n, l) <==> Larger(k, l) || Larger(n, Minus(l, k))
  {
  }

  /** n bytes at offset k run past the end. */
  lemma PastNumber(k: Word, n: Word, l: Word)
    ensures Past(k, n, l) <==> Unsigned(k) + Unsigned(n) > Unsigned(l)
  {
    PastIs(k, n, l);
    hide Unsigned, Minus, Past, Larger;
    LargerNumber(k, l);
    LargerNumber(n, Minus(l, k));
    if Unsigned(k) <= Unsigned(l) {
      NoWrap(k, l);
    }
  }

  /** How many bytes a load reads. */
  function Width(size: Size): nat {
    match size
    case W => 4
    case H => 2
    case B => 1
  }

  /** The number that the bytes at offset n make, the first byte on top. */
  function BigEndian(size: Size, p: Packet, n: nat): nat
    requires n + Width(size) <= WORDS
  {
    match size
    case W => 0x100_0000 * ByteAt(p, n) + 0x1_0000 * ByteAt(p, n + 1) + 0x100 * ByteAt(p, n + 2) + ByteAt(p, n + 3)
    case H => 0x100 * ByteAt(p, n) + ByteAt(p, n + 1)
    case B => ByteAt(p, n)
  }

  lemma SmallNumbers()
    ensures Unsigned(0) == 0 && Unsigned(1) == 1 && Unsigned(2) == 2 && Unsigned(3) == 3 && Unsigned(4) == 4
  {
  }

  lemma FirstOffset(k: Word)
    ensures Plus(k, 0) == k
  {
  }

  lemma OneByte(k: Word, i: Word, n: nat, p: Packet)
    requires Unsigned(i) == n && Unsigned(k) + n < WORDS
    ensures ByteAt(p, Unsigned(k) + n) == Num8(p.byteAt(Plus(k, i)))
  {
    hide Unsigned, Plus, Num8;
    OffsetIs(k, i);
  }

  lemma FirstOne(k: Word, p: Packet)
    ensures Unsigned(k) < WORDS && ByteAt(p, Unsigned(k)) == Num8(p.byteAt(k))
  {
    FirstOffset(k);
    SmallNumbers();
    hide Unsigned, Plus, Num8;
    UnsignedRange(k);
    OneByte(k, 0, 0, p);
  }

  lemma LoadWordIs(k: Word, p: Packet)
    ensures LoadAbs(W, k, p) == if Past(k, 4, p.buflen) then None
      else Some(Word4(p.byteAt(k), p.byteAt(Plus(k, 1)), p.byteAt(Plus(k, 2)), p.byteAt(Plus(k, 3))))
  {
    hide Past, Word4, Plus;
  }

  lemma LoadHalfIs(k: Word, p: Packet)
    ensures LoadAbs(H, k, p) == if Past(k, 2, p.buflen) then None else Some(Word2(p.byteAt(k), p.byteAt(Plus(k, 1))))
  {
    hide Past, Word2, Plus;
  }

  lemma OutsideIs(k: Word, l: Word)
    ensures Outside(k, l) <==> !Larger(l, k)
  {
  }

  lemma LoadByteIs(k: Word, p: Packet)
    ensures LoadAbs(B, k, p) == if Larger(p.buflen, k) then Some(Word1(p.byteAt(k))) else None
  {
    OutsideIs(k, p.buflen);
    hide Past, Word1, Plus, Outside, Larger;
  }

  /** A load succeeds if and only if all its bytes were captured, and puts them
      together in network byte order. */
  lemma LoadNumber(size: Size, k: Word, p: Packet)
    ensures LoadAbs(size, k, p).Some? <==> Unsigned(k) + Width(size) <= Unsigned(p.buflen)
    ensures LoadAbs(size, k, p).Some? ==>
      Unsigned(k) + Width(size) <= WORDS && Unsigned(LoadAbs(size, k, p).value) == BigEndian(size, p, Unsigned(k))
  {
    SmallNumbers();
    LoadWordIs(k, p);
    LoadHalfIs(k, p);
    LoadByteIs(k, p);
    hide Unsigned, Plus, Num8, Past, Word4, Word2, Word1, ByteAt, LoadAbs, Larger;
    PastNumber(k, 4, p.buflen);
    PastNumber(k, 2, p.buflen);
    LargerNumber(p.buflen, k);
    UnsignedRange(p.buflen);
    if LoadAbs(size, k, p).Some? {
      FirstOne(k, p);
      if Width(size) >= 2 {
        OneByte(k, 1, 1, p);
      }
      if Width(size) == 4 {
        OneByte(k, 2, 2, p);
        OneByte(k, 3, 3, p);
      }
      Word4Number(p.byteAt(k), p.byteAt(Plus(k, 1)), p.byteAt(Plus(k, 2)), p.byteAt(Plus(k, 3)));
      Word2Number(p.byteAt(k), p.byteAt(Plus(k, 1)));
      Word1Number(p.byteAt(k));
    }
  }

  /** An indexed load is the load at the sum of both offsets, if that lies in the
      packet. */
  lemma IndexedNumber(size: Size, k: Word, x: Word, p: Packet)
    ensures LoadInd(size, k, x, p).Some? <==> Unsigned(k) + Unsigned(x) + Width(size) <= Unsigned(p.buflen)
    ensures LoadInd(size, k, x, p).Some? ==>
      Unsigned(k) + Unsigned(x) + Width(size) <= WORDS
      && Unsigned(LoadInd(size, k, x, p).value) == BigEndian(size, p, Unsigned(k) + Unsigned(x))
  {
    hide Unsigned, Plus, Past, LoadAbs, BigEndian;
    PastNumber(k, x, p.buflen);
    UnsignedRange(p.buflen);
    if Unsigned(k) + Unsigned(x) <= Unsigned(p.buflen) {
      SumNumber(k, x);
      SmallMod(Unsigned(k) + Unsigned(x));
      LoadNumber(size, Plus(k, x), p);
    }
  }

  lemma LowNibble(b: bv8)
    ensures Unsigned(HeaderLength(b)) == 4 * (Num8(b) % 16)
  {
  }

  lemma MshIs(k: Word, p: Packet)
    ensures LoadMsh(k, p) == if Larger(p.buflen, k) then Some(HeaderLength(p.byteAt(k))) else None
  {
    OutsideIs(k, p.buflen);
    hide HeaderLength, Outside, Larger;
  }

  /** ldxb 4*([k]&0xf) */
  lemma MshNumber(k: Word, p: Packet)
    ensures LoadMsh(k, p).Some? <==> Unsigned(k) < Unsigned(p.buflen)
    ensures LoadMsh(k, p).Some? ==>
      Unsigned(k) < WORDS && Unsigned(LoadMsh(k, p).value) == 4 * (ByteAt(p, Unsigned(k)) % 16)
  {
    MshIs(k, p);
    hide Unsigned, Num8, HeaderLength, ByteAt, LoadMsh, Larger;
    LargerNumber(p.buflen, k);
    UnsignedRange(k);
    FirstOne(k, p);
    LowNibble(p.byteAt(k));
  }
}
