/** Words as numbers: what the machine loads, computes and compares. */
module Numbers {
  import opened Basics
  import opened Bpf

  const WORDS: nat := 0x1_0000_0000

  function Num8(b: bv8): nat { b as nat }

  // ----------------------------------------------------------------- bytes

  /** Byte i of a word, the top one first. */
  function Byte(w: Word, i: nat): bv8
    requires i < 4
  {
    if i == 0 then (w >> 24) as bv8
    else if i == 1 then ((w >> 16) & 0xff) as bv8
    else if i == 2 then ((w >> 8) & 0xff) as bv8
    else (w & 0xff) as bv8
  }

  lemma WordBytes(w: Word)
    ensures w == Word4(Byte(w, 0), Byte(w, 1), Byte(w, 2), Byte(w, 3))
  {
  }

  lemma Word4Is(a: bv8, b: bv8, c: bv8, d: bv8)
    ensures Word4(a, b, c, d) == ((a as Word) << 24) | ((b as Word) << 16) | ((c as Word) << 8) | (d as Word)
  {
  }

  lemma BytesSum(a: bv8, b: bv8, c: bv8, d: bv8)
    ensures (((a as Word) << 24) | ((b as Word) << 16) | ((c as Word) << 8) | (d as Word)) as int ==
      0x100_0000 * (a as int) + 0x1_0000 * (b as int) + 0x100 * (c as int) + (d as int)
  {
  }

  /** Four bytes are a number with the first on top. */
  lemma Word4Number(a: bv8, b: bv8, c: bv8, d: bv8)
    ensures Unsigned(Word4(a, b, c, d)) == 0x100_0000 * Num8(a) + 0x1_0000 * Num8(b) + 0x100 * Num8(c) + Num8(d)
  {
    Word4Is(a, b, c, d);
    BytesSum(a, b, c, d);
    hide Word4;
  }

  lemma Word2Is(a: bv8, b: bv8)
    ensures Word2(a, b) == ((a as Word) << 8) | (b as Word)
  {
  }

  lemma TwoBytesSum(a: bv8, b: bv8)
    ensures (((a as Word) << 8) | (b as Word)) as int == 0x100 * (a as int) + (b as int)
  {
  }

  lemma Word2Number(a: bv8, b: bv8)
    ensures Unsigned(Word2(a, b)) == 0x100 * Num8(a) + Num8(b)
  {
    Word2Is(a, b);
    TwoBytesSum(a, b);
    hide Word2;
  }

  lemma Word1Number(a: bv8)
    ensures Unsigned(Word1(a)) == Num8(a)
  {
  }

  lemma WordNumber(w: Word)
    ensures Unsigned(w) == 0x100_0000 * Num8(Byte(w, 0)) + 0x1_0000 * Num8(Byte(w, 1)) + 0x100 * Num8(Byte(w, 2))
                      + Num8(Byte(w, 3))
  {
    WordBytes(w);
    Word4Number(Byte(w, 0), Byte(w, 1), Byte(w, 2), Byte(w, 3));
    hide Word4, Byte, Unsigned, Num8;
  }

  lemma ByteRange(b: bv8)
    ensures Num8(b) < 256
  {
  }

  lemma ByteOrder(a: bv8, b: bv8)
    ensures (a > b <==> Num8(a) > Num8(b)) && (a == b <==> Num8(a) == Num8(b)) && Num8(a) < 256
  {
  }

  // ---------------------------------------------------------------- the order

  lemma FirstByte(a: bv8, b: bv8, c: bv8, d: bv8, a': bv8, b': bv8, c': bv8, d': bv8)
    requires a > a'
    ensures ((a as Word) << 24) | ((b as Word) << 16) | ((c as Word) << 8) | (d as Word)
            > ((a' as Word) << 24) | ((b' as Word) << 16) | ((c' as Word) << 8) | (d' as Word)
  {
  }

  lemma SecondByte(a: bv8, b: bv8, c: bv8, d: bv8, b': bv8, c': bv8, d': bv8)
    requires b > b'
    ensures ((a as Word) << 24) | ((b as Word) << 16) | ((c as Word) << 8) | (d as Word)
            > ((a as Word) << 24) | ((b' as Word) << 16) | ((c' as Word) << 8) | (d' as Word)
  {
  }

  lemma ThirdByte(a: bv8, b: bv8, c: bv8, d: bv8, c': bv8, d': bv8)
    requires c > c'
    ensures ((a as Word) << 24) | ((b as Word) << 16) | ((c as Word) << 8) | (d as Word)
            > ((a as Word) << 24) | ((b as Word) << 16) | ((c' as Word) << 8) | (d' as Word)
  {
  }

  lemma LastByte(a: bv8, b: bv8, c: bv8, d: bv8, d': bv8)
    requires d > d'
    ensures ((a as Word) << 24) | ((b as Word) << 16) | ((c as Word) << 8) | (d as Word)
            > ((a as Word) << 24) | ((b as Word) << 16) | ((c as Word) << 8) | (d' as Word)
  {
  }

  lemma BytesAbove(a: bv8, b: bv8, c: bv8, d: bv8, a': bv8, b': bv8, c': bv8, d': bv8)
    requires a > a' || (a == a' && (b > b' || (b == b' && (c > c' || (c == c' && d > d')))))
    ensures Word4(a, b, c, d) > Word4(a', b', c', d')
  {
    Word4Is(a, b, c, d);
    Word4Is(a', b', c', d');
    hide Word4;
    if a > a' {
      FirstByte(a, b, c, d, a', b', c', d');
    } else if b > b' {
      SecondByte(a, b, c, d, b', c', d');
    } else if c > c' {
      ThirdByte(a, b, c, d, c', d');
    } else {
      LastByte(a, b, c, d, d');
    }
  }

  lemma Above(v: Word, w: Word)
    requires Unsigned(v) > Unsigned(w)
    ensures v > w
  {
    hide *;
    var a, b, c, d := Byte(v, 0), Byte(v, 1), Byte(v, 2), Byte(v, 3);
    var a', b', c', d' := Byte(w, 0), Byte(w, 1), Byte(w, 2), Byte(w, 3);
    WordNumber(v);
    WordNumber(w);
    ByteOrder(a, a');
    ByteOrder(b, b');
    ByteOrder(c, c');
    ByteOrder(d, d');
    BytesAbove(a, b, c, d, a', b', c', d');
    WordBytes(v);
    WordBytes(w);
  }

  lemma NotBoth(v: Word, w: Word)
    ensures v > w ==> !(w > v) && v != w
  {
  }

  /** Words are compared as numbers. */
  lemma WordOrder(v: Word, w: Word)
    ensures v > w <==> Unsigned(v) > Unsigned(w)
    ensures v == w <==> Unsigned(v) == Unsigned(w)
  {
    hide *;
    NotBoth(v, w);
    NotBoth(w, v);
    if Unsigned(v) > Unsigned(w) {
      Above(v, w);
    } else if Unsigned(w) > Unsigned(v) {
      Above(w, v);
    } else {
      UnsignedSame(v, w);
    }
  }

  // ------------------------------------------------------------- adding one

  lemma LastUp(a: bv8, b: bv8, c: bv8, d: bv8)
    requires d < 255
    ensures (((a as Word) << 24) | ((b as Word) << 16) | ((c as Word) << 8) | (d as Word)) + 1
            == ((a as Word) << 24) | ((b as Word) << 16) | ((c as Word) << 8) | ((d + 1) as Word)
  {
  }

  lemma ThirdUp(a: bv8, b: bv8, c: bv8)
    requires c < 255
    ensures (((a as Word) << 24) | ((b as Word) << 16) | ((c as Word) << 8) | 0xff) + 1
            == ((a as Word) << 24) | ((b as Word) << 16) | (((c + 1) as Word) << 8) | 0
  {
  }

  lemma SecondUp(a: bv8, b: bv8)
    requires b < 255
    ensures (((a as Word) << 24) | ((b as Word) << 16) | (0xff << 8) | 0xff) + 1
            == ((a as Word) << 24) | (((b + 1) as Word) << 16) | (0 << 8) | 0
  {
  }

  lemma FirstUp(a: bv8)
    requires a < 255
    ensures (((a as Word) << 24) | (0xff << 16) | (0xff << 8) | 0xff) + 1
            == (((a + 1) as Word) << 24) | (0 << 16) | (0 << 8) | 0
  {
  }

  lemma ByteUp(d: bv8)
    ensures d != 255 ==> d < 255 && Num8(d + 1) == Num8(d) + 1 && Num8(d) != 255
    ensures Num8(0) == 0 && Num8(255) == 255
  {
  }

  lemma BytesUp(a: bv8, b: bv8, c: bv8, d: bv8)
    ensures Word4(a, b, c, d) + 1 ==
            if d != 255 then Word4(a, b, c, d + 1)
            else if c != 255 then Word4(a, b, c + 1, 0)
            else if b != 255 then Word4(a, b + 1, 0, 0)
            else if a != 255 then Word4(a + 1, 0, 0, 0) else 0
  {
    Word4Is(a, b, c, d);
    ByteUp(a);
    ByteUp(b);
    ByteUp(c);
    ByteUp(d);
    hide Word4;
    if d != 255 {
      LastUp(a, b, c, d);
      Word4Is(a, b, c, d + 1);
    } else if c != 255 {
      ThirdUp(a, b, c);
      Word4Is(a, b, c + 1, 0);
    } else if b != 255 {
      SecondUp(a, b);
      Word4Is(a, b + 1, 0, 0);
    } else if a != 255 {
      FirstUp(a);
      Word4Is(a + 1, 0, 0, 0);
    }
  }

  lemma NextSum(n: nat, a: nat, b: nat, c: nat, d: nat)
    requires a < 256 && b < 256 && c < 256 && d < 256 && n == 0x100_0000 * a + 0x1_0000 * b + 0x100 * c + d
    ensures (n + 1) % WORDS ==
            if d != 255 then 0x100_0000 * a + 0x1_0000 * b + 0x100 * c + (d + 1)
            else if c != 255 then 0x100_0000 * a + 0x1_0000 * b + 0x100 * (c + 1)
            else if b != 255 then 0x100_0000 * a + 0x1_0000 * (b + 1)
            else if a != 255 then 0x100_0000 * (a + 1) else 0
  {
  }

  lemma UpNumber(a: bv8, b: bv8, c: bv8, d: bv8)
    ensures Unsigned(Word4(a, b, c, d) + 1) ==
            if Num8(d) != 255 then 0x100_0000 * Num8(a) + 0x1_0000 * Num8(b) + 0x100 * Num8(c) + (Num8(d) + 1)
            else if Num8(c) != 255 then 0x100_0000 * Num8(a) + 0x1_0000 * Num8(b) + 0x100 * (Num8(c) + 1)
            else if Num8(b) != 255 then 0x100_0000 * Num8(a) + 0x1_0000 * (Num8(b) + 1)
            else if Num8(a) != 255 then 0x100_0000 * (Num8(a) + 1) else 0
  {
    BytesUp(a, b, c, d);
    hide Word4, Unsigned, Num8;
    ByteUp(a);
    ByteUp(b);
    ByteUp(c);
    ByteUp(d);
    Zeros();
    if d != 255 {
      Word4Number(a, b, c, d + 1);
    } else if c != 255 {
      Word4Number(a, b, c + 1, 0);
    } else if b != 255 {
      Word4Number(a, b + 1, 0, 0);
    } else if a != 255 {
      Word4Number(a + 1, 0, 0, 0);
    }
  }

  lemma NextNumber(w: Word)
    ensures Unsigned(w + 1) == (Unsigned(w) + 1) % WORDS
  {
    hide Byte, Word4, Unsigned, Num8;
    WordBytes(w);
    WordNumber(w);
    UpNumber(Byte(w, 0), Byte(w, 1), Byte(w, 2), Byte(w, 3));
    ByteRange(Byte(w, 0));
    ByteRange(Byte(w, 1));
    ByteRange(Byte(w, 2));
    ByteRange(Byte(w, 3));
    NextSum(Unsigned(w), Num8(Byte(w, 0)), Num8(Byte(w, 1)), Num8(Byte(w, 2)), Num8(Byte(w, 3)));
  }

  lemma Zeros()
    ensures Unsigned(0) == 0 && Unsigned(1) == 1 && Unsigned(ALL_ONES) == WORDS - 1
  {
  }

  // ------------------------------------------------------------- arithmetic

  lemma OneBack(b: Word)
    ensures Plus(b - 1, 1) == b && Minus(b, 1) == b - 1
  {
  }

  lemma SumBack(a: Word, b: Word)
    ensures Plus(Plus(a, b - 1), 1) == Plus(a, b) && Plus(a, 0) == a
  {
  }

  lemma ProductBack(a: Word, b: Word)
    ensures Plus(Times(a, b - 1), a) == Times(a, b) && Times(a, 0) == 0
  {
  }

  lemma DifferenceBack(a: Word, b: Word)
    ensures Plus(Minus(a, b), b) == a
  {
    PlusMinus(a, b);
    assert Minus(a, b) == a - b;
    hide Plus, Minus;
  }

  lemma NextPlus(w: Word)
    ensures Unsigned(Plus(w, 1)) == (Unsigned(w) + 1) % WORDS
  {
    hide Unsigned;
    NextNumber(w);
  }

  lemma LastNumber(b: Word)
    requires Unsigned(b) > 0
    ensures Unsigned(Minus(b, 1)) == Unsigned(b) - 1
  {
    OneBack(b);
    hide Unsigned, Plus, Minus;
    NextPlus(Minus(b, 1));
    UnsignedRange(Minus(b, 1));
  }

  lemma PlusOne(m: int, n: int, k: int)
    requires k == (m + (n - 1)) % WORDS
    ensures (k + 1) % WORDS == (m + n) % WORDS
  {
  }

  lemma MinusIs(d: int, m: int, n: int)
    requires 0 <= d < WORDS && 0 <= m < WORDS && m == (d + n) % WORDS
    ensures d == (m - n) % WORDS
  {
  }

  lemma SumMod(x: int, k: int, m: int)
    requires k == x % WORDS
    ensures (k + m) % WORDS == (x + m) % WORDS
  {
  }

  lemma OneMore(m: int, n: int)
    ensures m * (n - 1) + m == m * n
  {
  }

  lemma TimesOne(m: int, n: int, k: int)
    requires k == (m * (n - 1)) % WORDS
    ensures (k + m) % WORDS == (m * n) % WORDS
  {
    OneMore(m, n);
    SumMod(m * (n - 1), k, m);
  }

  lemma SmallMod(n: int)
    requires 0 <= n < WORDS
    ensures n % WORDS == n
  {
  }

  /** Sums, differences and products wrap around at 2^32. */
  lemma {:induction false} SumNumber(a: Word, b: Word)
    ensures Unsigned(Plus(a, b)) == (Unsigned(a) + Unsigned(b)) % WORDS
    decreases Unsigned(b)
  {
    OneBack(b);
    SumBack(a, b);
    hide Unsigned, Plus, Minus;
    UnsignedZero(b);
    UnsignedRange(a);
    if Unsigned(b) > 0 {
      LastNumber(b);
      SumNumber(a, Minus(b, 1));
      NextPlus(Plus(a, Minus(b, 1)));
      PlusOne(Unsigned(a), Unsigned(b), Unsigned(Plus(a, Minus(b, 1))));
    } else {
      SmallMod(Unsigned(a));
    }
  }

  lemma DifferenceNumber(a: Word, b: Word)
    ensures Unsigned(Minus(a, b)) == (Unsigned(a) - Unsigned(b)) % WORDS
  {
    DifferenceBack(a, b);
    hide Unsigned, Plus, Minus;
    SumNumber(Minus(a, b), b);
    UnsignedRange(a);
    UnsignedRange(Minus(a, b));
    MinusIs(Unsigned(Minus(a, b)), Unsigned(a), Unsigned(b));
  }

  lemma {:induction false} ProductNumber(a: Word, b: Word)
    ensures Unsigned(Times(a, b)) == (Unsigned(a) * Unsigned(b)) % WORDS
    decreases Unsigned(b)
  {
    OneBack(b);
    ProductBack(a, b);
    hide Unsigned, Plus, Minus, Times;
    UnsignedZero(b);
    if Unsigned(b) == 0 {
      Zeros();
    } else {
      LastNumber(b);
      ProductNumber(a, Minus(b, 1));
      SumNumber(Times(a, Minus(b, 1)), a);
      TimesOne(Unsigned(a), Unsigned(b), Unsigned(Times(a, Minus(b, 1))));
    }
  }

  /** Some word stands for each number. */
  lemma {:induction false} WordOf(n: nat) returns (w: Word)
    requires n < WORDS
    ensures Unsigned(w) == n
  {
    hide Unsigned;
    Zeros();
    if n == 0 {
      w := 0;
    } else {
      var v := WordOf(n - 1);
      NextNumber(v);
      SmallMod(n);
      w := v + 1;
    }
  }

  lemma NumberOf(n: nat)
    requires n < WORDS
    ensures Unsigned(n as Word) == n
  {
    var w := WordOf(n);
    assert (w as int) as Word == w;
  }

  lemma QuotientNumber(a: Word, b: Word)
    requires b != 0
    ensures Unsigned(b) > 0 && Unsigned(Quotient(a, b)) == Unsigned(a) / Unsigned(b)
  {
    UnsignedZero(b);
    UnsignedRange(a);
    QuotientBound(Unsigned(a), Unsigned(b));
    NumberOf(Unsigned(a) / Unsigned(b));
  }

  lemma RemainderNumber(a: Word, b: Word)
    requires b != 0
    ensures Unsigned(b) > 0 && Unsigned(Remainder(a, b)) == Unsigned(a) % Unsigned(b)
  {
    hide Unsigned;
    UnsignedZero(b);
    UnsignedRange(b);
    NumberOf(Unsigned(a) % Unsigned(b));
  }
}
