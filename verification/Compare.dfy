/** Tests of packet fields: gen_ncmp, and gen_bcmp for a run of bytes. */
module Compare {
  import opened Basics
  import opened Bpf
  import opened Numbers
  import opened Bits
  import opened Codegen

  /** What a filter says of a packet; None when a load rejects it. */
  function Verdict(f: Filter, p: Packet, st: State): Option<bool> {
    match Eval(f, p, st)
    case Reject => None
    case Exit(taken, _) => Some(taken)
  }

  /** The registers a filter starts with make no difference to it. */
  ghost predicate SelfContained(f: Filter) {
    forall p, st :: Verdict(f, p, st) == Verdict(f, p, Zero())
  }

  predicate Accepts(f: Filter, p: Packet) {
    Verdict(f, p, Zero()) == Some(true)
  }

  /** No load rejects the packet on its way through the filter. */
  predicate Decided(f: Filter, p: Packet) {
    Verdict(f, p, Zero()).Some?
  }

  function Masked(w: Word, mask: Word): Word { w & mask }

  lemma MaskedAll(w: Word)
    ensures Masked(w, ALL_ONES) == w
  {
  }

  lemma AndMasks(w: Word, mask: Word)
    ensures Alu(AluOp.AND, w, mask) == Some(Masked(w, mask))
  {
  }

  /** What the test of a masked field says of a packet. */
  function FieldSays(size: Size, k: Word, mask: Word, test: Test, reverse: bool, v: Word, p: Packet): Option<bool> {
    match LoadAbs(size, k, p)
    case None => None
    case Some(w) => Some(Holds(test, Masked(w, mask), v) != reverse)
  }

  function Statements(size: Size, k: Word, mask: Word): seq<Stmt> {
    if mask == ALL_ONES then [LdAbs(size, k)] else [LdAbs(size, k), AluK(AluOp.AND, mask)]
  }

  lemma ExecTail(ss: seq<Stmt>, p: Packet, st: State, st': State)
    requires ss != [] && Exec(ss[0], p, st) == Some(st')
    ensures ExecAll(ss, p, st) == ExecAll(ss[1..], p, st')
  {
    hide Exec;
  }

  /** The load, and the mask if there is one, leave the masked field in the accumulator. */
  lemma StatementsLeave(size: Size, k: Word, mask: Word, p: Packet, st: State, w: Word)
    requires LoadAbs(size, k, p) == Some(w)
    ensures ExecAll(Statements(size, k, mask), p, st) == Some(st[A_ATOM := Masked(w, mask)])
  {
    hide LoadAbs, Alu, Masked;
    var ss := Statements(size, k, mask);
    var st' := st[A_ATOM := w];
    MaskedAll(w);
    AndMasks(w, mask);
    assert Exec(ss[0], p, st) == Some(st');
    if mask == ALL_ONES {
      hide Exec;
      ExecTail(ss, p, st, st');
      assert ss[1..] == [];
    } else {
      var st2 := st[A_ATOM := Masked(w, mask)];
      assert st'[A_ATOM := Masked(w, mask)] == st2;
      assert Exec(ss[1], p, st') == Some(st2);
      hide Exec;
      ExecTail(ss, p, st, st');
      ExecTail(ss[1..], p, st', st2);
      assert ss[1..][1..] == [];
    }
  }

  lemma StatementsReject(size: Size, k: Word, mask: Word, p: Packet, st: State)
    requires LoadAbs(size, k, p) == None
    ensures ExecAll(Statements(size, k, mask), p, st) == None
  {
    hide LoadAbs, Alu;
    assert Exec(Statements(size, k, mask)[0], p, st) == None;
  }

  lemma PrimSays(size: Size, k: Word, mask: Word, test: Test, v: Word, p: Packet, st: State)
    ensures Verdict(Prim(Statements(size, k, mask), JmpK(test, v)), p, st) ==
      FieldSays(size, k, mask, test, false, v, p)
  {
    hide LoadAbs, Statements, Exec, ExecAll, Holds, Masked;
    match LoadAbs(size, k, p)
    case None => StatementsReject(size, k, mask, p, st);
    case Some(w) => StatementsLeave(size, k, mask, p, st, w);
  }

  lemma NotSays(f: Filter, size: Size, k: Word, mask: Word, test: Test, v: Word, p: Packet, st: State)
    requires Verdict(f, p, st) == FieldSays(size, k, mask, test, false, v, p)
    ensures Verdict(Filter.Not(f), p, st) == FieldSays(size, k, mask, test, true, v, p)
  {
    hide LoadAbs, Holds;
  }

  /** The load of a field, perhaps with a mask, and a comparison with a constant
      that is not a test for any bit at all. */
  predicate FieldTest(ss: seq<Stmt>, c: Cond) {
    && ss != [] && ss[0].LdAbs?
      && (forall i | 0 < i < |ss| :: ss[i].AluK? && ss[i].op == AluOp.AND && ss[i].k != ALL_ONES)
    && c.JmpK? && !(c.test == JSET && c.k == ALL_ONES)
  }

  predicate FieldTests(f: Filter) {
    match f
    case Prim(ss, c) => FieldTest(ss, c)
    case And(l, r) => FieldTests(l) && FieldTests(r)
    case Or(l, r) => FieldTests(l) && FieldTests(r)
    case Not(e) => FieldTests(e)
  }

  /** gen_ncmp: the sense is turned round only where there is no opposite test. */
  method GenNcmp(k: Word, size: Size, mask: Word, test: Test, reverse: bool, v: Word) returns (f: Filter)
    ensures forall p, st ::
      Verdict(f, p, st) == FieldSays(size, k, mask, test, reverse && (test == JGT || test == JGE), v, p)
    ensures !(test == JSET && v == ALL_ONES) ==> FieldTests(f)
  {
    hide Verdict, FieldSays;
    var s := [LdAbs(size, k)];
    if mask != ALL_ONES {
      s := s + [AluK(AluOp.AND, mask)];
    }
    assert s == Statements(size, k, mask);
    hide Statements;
    f := Prim(s, JmpK(test, v));
    forall p, st ensures Verdict(f, p, st) == FieldSays(size, k, mask, test, false, v, p) {
      PrimSays(size, k, mask, test, v, p, st);
    }
    if reverse && (test == JGT || test == JGE) {
      ghost var g := f;
      f := Filter.Not(f);
      forall p, st ensures Verdict(f, p, st) == FieldSays(size, k, mask, test, true, v, p) {
        NotSays(g, size, k, mask, test, v, p, st);
      }
    }
  }

  /** All of the field was captured, and masked it is v. */
  predicate FieldIs(size: Size, k: Word, mask: Word, v: Word, p: Packet) {
    var o := LoadAbs(size, k, p);
    o.Some? && Masked(o.value, mask) == v
  }

  /** gen_mcmp; gen_cmp when the mask is all ones. */
  method GenMcmp(k: Word, size: Size, v: Word, mask: Word) returns (f: Filter)
    ensures SelfContained(f) && FieldTests(f)
    ensures forall p :: Verdict(f, p, Zero()) == FieldSays(size, k, mask, JEQ, false, v, p)
    ensures forall p :: Accepts(f, p) <==> FieldIs(size, k, mask, v, p)
    ensures forall p :: Decided(f, p) <==> LoadAbs(size, k, p).Some?
  {
    hide Verdict, LoadAbs;
    f := GenNcmp(k, size, mask, JEQ, false, v);
    assert forall p :: Verdict(f, p, Zero()) == FieldSays(size, k, mask, JEQ, false, v, p);
    forall p, st ensures Verdict(f, p, st) == Verdict(f, p, Zero()) {
      assert Verdict(f, p, st) == FieldSays(size, k, mask, JEQ, false, v, p);
    }
  }

  lemma AndSays(l: Filter, r: Filter, p: Packet, st: State)
    requires SelfContained(l) && SelfContained(r)
    ensures Verdict(And(l, r), p, st) == if Accepts(l, p) then Verdict(r, p, Zero()) else Verdict(l, p, Zero())
  {
    var o := Eval(l, p, st);
    assert Verdict(l, p, st) == Verdict(l, p, Zero());
    if o.Exit? && o.taken {
      assert Verdict(r, p, o.st) == Verdict(r, p, Zero());
    }
  }

  lemma OrSays(l: Filter, r: Filter, p: Packet, st: State)
    requires SelfContained(l) && SelfContained(r)
    ensures Verdict(Or(l, r), p, st) == if Verdict(l, p, Zero()) == Some(false) then Verdict(r, p, Zero())
      else Verdict(l, p, Zero())
  {
    var o := Eval(l, p, st);
    assert Verdict(l, p, st) == Verdict(l, p, Zero());
    if o.Exit? && !o.taken {
      assert Verdict(r, p, o.st) == Verdict(r, p, Zero());
    }
  }

  /** The conjunction accepts what both accept. */
  lemma BothAccept(l: Filter, r: Filter)
    requires SelfContained(l) && SelfContained(r)
    ensures SelfContained(And(l, r)) && forall p :: Accepts(And(l, r), p) <==> Accepts(l, p) && Accepts(r, p)
    ensures FieldTests(l) && FieldTests(r) ==> FieldTests(And(l, r))
    ensures forall p | Decided(l, p) && Decided(r, p) :: Decided(And(l, r), p)
  {
    hide Verdict, SelfContained;
    forall p, st ensures Verdict(And(l, r), p, st) == Verdict(And(l, r), p, Zero()) {
      AndSays(l, r, p, st);
      AndSays(l, r, p, Zero());
    }
    Contained(And(l, r));
    forall p
      ensures Accepts(And(l, r), p) <==> Accepts(l, p) && Accepts(r, p)
      ensures Decided(l, p) && Decided(r, p) ==> Decided(And(l, r), p)
    {
      AndSays(l, r, p, Zero());
    }
  }

  lemma Contained(f: Filter)
    requires forall p, st :: Verdict(f, p, st) == Verdict(f, p, Zero())
    ensures SelfContained(f)
  {
  }

  /** So does the disjunction of two tests that are rejected together. */
  lemma EitherAccepts(l: Filter, r: Filter)
    requires SelfContained(l) && SelfContained(r)
    requires forall p :: Verdict(l, p, Zero()).None? <==> Verdict(r, p, Zero()).None?
    ensures SelfContained(Or(l, r)) && forall p :: Accepts(Or(l, r), p) <==> Accepts(l, p) || Accepts(r, p)
    ensures forall p | Decided(l, p) :: Decided(Or(l, r), p)
  {
    hide Verdict, SelfContained;
    forall p, st ensures Verdict(Or(l, r), p, st) == Verdict(Or(l, r), p, Zero()) {
      OrSays(l, r, p, st);
      OrSays(l, r, p, Zero());
    }
    Contained(Or(l, r));
    forall p
      ensures Accepts(Or(l, r), p) <==> Accepts(l, p) || Accepts(r, p)
      ensures Decided(l, p) ==> Decided(Or(l, r), p)
    {
      OrSays(l, r, p, Zero());
      assert Verdict(l, p, Zero()).None? <==> Verdict(r, p, Zero()).None?;
      match Verdict(l, p, Zero())
      case None =>
      case Some(t) => assert t || !t;
    }
  }

  // ----------------------------------------------------------- runs of bytes

  /** The offset k bytes further on, in 32 bits. */
  function Further(off: Word, k: nat): Word {
    if k == 0 then off else Plus(Further(off, k - 1), 1)
  }

  lemma WrapOne(n: nat)
    ensures (n % WORDS + 1) % WORDS == (n + 1) % WORDS
  {
  }

  lemma {:induction false} FurtherNumber(off: Word, k: nat)
    ensures Unsigned(Further(off, k)) == (Unsigned(off) + k) % WORDS
  {
    hide Unsigned, Plus;
    UnsignedRange(off);
    if k == 0 {
      SmallMod(Unsigned(off));
    } else {
      FurtherNumber(off, k - 1);
      NextPlus(Further(off, k - 1));
      WrapOne(Unsigned(off) + (k - 1));
    }
  }

  /** The n bytes at off lie in the captured part. */
  predicate Fits(off: Word, n: nat, p: Packet) {
    n == 0 || Unsigned(off) + n <= Unsigned(p.buflen)
  }

  /** The loads of the n bytes at off, cut from the back into words, then at most
      one half word and one byte, succeed. */
  ghost predicate Captured(off: Word, n: nat, p: Packet) {
    if n >= 4 then LoadAbs(W, Further(off, n - 4), p).Some? && Captured(off, n - 4, p)
    else if n >= 2 then LoadAbs(H, Further(off, n - 2), p).Some? && Captured(off, n - 2, p)
    else n == 0 || LoadAbs(B, Further(off, 0), p).Some?
  }

  /** The n bytes at off were captured, and are the first n of v. */
  ghost predicate BytesAre(off: Word, v: seq<bv8>, n: nat, p: Packet)
    requires n <= |v|
  {
    UnsignedRange(p.buflen);
    Fits(off, n, p) && forall k | 0 <= k < n :: ByteAt(p, Unsigned(off) + k) == Num8(v[k])
  }

  /** A piece of the last bytes, with the bytes before it. */
  lemma PieceFits(off: Word, n: nat, size: Size, p: Packet)
    requires Width(size) <= n
    ensures Fits(off, n, p) <==>
      LoadAbs(size, Further(off, n - Width(size)), p).Some? && Fits(off, n - Width(size), p)
    ensures Fits(off, n, p) ==> Unsigned(Further(off, n - Width(size))) == Unsigned(off) + (n - Width(size))
  {
    hide Unsigned, LoadAbs, Further;
    LoadNumber(size, Further(off, n - Width(size)), p);
    FurtherNumber(off, n - Width(size));
    UnsignedRange(off);
    UnsignedRange(p.buflen);
    if Unsigned(off) + (n - Width(size)) < WORDS {
      SmallMod(Unsigned(off) + (n - Width(size)));
    }
  }

  /** However the bytes are cut into pieces, the loads succeed if and only if all
      of them were captured; offsets that wrap around never are. */
  lemma {:induction false} CapturedBytes(off: Word, n: nat, p: Packet)
    ensures Captured(off, n, p) <==> Fits(off, n, p)
  {
    hide LoadAbs, Further, Fits;
    if n >= 4 {
      CapturedBytes(off, n - 4, p);
      PieceFits(off, n, W, p);
    } else if n >= 2 {
      CapturedBytes(off, n - 2, p);
      PieceFits(off, n, H, p);
    } else {
      NothingFits(off, p);
      if n == 1 {
        PieceFits(off, 1, B, p);
      }
    }
  }

  lemma NothingFits(off: Word, p: Packet)
    ensures Fits(off, 0, p)
  {
  }

  /** The number that the last bytes of the first n make. */
  function Digits(size: Size, v: seq<bv8>, n: nat): nat
    requires Width(size) <= n <= |v|
  {
    match size
    case W => 0x100_0000 * Num8(v[n - 4]) + 0x1_0000 * Num8(v[n - 3]) + 0x100 * Num8(v[n - 2]) + Num8(v[n - 1])
    case H => 0x100 * Num8(v[n - 2]) + Num8(v[n - 1])
    case B => Num8(v[n - 1])
  }

  lemma SameDigits(a: nat, b: nat, c: nat, d: nat, a': nat, b': nat, c': nat, d': nat)
    requires a < 256 && b < 256 && c < 256 && d < 256 && a' < 256 && b' < 256 && c' < 256 && d' < 256
    ensures 0x100_0000 * a + 0x1_0000 * b + 0x100 * c + d == 0x100_0000 * a' + 0x1_0000 * b' + 0x100 * c' + d' <==>
            a == a' && b == b' && c == c' && d == d'
  {
  }

  lemma ByteAtRange(p: Packet, n: nat)
    requires n < WORDS
    ensures ByteAt(p, n) < 256
  {
    hide Num8;
    ByteRange(p.byteAt(n as Word));
  }

  /** Numbers are the same if and only if their bytes are. */
  lemma DigitsAre(size: Size, off: Word, v: seq<bv8>, n: nat, p: Packet)
    requires Width(size) <= n <= |v| && Unsigned(off) + n <= WORDS
    ensures BigEndian(size, p, Unsigned(off) + (n - Width(size))) == Digits(size, v, n) <==>
      forall k | n - Width(size) <= k < n :: ByteAt(p, Unsigned(off) + k) == Num8(v[k])
  {
    hide Unsigned, Num8, ByteAt;
    forall k | n - Width(size) <= k < n ensures ByteAt(p, Unsigned(off) + k) < 256 && Num8(v[k]) < 256 {
      ByteAtRange(p, Unsigned(off) + k);
      ByteRange(v[k]);
    }
    var o := Unsigned(off);
    match size
    case W =>
      SameDigits(ByteAt(p, o + (n - 4)), ByteAt(p, o + (n - 3)), ByteAt(p, o + (n - 2)), ByteAt(p, o + (n - 1)),
        Num8(v[n - 4]), Num8(v[n - 3]), Num8(v[n - 2]), Num8(v[n - 1]));
    case H =>
      SameDigits(0, 0, ByteAt(p, o + (n - 2)), ByteAt(p, o + (n - 1)), 0, 0, Num8(v[n - 2]), Num8(v[n - 1]));
    case B =>
  }

  lemma FieldWhole(size: Size, k: Word, v: Word, p: Packet)
    ensures FieldIs(size, k, ALL_ONES, v, p) <==> LoadAbs(size, k, p) == Some(v)
  {
    hide LoadAbs;
    match LoadAbs(size, k, p)
    case None =>
    case Some(w) => MaskedAll(w);
  }

  /** What the test of the last piece says about the bytes. */
  lemma LastPiece(off: Word, v: seq<bv8>, n: nat, size: Size, w: Word, p: Packet)
    requires Width(size) <= n <= |v| && Unsigned(w) == Digits(size, v, n)
    ensures BytesAre(off, v, n, p) <==>
      FieldIs(size, Further(off, n - Width(size)), ALL_ONES, w, p) && BytesAre(off, v, n - Width(size), p)
  {
    hide Unsigned, LoadAbs, Further, FieldIs, BigEndian, Digits, Num8, ByteAt, Width;
    var k := Further(off, n - Width(size));
    FieldWhole(size, k, w, p);
    PieceFits(off, n, size, p);
    LoadNumber(size, k, p);
    UnsignedRange(p.buflen);
    WidthSome(size);
    if Fits(off, n, p) {
      DigitsAre(size, off, v, n, p);
      if Unsigned(LoadAbs(size, k, p).value) == Unsigned(w) {
        UnsignedSame(LoadAbs(size, k, p).value, w);
      }
    }
  }

  lemma WidthSome(size: Size)
    ensures 1 <= Width(size) <= 4
  {
  }

  /** With the tests made so far, what is left to test are the first n bytes. */
  ghost predicate Left(b: Option<Filter>, off: Word, v: seq<bv8>, n: nat) {
    && n <= |v| && (b.None? <==> n == |v|)
    && (b.Some? ==> SelfContained(b.value) && FieldTests(b.value))
    && (forall p :: BytesAre(off, v, |v|, p) <==> (b.None? || Accepts(b.value, p)) && BytesAre(off, v, n, p))
    && forall p | Fits(off, |v|, p) :: Fits(off, n, p) && (b.Some? ==> Decided(b.value, p))
  }

  /** gen_and with what there is already */
  function Joined(b: Option<Filter>, tmp: Filter): Option<Filter> {
    Some(if b.None? then tmp else And(b.value, tmp))
  }

  /** tmp is the test for the last piece of the first n bytes. */
  ghost predicate TestsPiece(tmp: Filter, off: Word, v: seq<bv8>, n: nat, m: nat)
    requires m <= n <= |v|
  {
    && SelfContained(tmp) && FieldTests(tmp)
    && (forall p :: BytesAre(off, v, n, p) <==> Accepts(tmp, p) && BytesAre(off, v, m, p))
    && forall p | Fits(off, n, p) :: Fits(off, m, p) && Decided(tmp, p)
  }

  lemma PieceTested(tmp: Filter, off: Word, v: seq<bv8>, n: nat, size: Size, w: Word)
    requires Width(size) <= n <= |v| && Unsigned(w) == Digits(size, v, n)
    requires SelfContained(tmp) && FieldTests(tmp)
    requires forall p :: Accepts(tmp, p) <==> FieldIs(size, Further(off, n - Width(size)), ALL_ONES, w, p)
    requires forall p :: Decided(tmp, p) <==> LoadAbs(size, Further(off, n - Width(size)), p).Some?
    ensures TestsPiece(tmp, off, v, n, n - Width(size))
  {
    WidthSome(size);
    hide SelfContained, Accepts, Decided, FieldIs, BytesAre, LoadAbs, Fits, Width, Unsigned, Digits, FieldTests;
    var k, m := Further(off, n - Width(size)), n - Width(size);
    forall p
      ensures BytesAre(off, v, n, p) <==> Accepts(tmp, p) && BytesAre(off, v, m, p)
      ensures Fits(off, n, p) ==> Fits(off, m, p) && Decided(tmp, p)
    {
      LastPiece(off, v, n, size, w, p);
      PieceFits(off, n, size, p);
      assert Accepts(tmp, p) <==> FieldIs(size, k, ALL_ONES, w, p);
      assert Decided(tmp, p) <==> LoadAbs(size, k, p).Some?;
    }
  }

  lemma LeftNext(b: Option<Filter>, tmp: Filter, off: Word, v: seq<bv8>, n: nat, m: nat)
    requires m < n && Left(b, off, v, n) && TestsPiece(tmp, off, v, n, m)
    ensures Left(Joined(b, tmp), off, v, m)
  {
    hide SelfContained, Accepts, Decided, FieldIs, BytesAre, Fits, FieldTests;
    if b.Some? {
      BothAccept(b.value, tmp);
    }
  }

  /** gen_bcmp: a test for the bytes v at off; none if there are no bytes. */
  method GenBcmp(off: Word, v: seq<bv8>) returns (b: Option<Filter>)
    ensures b.None? <==> v == []
    ensures b.Some? ==> SelfContained(b.value) && FieldTests(b.value)
    ensures b.Some? ==> forall p :: Accepts(b.value, p) <==> BytesAre(off, v, |v|, p)
    ensures b.Some? ==> forall p | Fits(off, |v|, p) :: Decided(b.value, p)
  {
    hide SelfContained, Accepts, Decided, FieldIs, BytesAre, Further, Word4, Word2, Word1, FieldSays, Verdict, Left,
      Fits, Unsigned, Num8;
    var n: nat := |v|;
    b := None;
    LeftAll(off, v);
    while n >= 4
      invariant Left(b, off, v, n) && n <= |v|
    {
      Word4Number(v[n - 4], v[n - 3], v[n - 2], v[n - 1]);
      b := GenPiece(b, off, v, n, W, Word4(v[n - 4], v[n - 3], v[n - 2], v[n - 1]));
      n := n - 4;
    }
    while n >= 2
      invariant Left(b, off, v, n) && n <= |v| && n < 4
    {
      Word2Number(v[n - 2], v[n - 1]);
      b := GenPiece(b, off, v, n, H, Word2(v[n - 2], v[n - 1]));
      n := n - 2;
    }
    if n > 0 {
      Word1Number(v[0]);
      b := GenPiece(b, off, v, n, B, Word1(v[0]));
      n := 0;
    }
    LeftNone(b, off, v);
  }

  /** One piece more, tested in front of those behind it. */
  method GenPiece(b: Option<Filter>, off: Word, v: seq<bv8>, n: nat, size: Size, w: Word)
      returns (b': Option<Filter>)
    requires Width(size) <= n <= |v| && Left(b, off, v, n) && Unsigned(w) == Digits(size, v, n)
    ensures Left(b', off, v, n - Width(size))
  {
    hide SelfContained, Accepts, Decided, FieldIs, FieldSays, Verdict, Left, LoadAbs, Digits, Unsigned, Further;
    var k := Further(off, n - Width(size));
    var tmp := GenMcmp(k, size, w, ALL_ONES);
    PieceTested(tmp, off, v, n, size, w);
    WidthSome(size);
    hide TestsPiece;
    LeftNext(b, tmp, off, v, n, n - Width(size));
    b' := Joined(b, tmp);
  }

  lemma LeftAll(off: Word, v: seq<bv8>)
    ensures Left(None, off, v, |v|)
  {
    hide BytesAre;
  }

  lemma LeftNone(b: Option<Filter>, off: Word, v: seq<bv8>)
    requires Left(b, off, v, 0)
    ensures b.None? <==> v == []
    ensures b.Some? ==> SelfContained(b.value) && FieldTests(b.value)
    ensures b.Some? ==> forall p :: Accepts(b.value, p) <==> BytesAre(off, v, |v|, p)
    ensures b.Some? ==> forall p | Fits(off, |v|, p) :: Decided(b.value, p)
  {
    hide Accepts, SelfContained, Decided;
    forall p ensures BytesAre(off, v, 0, p) {
    }
    hide BytesAre;
  }
}
