/** The packet filter machine: words, packets, statements, branches, and how
    bpf_filter executes them. */
module Bpf {
  import opened Basics

  type Word = bv32

  const BPF_MEMWORDS: nat := 16
  const A_ATOM: nat := 16
  const X_ATOM: nat := 17
  const N_ATOMS: nat := 18

  /** A captured packet: `buflen` bytes are present, `wirelen` were on the wire.
      What `byteAt` says at or past `buflen` is never looked at. */
  datatype Packet = Packet(byteAt: Word -> bv8, buflen: Word, wirelen: Word)

  /** Scratch memory 0..15, then the accumulator and the index register: the
      optimizer numbers its atoms the same way. */
  type State = s: seq<Word> | |s| == N_ATOMS witness seq(N_ATOMS, i => 0)

  /** All words 0. */
  function Zero(): (z: State)
    ensures |z| == BPF_MEMWORDS + 2
  {
    seq(N_ATOMS, i => 0)
  }

  type Reg = n: nat | n < BPF_MEMWORDS

  datatype Size = W | H | B

  datatype AluOp = ADD | SUB | MUL | DIV | MOD | AND | OR | XOR | LSH | RSH

  /** The statements that may precede the branch of a block. `Nop` is a deleted
      statement. */
  datatype Stmt =
    | Nop
    | LdAbs(size: Size, k: Word)
    | LdInd(size: Size, k: Word)
    | LdLen
    | LdImm(k: Word)
    | LdxImm(k: Word)
    | LdxMsh(k: Word)
    | LdMem(r: Reg)
    | LdxMem(r: Reg)
    | St(r: Reg)
    | Stx(r: Reg)
    | AluK(op: AluOp, k: Word)
    | AluX(op: AluOp)
    | Neg
    | Tax
    | Txa

  datatype Test = JEQ | JGT | JGE | JSET

  /** A conditional branch compares the accumulator with a constant or with X. */
  datatype Cond = JmpK(test: Test, k: Word) | JmpX(test: Test)

  function Plus(a: Word, b: Word): Word { a + b }

  function Minus(a: Word, b: Word): Word { a - b }

  function Times(a: Word, b: Word): Word { a * b }

  const ALL_ONES: Word := 0xffffffff

  lemma PlusIs(a: Word, b: Word)
    ensures Plus(a, b) == a + b
  {
  }

  lemma PlusSums(a: Word, b: Word, c: Word)
    ensures Plus(a + b, c) == Plus(a, b + c)
  {
  }

  lemma PlusAssoc(a: Word, b: Word, c: Word)
    ensures Plus(Plus(a, b), c) == Plus(a, Plus(b, c))
  {
    hide Plus;
    PlusIs(a, b);
    PlusIs(b, c);
    PlusSums(a, b, c);
  }

  lemma PlusTurn(a: Word, b: Word)
    ensures Plus(a, b) == Plus(b, a)
  {
  }

  lemma PlusMinus(a: Word, k: Word)
    ensures Plus(a - k, k) == a
  {
  }

  lemma MinusPlus(a: Word, k: Word)
    ensures Minus(a + k, k) == a
  {
  }

  /** Subtracting on one side is adding on the other, modulo 2^32. */
  lemma SubMoves(a: Word, k: Word, y: Word)
    ensures Minus(a, k) == y <==> a == Plus(y, k)
  {
    PlusMinus(a, k);
    MinusPlus(y, k);
  }

  lemma PlusZero(a: Word)
    ensures Plus(a, 0) == a && Plus(0, a) == a
  {
  }

  /** The n bytes at offset k run past the captured part. */
  predicate Past(k: Word, n: Word, buflen: Word) {
    k > buflen || n > buflen - k
  }

  /** There is no byte at offset k. */
  predicate Outside(k: Word, buflen: Word) {
    k >= buflen
  }

  function Word4(a: bv8, b: bv8, c: bv8, d: bv8): Word {
    ((a as Word) << 24) | ((b as Word) << 16) | ((c as Word) << 8) | (d as Word)
  }

  function Word2(a: bv8, b: bv8): Word {
    ((a as Word) << 8) | (b as Word)
  }

  function Word1(a: bv8): Word {
    a as Word
  }

  /** Four times the low half of a byte: an IP header's length in bytes. */
  function HeaderLength(b: bv8): Word {
    ((b as Word) & 0xf) << 2
  }

  /** The word, half word or byte at offset k, if all of it was captured. */
  function LoadAbs(size: Size, k: Word, p: Packet): Option<Word> {
    match size
    case W =>
      if Past(k, 4, p.buflen) then None else
      Some(Word4(p.byteAt(k), p.byteAt(Plus(k, 1)), p.byteAt(Plus(k, 2)), p.byteAt(Plus(k, 3))))
    case H => if Past(k, 2, p.buflen) then None else Some(Word2(p.byteAt(k), p.byteAt(Plus(k, 1))))
    case B => if Outside(k, p.buflen) then None else Some(Word1(p.byteAt(k)))
  }

  /** An indexed load first checks that X + k does not run past the packet. */
  function LoadInd(size: Size, k: Word, x: Word, p: Packet): Option<Word> {
    if Past(k, x, p.buflen) then None else LoadAbs(size, Plus(k, x), p)
  }

  /** Four times the low half of byte k, if it was captured. */
  function LoadMsh(k: Word, p: Packet): Option<Word> {
    if Outside(k, p.buflen) then None else Some(HeaderLength(p.byteAt(k)))
  }

  /** The number that a word stands for. */
  function Unsigned(w: Word): nat { w as nat }

  lemma UnsignedRange(w: Word)
    ensures Unsigned(w) < 0x1_0000_0000
  {
  }

  lemma UnsignedSame(v: Word, w: Word)
    requires Unsigned(v) == Unsigned(w)
    ensures v == w
  {
    assert (v as int) as Word == v && (w as int) as Word == w;
  }

  lemma UnsignedZero(w: Word)
    ensures Unsigned(w) == 0 <==> w == 0
  {
    assert Unsigned(0) == 0;
    hide Unsigned;
    if Unsigned(w) == 0 {
      UnsignedSame(w, 0);
    }
  }

  function Quotient(a: Word, b: Word): Word
    requires b != 0
  {
    UnsignedRange(a);
    UnsignedZero(b);
    QuotientBound(Unsigned(a), Unsigned(b));
    (Unsigned(a) / Unsigned(b)) as Word
  }

  function Remainder(a: Word, b: Word): Word
    requires b != 0
  {
    UnsignedRange(b);
    UnsignedZero(b);
    (Unsigned(a) % Unsigned(b)) as Word
  }

  /** None is a division by zero or a shift by 32 or more. */
  function Alu(op: AluOp, a: Word, b: Word): Option<Word> {
    match op
    case ADD => Some(Plus(a, b))
    case SUB => Some(Minus(a, b))
    case MUL => Some(Times(a, b))
    case DIV => if b == 0 then None else Some(Quotient(a, b))
    case MOD => if b == 0 then None else Some(Remainder(a, b))
    case AND => Some(a & b)
    case OR => Some(a | b)
    case XOR => Some(a ^ b)
    case LSH => if b >= 32 then None else Some(a << b)
    case RSH => if b >= 32 then None else Some(a >> b)
  }

  function Holds(t: Test, a: Word, b: Word): bool {
    match t
    case JEQ => a == b
    case JGT => a > b
    case JGE => a >= b
    case JSET => a & b != 0
  }

  function Put(st: State, atom: nat, v: Option<Word>): Option<State>
    requires atom < N_ATOMS
  {
    match v
    case None => None
    case Some(w) => Some(st[atom := w])
  }

  /** One statement; None when the packet is rejected on the spot. */
  function Exec(s: Stmt, p: Packet, st: State): Option<State> {
    match s
    case Nop => Some(st)
    case LdAbs(size, k) => Put(st, A_ATOM, LoadAbs(size, k, p))
    case LdInd(size, k) => Put(st, A_ATOM, LoadInd(size, k, st[X_ATOM], p))
    case LdLen => Put(st, A_ATOM, Some(p.wirelen))
    case LdImm(k) => Put(st, A_ATOM, Some(k))
    case LdxImm(k) => Put(st, X_ATOM, Some(k))
    case LdxMsh(k) => Put(st, X_ATOM, LoadMsh(k, p))
    case LdMem(r) => Put(st, A_ATOM, Some(st[r]))
    case LdxMem(r) => Put(st, X_ATOM, Some(st[r]))
    case St(r) => Put(st, r, Some(st[A_ATOM]))
    case Stx(r) => Put(st, r, Some(st[X_ATOM]))
    case AluK(op, k) => Put(st, A_ATOM, Alu(op, st[A_ATOM], k))
    case AluX(op) => Put(st, A_ATOM, Alu(op, st[A_ATOM], st[X_ATOM]))
    case Neg => Put(st, A_ATOM, Some(Minus(0, st[A_ATOM])))
    case Tax => Put(st, X_ATOM, Some(st[A_ATOM]))
    case Txa => Put(st, A_ATOM, Some(st[X_ATOM]))
  }

  function ExecAll(ss: seq<Stmt>, p: Packet, st: State): Option<State> {
    if ss == [] then Some(st) else
    match Exec(ss[0], p, st)
    case None => None
    case Some(st') => ExecAll(ss[1..], p, st')
  }

  function Taken(c: Cond, st: State): bool {
    match c
    case JmpK(t, k) => Holds(t, st[A_ATOM], k)
    case JmpX(t) => Holds(t, st[A_ATOM], st[X_ATOM])
  }

  lemma {:induction false} ExecAllConcat(a: seq<Stmt>, b: seq<Stmt>, p: Packet, st: State)
    ensures ExecAll(a + b, p, st) ==
            match ExecAll(a, p, st) { case None => None case Some(st') => ExecAll(b, p, st') }
  {
    if a == [] {
      assert a + b == b;
    } else {
      assert (a + b)[1..] == a[1..] + b;
      match Exec(a[0], p, st)
      case None =>
      case Some(st') => ExecAllConcat(a[1..], b, p, st');
    }
  }
}
