/** Symbolic execution of statements over value numbers, which also rewrites
    them. */
module Numbering {
  import opened Basics
  import opened Bpf
  import opened Liveness
  import opened ValueTable

  /** The numbers of the atoms at some point of a block. */
  type Vals = seq<nat>

  ghost predicate InRange(keys: seq<Key>, val: Vals) {
    |val| == N_ATOMS && forall a | 0 <= a < N_ATOMS :: val[a] <= |keys|
  }

  /** Atom a holds the value that its number denotes. */
  ghost predicate Right(keys: seq<Key>, val: Vals, p: Packet, st: State, a: int)
    requires Ordered(keys) && |val| == N_ATOMS && 0 <= a < N_ATOMS
  {
    Den(keys, val[a], p) == Some(st[a])
  }

  ghost predicate ReadsRight(keys: seq<Key>, val: Vals, s: Stmt, p: Packet, st: State)
    requires Ordered(keys) && |val| == N_ATOMS
  {
    forall a | 0 <= a < N_ATOMS && a in Atoms(AtomUse(s)) :: Right(keys, val, p, st, a)
  }

  /** All atoms that s uses have numbers. */
  predicate KnownReads(val: Vals, s: Stmt)
    requires |val| == N_ATOMS
  {
    forall a | 0 <= a < N_ATOMS && a in Atoms(AtomUse(s)) :: val[a] != 0
  }

  /** The number that s gives its atom denotes the value it gives it. */
  ghost predicate NumberRight(keys: seq<Key>, val: Vals, s: Stmt, keys': seq<Key>, v: nat, p: Packet, st: State)
    requires Ordered(keys) && Ordered(keys') && |val| == N_ATOMS
  {
    ReadsRight(keys, val, s, p, st) && Value(s, p, st).Some? ==> Den(keys', v, p) == Value(s, p, st)
  }

  /** For a packet that gets through s, the new statement does what s does. */
  ghost predicate RewriteRight(keys: seq<Key>, val: Vals, s: Stmt, s': Stmt, p: Packet, st: State)
    requires Ordered(keys) && |val| == N_ATOMS
  {
    ReadsRight(keys, val, s, p, st) && Exec(s, p, st).Some? &&
    (AtomDef(s) >= 0 && val[AtomDef(s)] != 0 ==> Right(keys, val, p, st, AtomDef(s))) ==>
      Exec(s', p, st) == Exec(s, p, st)
  }

  /** What one step of the symbolic execution promises: s has become s', and
      its atom the number v. */
  ghost predicate StepRight(keys: seq<Key>, val: Vals, s: Stmt, keys': seq<Key>, v: nat, s': Stmt) {
    && Ordered(keys) && Ordered(keys') && keys <= keys' && |keys'| <= |keys| + 2 && v <= |keys'| && |val| == N_ATOMS
    && (KnownReads(val, s) ==> v != 0)
    && (forall p, st {:trigger NumberRight(keys, val, s, keys', v, p, st)} ::
      NumberRight(keys, val, s, keys', v, p, st))
    && forall p, st {:trigger RewriteRight(keys, val, s, s', p, st)} :: RewriteRight(keys, val, s, s', p, st)
  }

  /** The statements with which s can be replaced: nothing, if its atom has the
      number already, or one that gives its atom the same value. */
  lemma StoreRight(keys: seq<Key>, val: Vals, s: Stmt, keys': seq<Key>, v: nat, s1: Stmt, s': Stmt)
    requires Ordered(keys) && Ordered(keys') && keys <= keys' && |keys'| <= |keys| + 2 && v <= |keys'|
      && InRange(keys, val)
    requires AtomDef(s) >= 0 && AtomDef(s1) == AtomDef(s) && (KnownReads(val, s) ==> v != 0)
    requires forall p, st {:trigger NumberRight(keys, val, s, keys', v, p, st)} ::
      NumberRight(keys, val, s, keys', v, p, st)
    requires forall p, st {:trigger Value(s1, p, st)} | ReadsRight(keys, val, s, p, st) && Value(s, p, st).Some? ::
      Value(s1, p, st) == Value(s, p, st)
    requires s' == s1 || (s' == Nop && val[AtomDef(s)] == v)
    ensures StepRight(keys, val, s, keys', v, s')
  {
    forall p, st ensures RewriteRight(keys, val, s, s', p, st) {
      var d := AtomDef(s);
      ExecPut(s, p, st);
      ExecPut(s1, p, st);
      if ReadsRight(keys, val, s, p, st) && Exec(s, p, st).Some? && s' != s1 {
        assert NumberRight(keys, val, s, keys', v, p, st);
        DenKept(keys, keys', v, p);
        assert v != 0;
        if Right(keys, val, p, st, d) {
          assert st[d := st[d]] == st;
        }
      }
    }
  }

  // -------------------------------------------------- which number is right

  /** The key says what s computes, from the numbers val. */
  ghost predicate KeyOf(keys: seq<Key>, val: Vals, s: Stmt, key: Key)
    requires |val| == N_ATOMS
  {
    match s
    case LdAbs(size, k) => key == Key(CAbs(size), Const(k), Num(0))
    case LdInd(size, k) => key == Key(CInd(size), Const(k), Num(val[X_ATOM]))
    case LdLen => key == Key(CLen, Num(0), Num(0))
    case LdImm(k) => key == Key(CImm, Const(k), Num(0))
    case LdxImm(k) => key == Key(CImm, Const(k), Num(0))
    case LdxMsh(k) => key == Key(CMsh, Const(k), Num(0))
    case Neg => key == Key(CNeg, Num(val[A_ATOM]), Num(0))
    case AluK(op, k) =>
      && key.code == CAluK(op) && key.v0 == Num(val[A_ATOM]) && key.v1.Num?
      && IsConst(keys, key.v1.n, k)
    case AluX(op) => key == Key(CAluX(op), Num(val[A_ATOM]), Num(val[X_ATOM]))
    case _ => false
  }

  ghost predicate IsConst(keys: seq<Key>, v: nat, k: Word) {
    1 <= v <= |keys| && keys[v - 1] == Key(CImm, Const(k), Num(0))
  }

  lemma ConstDen(keys: seq<Key>, v: nat, k: Word, p: Packet)
    requires Ordered(keys) && IsConst(keys, v, k)
    ensures Den(keys, v, p) == Some(k)
  {
  }

  lemma KeyRight(keys: seq<Key>, val: Vals, s: Stmt, keys': seq<Key>, v: nat)
    requires Ordered(keys) && Ordered(keys') && keys <= keys' && InRange(keys, val)
    requires 1 <= v <= |keys'| && KeyOf(keys', val, s, keys'[v - 1])
    ensures forall p, st {:trigger NumberRight(keys, val, s, keys', v, p, st)} ::
      NumberRight(keys, val, s, keys', v, p, st)
  {
    forall p, st ensures NumberRight(keys, val, s, keys', v, p, st) {
      KeyRightAt(keys, val, s, keys', v, p, st);
    }
  }

  /** The opcode of the key, applied to what its operands denote, is the value. */
  lemma KeyApplied(keys: seq<Key>, val: Vals, s: Stmt, key: Key, a: Option<Word>, b: Option<Word>, p: Packet, st: State)
    requires |val| == N_ATOMS && KeyOf(keys, val, s, key)
    requires key.v0.Const? ==> a == Some(key.v0.k)
    requires s.Neg? || s.AluK? || s.AluX? ==> a == Some(st[A_ATOM])
    requires s.LdInd? || s.AluX? ==> b == Some(st[X_ATOM])
    requires s.AluK? ==> b == Some(s.k)
    ensures Apply(key.code, a, b, p) == Value(s, p, st)
  {
    hide LoadAbs, LoadInd, LoadMsh, Alu, Minus;
  }

  lemma KeyRightAt(keys: seq<Key>, val: Vals, s: Stmt, keys': seq<Key>, v: nat, p: Packet, st: State)
    requires Ordered(keys) && Ordered(keys') && keys <= keys' && InRange(keys, val)
    requires 1 <= v <= |keys'| && KeyOf(keys', val, s, keys'[v - 1])
    ensures NumberRight(keys, val, s, keys', v, p, st)
  {
    hide Value, Apply;
    if ReadsRight(keys, val, s, p, st) {
      var key := keys'[v - 1];
      assert Fits(key, v - 1);
      DenKept(keys, keys', val[A_ATOM], p);
      DenKept(keys, keys', val[X_ATOM], p);
      assert A_ATOM in Atoms(AtomUse(s)) ==> Right(keys, val, p, st, A_ATOM);
      assert X_ATOM in Atoms(AtomUse(s)) ==> Right(keys, val, p, st, X_ATOM);
      if s.AluK? {
        ConstDen(keys', key.v1.n, s.k, p);
      }
      KeyApplied(keys', val, s, key, DenArg(keys', key.v0, v - 1, p), DenArg(keys', key.v1, v - 1, p), p, st);
    }
  }

  /** The atom that s copies, or -1. */
  function Source(s: Stmt): int {
    match s
    case Tax | St(_) => A_ATOM
    case Txa | Stx(_) => X_ATOM
    case LdMem(r) => r
    case LdxMem(r) => r
    case _ => -1
  }

  lemma CopyRight(keys: seq<Key>, val: Vals, s: Stmt, keys': seq<Key>)
    requires Ordered(keys) && Ordered(keys') && keys <= keys' && InRange(keys, val) && Source(s) >= 0
    ensures forall p, st {:trigger NumberRight(keys, val, s, keys', val[Source(s)], p, st)} ::
      NumberRight(keys, val, s, keys', val[Source(s)], p, st)
  {
    forall p, st ensures NumberRight(keys, val, s, keys', val[Source(s)], p, st) {
      if ReadsRight(keys, val, s, p, st) {
        assert Source(s) in Atoms(AtomUse(s)) && Right(keys, val, p, st, Source(s));
        DenKept(keys, keys', val[Source(s)], p);
      }
    }
  }

  // ---------------------------------------------------------------- opt_stmt

  /** vstore: a value that is there already need not be stored. */
  function Vstore(s: Stmt, was: nat, v: nat, alter: bool): Stmt {
    if alter && was == v then Nop else s
  }

  /** fold_op. Shifts by 32 or more are undefined in C; they are 0 here. */
  function FoldOp(op: AluOp, a: Word, b: Word): Word {
    match Alu(op, a, b) case Some(c) => c case None => 0
  }

  lemma FoldRight(keys: seq<Key>, val: Vals, s: Stmt, a: Word, b: Word, op: AluOp)
    requires Ordered(keys) && InRange(keys, val) && IsConst(keys, val[A_ATOM], a)
    requires s == AluK(op, b) || (s == AluX(op) && IsConst(keys, val[X_ATOM], b))
    ensures forall p, st {:trigger Value(s, p, st)} | ReadsRight(keys, val, s, p, st) && Value(s, p, st).Some? ::
      Value(s, p, st) == Some(FoldOp(op, a, b))
  {
    hide Alu;
    forall p, st | ReadsRight(keys, val, s, p, st) && Value(s, p, st).Some?
      ensures Value(s, p, st) == Some(FoldOp(op, a, b))
    {
      assert Right(keys, val, p, st, A_ATOM);
      ConstDen(keys, val[A_ATOM], a, p);
      if s.AluX? {
        assert Right(keys, val, p, st, X_ATOM);
        ConstDen(keys, val[X_ATOM], b, p);
      }
    }
  }

  /** A statement that always yields c may load c. */
  lemma ImmRight(keys: seq<Key>, val: Vals, s: Stmt, keys': seq<Key>, v: nat, s1: Stmt, c: Word, alter: bool)
    requires Ordered(keys) && Ordered(keys') && keys <= keys' && |keys'| <= |keys| + 2 && InRange(keys, val)
    requires AtomDef(s) >= 0 && s1 == (if AtomDef(s) == A_ATOM then LdImm(c) else LdxImm(c))
      && AtomDef(s1) == AtomDef(s)
    requires IsConst(keys', v, c)
    requires forall p, st {:trigger Value(s, p, st)} | ReadsRight(keys, val, s, p, st) && Value(s, p, st).Some? ::
      Value(s, p, st) == Some(c)
    ensures StepRight(keys, val, s, keys', v, Vstore(s1, val[AtomDef(s)], v, alter))
      && StepRight(keys, val, s, keys', v, s1)
  {
    forall p, st ensures NumberRight(keys, val, s, keys', v, p, st) {
      if ReadsRight(keys, val, s, p, st) && Value(s, p, st).Some? {
        ConstDen(keys', v, c, p);
      }
    }
    StoreRight(keys, val, s, keys', v, s1, Vstore(s1, val[AtomDef(s)], v, alter));
    StoreRight(keys, val, s, keys', v, s1, s1);
  }

  /** The constant that number v stands for, if it stands for one. */
  function ConstOf(keys: seq<Key>, v: nat): Option<Word> {
    if 1 <= v <= |keys| && keys[v - 1].code == CImm && keys[v - 1].v0.Const? then Some(keys[v - 1].v0.k) else None
  }

  predicate Arithmetic(s: Stmt) {
    s.AluK? || s.AluX?
  }

  /** v is the number of what s computes from the numbers val. */
  ghost predicate Named(keys: seq<Key>, val: Vals, s: Stmt, v: nat) {
    |val| == N_ATOMS && 1 <= v <= |keys| && KeyOf(keys, val, s, keys[v - 1])
  }

  /** Arithmetic leaves no number that stands for a constant, and has a constant
      operand only where it had one before, or an X with that constant; a copy
      has the number of what it copies, and what else stays as it is that of its
      own expression; what goes leaves the number that was there. */
  ghost predicate Computed(keys: seq<Key>, val: Vals, s: Stmt, s': Stmt, v: nat) {
    && (Arithmetic(s') ==> ConstOf(keys, v).None?)
    && (s'.AluK? ==>
          s' == s || (s == AluX(s'.op) && |val| == N_ATOMS && ConstOf(keys, val[X_ATOM]) == Some(s'.k)))
    && (s'.AluX? ==> s' == s)
    && (s' == s && Source(s) < 0 ==> Named(keys, val, s, v))
    && (0 <= Source(s) < |val| ==> v == val[Source(s)])
    && (s'.Nop? && 0 <= AtomDef(s) < |val| ==> v == val[AtomDef(s)])
  }

  /** What holds of a number holds in any larger table. */
  lemma ComputedKept(keys: seq<Key>, K: seq<Key>, val: Vals, s: Stmt, s': Stmt, v: nat)
    requires keys <= K && v <= |keys| && Computed(keys, val, s, s', v)
    ensures Computed(K, val, s, s', v)
  {
  }

  predicate ZeroDrops(op: AluOp) {
    op in {ADD, LSH, RSH, OR, XOR}
  }

  predicate ZeroWins(op: AluOp) {
    op in {MUL, AND}
  }

  predicate ZeroCopies(op: AluOp) {
    op in {ADD, OR, XOR}
  }

  /** The simplest statement that does what s does, when a, x and c are what A,
      X and the atom that s copies are known to hold. */
  function Simpler(s: Stmt, a: Option<Word>, x: Option<Word>, c: Option<Word>): Stmt {
    match s
    case LdInd(size, k) => if x.Some? then LdAbs(size, Plus(k, x.value)) else s
    case LdMem(_) => if c.Some? then LdImm(c.value) else s
    case LdxMem(_) => if c.Some? then LdxImm(c.value) else s
    case Neg => if a.Some? then LdImm(Minus(0, a.value)) else s
    case AluK(op, k) =>
      if k == 0 && ZeroDrops(op) then Nop
      else if k == 0 && ZeroWins(op) then LdImm(0)
      else if a.Some? then LdImm(FoldOp(op, a.value, k))
      else s
    case AluX(op) =>
      if x.Some? then (if a.Some? then LdImm(FoldOp(op, a.value, x.value)) else AluK(op, x.value))
      else if a != Some(0) || op == SUB then s
      else if ZeroCopies(op) then Txa
      else LdImm(0)
    case _ => s
  }

  predicate Divides(op: AluOp) {
    op == DIV || op == MOD
  }

  /** A division of a constant by the constant 0. */
  predicate DividesByZero(s: Stmt, a: Option<Word>, x: Option<Word>) {
    match s
    case AluK(op, k) => Divides(op) && a.Some? && k == 0
    case AluX(op) => Divides(op) && a.Some? && x == Some(0)
    case _ => false
  }

  predicate HasDivision(ss: seq<Stmt>) {
    exists i | 0 <= i < |ss| :: Arithmetic(ss[i]) && Divides(ss[i].op)
  }

  /** Whether a value that is there already need not be stored: not asked of
      arithmetic, but for an accumulator of 0. */
  predicate Stores(s: Stmt, a: Option<Word>, x: Option<Word>) {
    !s.AluK? && !s.Neg? && (s.AluX? ==> x.None? && a == Some(0) && s.op != SUB)
  }

  /** What becomes of s, which gives its atom number v. */
  function Becomes(s: Stmt, keys: seq<Key>, val: Vals, v: nat): Stmt
    requires |val| == N_ATOMS && AtomDef(s) >= 0
  {
    var a, x := ConstOf(keys, val[A_ATOM]), ConstOf(keys, val[X_ATOM]);
    if Stores(s, a, x) && val[AtomDef(s)] == v then Nop
    else Simpler(s, a, x, if Source(s) >= 0 then ConstOf(keys, val[Source(s)]) else None)
  }

  class Numberer {
    const table: Table

    constructor (table: Table)
      ensures this.table == table
    {
      this.table := table;
    }

    ghost predicate Ready(val: Vals)
      reads this, table, table.hashtbl, table.vmap
    {
      table.Valid() && table.curval + 2 < table.maxval && InRange(table.keys, val)
    }

    /** Number v is flagged as the constant c. */
    lemma IsFlagged(v: nat)
      requires table.Valid() && v <= table.curval && table.vmap[v].isConst
      ensures IsConst(table.keys, v, table.vmap[v].constVal)
    {
      assert ConstInfo(table.vmap[..], table.keys, v);
      assert Fits(table.keys[v - 1], v - 1);
    }

    lemma Flags(v: nat)
      requires table.Valid() && v <= table.curval
      ensures ConstOf(table.keys, v) == if table.vmap[v].isConst then Some(table.vmap[v].constVal) else None
    {
      assert ConstInfo(table.vmap[..], table.keys, v);
      if 1 <= v <= |table.keys| {
        assert Fits(table.keys[v - 1], v - 1);
      }
    }

    method OptLoad(s: Stmt, val: Vals, alter: bool) returns (s': Stmt, v: nat)
      requires Ready(val) && (s.LdAbs? || s.LdLen? || s.LdImm? || s.LdxImm? || s.LdxMsh?)
      modifies table, table.hashtbl, table.vmap
      ensures table.Valid() && StepRight(old(table.keys), val, s, table.keys, v, s') && (!alter ==> s' == s)
      ensures s' == Vstore(s, val[AtomDef(s)], v, alter)
      ensures Computed(table.keys, val, s, s', v)
    {
      hide Value, NumberRight, RewriteRight;
      ghost var keys := table.keys;
      match s {
        case LdAbs(size, k) => v := table.F(CAbs(size), Const(k), Num(0));
        case LdLen => v := table.F(CLen, Num(0), Num(0));
        case LdImm(k) => v := table.F(CImm, Const(k), Num(0));
        case LdxImm(k) => v := table.F(CImm, Const(k), Num(0));
        case LdxMsh(k) => v := table.F(CMsh, Const(k), Num(0));
      }
      s' := Vstore(s, val[AtomDef(s)], v, alter);
      KeyRight(keys, val, s, table.keys, v);
      StoreRight(keys, val, s, table.keys, v, s, s');
    }

    method OptInd(s: Stmt, val: Vals, alter: bool) returns (s': Stmt, v: nat)
      requires Ready(val) && s.LdInd?
      modifies table, table.hashtbl, table.vmap
      ensures table.Valid() && StepRight(old(table.keys), val, s, table.keys, v, s') && (!alter ==> s' == s)
      ensures alter ==> s' == Becomes(s, old(table.keys), val, v)
      ensures Computed(table.keys, val, s, s', v)
    {
      hide Value, NumberRight, RewriteRight;
      ghost var keys := table.keys;
      v := val[X_ATOM];
      Flags(v);
      if alter && table.vmap[v].isConst {
        IsFlagged(v);
        s', v := IndConst(s, s.size, s.k, table.vmap[v].constVal, val);
      } else {
        v := table.F(CInd(s.size), Const(s.k), Num(v));
        s' := Vstore(s, val[A_ATOM], v, alter);
        KeyRight(keys, val, s, table.keys, v);
        StoreRight(keys, val, s, table.keys, v, s, s');
      }
    }

    method IndConst(ghost s: Stmt, size: Size, k: Word, x: Word, val: Vals) returns (s': Stmt, v: nat)
      requires Ready(val) && s == LdInd(size, k) && IsConst(table.keys, val[X_ATOM], x)
      modifies table, table.hashtbl, table.vmap
      ensures table.Valid() && StepRight(old(table.keys), val, s, table.keys, v, s')
      ensures s' == Vstore(LdAbs(size, Plus(k, x)), val[A_ATOM], v, true)
    {
      ghost var keys := table.keys;
      var kx := k + x;
      var s1 := LdAbs(size, kx);
      v := table.F(CAbs(size), Const(kx), Num(0));
      s' := Vstore(s1, val[A_ATOM], v, true);
      IndRight(keys, val, s, size, k, x, kx, table.keys, v, s1);
      StoreRight(keys, val, s, table.keys, v, s1, s');
    }

    method OptNeg(s: Stmt, val: Vals, alter: bool) returns (s': Stmt, v: nat)
      requires Ready(val) && s.Neg?
      modifies table, table.hashtbl, table.vmap
      ensures table.Valid() && StepRight(old(table.keys), val, s, table.keys, v, s') && (!alter ==> s' == s)
      ensures alter ==> s' == Simpler(s, ConstOf(old(table.keys), val[A_ATOM]), None, None)
      ensures Computed(table.keys, val, s, s', v)
    {
      hide Minus, Alu, Value;
      ghost var keys := table.keys;
      var a := val[A_ATOM];
      Flags(a);
      if alter && table.vmap[a].isConst {
        IsFlagged(a);
        var c := table.vmap[a].constVal;
        var n := Minus(0, c);
        s' := LdImm(n);
        v := table.F(CImm, Const(n), Num(0));
        NegRight(keys, val, c);
        ImmRight(keys, val, s, table.keys, v, s', n, alter);
      } else {
        s' := s;
        v := table.F(CNeg, Num(a), Num(0));
        KeyRight(keys, val, s, table.keys, v);
        StoreRight(keys, val, s, table.keys, v, s, s);
      }
    }

    /** Copies between registers and memory. */
    method OptCopy(s: Stmt, val: Vals, alter: bool) returns (s': Stmt, v: nat)
      requires Ready(val) && Source(s) >= 0
      ensures StepRight(table.keys, val, s, table.keys, v, s') && (!alter ==> s' == s)
      ensures alter ==>
        s' == Vstore(Simpler(s, None, None, ConstOf(table.keys, val[Source(s)])), val[AtomDef(s)], v, true)
      ensures Computed(table.keys, val, s, s', v)
    {
      hide Value, NumberRight, RewriteRight;
      v := val[Source(s)];
      Flags(v);
      CopyRight(table.keys, val, s, table.keys);
      if alter && (s.LdMem? || s.LdxMem?) && table.vmap[v].isConst {
        IsFlagged(v);
        var c := table.vmap[v].constVal;
        var s1 := if s.LdMem? then LdImm(c) else LdxImm(c);
        s' := Vstore(s1, val[AtomDef(s)], v, alter);
        CopyConst(table.keys, val, s, c);
        ImmRight(table.keys, val, s, table.keys, v, s1, c, alter);
      } else {
        s' := Vstore(s, val[AtomDef(s)], v, alter);
        StoreRight(table.keys, val, s, table.keys, v, s, s');
      }
    }

    method OptAluK(s: Stmt, val: Vals, alter: bool) returns (ok: bool, s': Stmt, v: nat)
      requires Ready(val) && s.AluK?
      modifies table, table.hashtbl, table.vmap
      ensures table.Valid() && |table.keys| <= |old(table.keys)| + 2 && old(table.keys) <= table.keys
      ensures ok ==> StepRight(old(table.keys), val, s, table.keys, v, s') && (!alter ==> s' == s)
      ensures ok && alter ==> s' == Simpler(s, ConstOf(old(table.keys), val[A_ATOM]), None, None)
      ensures ok <==> !(alter && DividesByZero(s, ConstOf(old(table.keys), val[A_ATOM]), None))
      ensures ok ==> Computed(table.keys, val, s, s', v)
    {
      hide Alu, FoldOp, Value, NumberRight, RewriteRight, KeyOf;
      ghost var keys := table.keys;
      Flags(val[A_ATOM]);
      ok := true;
      if alter && s.k == 0 && (ZeroDrops(s.op) || ZeroWins(s.op)) {
        s', v := ZeroK(s, val);
        return;
      }
      if alter && table.vmap[val[A_ATOM]].isConst {
        IsFlagged(val[A_ATOM]);
        ok, s', v := FoldK(s, table.vmap[val[A_ATOM]].constVal, val);
        return;
      }
      s' := s;
      v := NumberK(s, val);
    }

    method NumberK(s: Stmt, val: Vals) returns (v: nat)
      requires Ready(val) && s.AluK?
      modifies table, table.hashtbl, table.vmap
      ensures table.Valid() && StepRight(old(table.keys), val, s, table.keys, v, s)
      ensures Named(table.keys, val, s, v) && ConstOf(table.keys, v).None?
    {
      ghost var keys := table.keys;
      var k := table.F(CImm, Const(s.k), Num(0));
      ghost var keys1 := table.keys;
      v := table.F(CAluK(s.op), Num(val[A_ATOM]), Num(k));
      assert IsConst(keys1, k, s.k) && IsConst(table.keys, k, s.k);
      KeyRight(keys, val, s, table.keys, v);
      StoreRight(keys, val, s, table.keys, v, s, s);
    }

    /** An operation with 0 that does nothing or leaves 0. */
    method ZeroK(s: Stmt, val: Vals) returns (s': Stmt, v: nat)
      requires Ready(val) && s.AluK? && s.k == 0 && (ZeroDrops(s.op) || ZeroWins(s.op))
      modifies table, table.hashtbl, table.vmap
      ensures table.Valid() && StepRight(old(table.keys), val, s, table.keys, v, s')
      ensures ZeroDrops(s.op) ==> v == val[A_ATOM]
      ensures s' == if ZeroDrops(s.op) then Nop else LdImm(0)
    {
      ghost var keys := table.keys;
      if ZeroDrops(s.op) {
        s', v := Nop, val[A_ATOM];
        ZeroNop(keys, val, s);
      } else {
        s' := LdImm(0);
        v := table.F(CImm, Const(0), Num(0));
        ZeroImm(keys, val, s);
        ImmRight(keys, val, s, table.keys, v, s', 0, true);
      }
    }

    /** A constant operation on a constant. */
    method FoldK(s: Stmt, a: Word, val: Vals) returns (ok: bool, s': Stmt, v: nat)
      requires Ready(val) && s.AluK? && IsConst(table.keys, val[A_ATOM], a)
      modifies table, table.hashtbl, table.vmap
      ensures table.Valid() && |table.keys| <= |old(table.keys)| + 2 && old(table.keys) <= table.keys
      ensures ok ==> StepRight(old(table.keys), val, s, table.keys, v, s')
      ensures ok ==> s' == LdImm(FoldOp(s.op, a, s.k))
      ensures ok <==> !(Divides(s.op) && s.k == 0)
    {
      ghost var keys := table.keys;
      var k := table.F(CImm, Const(s.k), Num(0));
      s', v := s, k;
      if Divides(s.op) && s.k == 0 {
        return false, s', v;
      }
      ok := true;
      var c := FoldOp(s.op, a, s.k);
      s' := LdImm(c);
      v := table.F(CImm, Const(c), Num(0));
      FoldRight(keys, val, s, a, s.k, s.op);
      ImmRight(keys, val, s, table.keys, v, s', c, true);
    }

    method OptAluX(s: Stmt, op: AluOp, val: Vals, alter: bool) returns (ok: bool, s': Stmt, v: nat)
      requires Ready(val) && s == AluX(op)
      modifies table, table.hashtbl, table.vmap
      ensures table.Valid() && |table.keys| <= |old(table.keys)| + 2 && old(table.keys) <= table.keys
      ensures ok ==> StepRight(old(table.keys), val, s, table.keys, v, s') && (!alter ==> s' == s)
      ensures ok && alter ==> s' == Becomes(s, old(table.keys), val, v)
      ensures ok <==>
        !(alter && DividesByZero(s, ConstOf(old(table.keys), val[A_ATOM]), ConstOf(old(table.keys), val[X_ATOM])))
      ensures ok ==> Computed(table.keys, val, s, s', v)
    {
      hide Alu, FoldOp, Value, StepRight, Computed, KeyOf, Named, ZeroCopies;
      ghost var keys := table.keys;
      ok := true;
      var a, x := val[A_ATOM], val[X_ATOM];
      Flags(a);
      Flags(x);
      if alter && table.vmap[x].isConst {
        IsFlagged(x);
        ok, s', v := KnownX(s, op, table.vmap[x].constVal, val);
        return;
      }
      if alter && table.vmap[a].isConst && table.vmap[a].constVal == 0 && op != SUB {
        IsFlagged(a);
        s', v := ZeroAcc(s, op, val);
        return;
      }
      s' := s;
      v := NumberX(s, op, val);
    }

    /** X holds a constant, and perhaps A too. */
    method KnownX(s: Stmt, op: AluOp, c: Word, val: Vals) returns (ok: bool, s': Stmt, v: nat)
      requires Ready(val) && s == AluX(op) && IsConst(table.keys, val[X_ATOM], c)
      modifies table, table.hashtbl, table.vmap
      ensures table.Valid() && |table.keys| <= |old(table.keys)| + 2 && old(table.keys) <= table.keys
      ensures ok ==> StepRight(old(table.keys), val, s, table.keys, v, s') && Computed(table.keys, val, s, s', v)
      ensures ok ==> s' == Simpler(s, ConstOf(old(table.keys), val[A_ATOM]), Some(c), None)
      ensures ok <==> !(Divides(op) && ConstOf(old(table.keys), val[A_ATOM]).Some? && c == 0)
    {
      hide Alu, FoldOp, Value, NumberRight, RewriteRight, KeyOf;
      ok := true;
      var a := val[A_ATOM];
      Flags(a);
      if table.vmap[a].isConst {
        IsFlagged(a);
        ok, s', v := FoldX(s, op, table.vmap[a].constVal, c, val);
      } else {
        s', v := OperandConst(s, op, c, val);
      }
    }

    method NumberX(ghost s: Stmt, op: AluOp, val: Vals) returns (v: nat)
      requires Ready(val) && s == AluX(op)
      modifies table, table.hashtbl, table.vmap
      ensures table.Valid() && StepRight(old(table.keys), val, s, table.keys, v, s)
      ensures Named(table.keys, val, s, v) && ConstOf(table.keys, v).None? && Computed(table.keys, val, s, s, v)
      ensures old(table.keys) <= table.keys && |table.keys| <= |old(table.keys)| + 2
    {
      ghost var keys := table.keys;
      v := table.F(CAluX(op), Num(val[A_ATOM]), Num(val[X_ATOM]));
      KeyRight(keys, val, s, table.keys, v);
      StoreRight(keys, val, s, table.keys, v, s, s);
    }

    method FoldX(ghost s: Stmt, op: AluOp, a: Word, b: Word, val: Vals) returns (ok: bool, s': Stmt, v: nat)
      requires Ready(val) && s == AluX(op) && IsConst(table.keys, val[A_ATOM], a) && IsConst(table.keys, val[X_ATOM], b)
      modifies table, table.hashtbl, table.vmap
      ensures table.Valid() && |table.keys| <= |old(table.keys)| + 2 && old(table.keys) <= table.keys
      ensures ok ==> StepRight(old(table.keys), val, s, table.keys, v, s')
      ensures ok ==> s' == LdImm(FoldOp(op, a, b))
      ensures ok <==> !(Divides(op) && b == 0)
    {
      ghost var keys := table.keys;
      if Divides(op) && b == 0 {
        return false, Nop, 0;
      }
      ok := true;
      var c := FoldOp(op, a, b);
      s' := LdImm(c);
      v := table.F(CImm, Const(c), Num(0));
      FoldRight(keys, val, s, a, b, op);
      ImmRight(keys, val, s, table.keys, v, s', c, true);
    }

    method OperandConst(ghost s: Stmt, op: AluOp, c: Word, val: Vals) returns (s': Stmt, v: nat)
      requires Ready(val) && s == AluX(op) && IsConst(table.keys, val[X_ATOM], c)
      modifies table, table.hashtbl, table.vmap
      ensures table.Valid() && StepRight(old(table.keys), val, s, table.keys, v, s')
      ensures s' == AluK(op, c)
      ensures ConstOf(table.keys, v).None?
    {
      ghost var keys := table.keys;
      s' := AluK(op, c);
      var k := table.F(CImm, Const(c), Num(0));
      ghost var keys1 := table.keys;
      v := table.F(CAluK(op), Num(val[A_ATOM]), Num(k));
      assert IsConst(keys1, k, c) && IsConst(table.keys, k, c);
      ConstX(keys, val, op, c, table.keys, v);
      StoreRight(keys, val, s, table.keys, v, s', s');
    }

    method ZeroAcc(ghost s: Stmt, op: AluOp, val: Vals) returns (s': Stmt, v: nat)
      requires Ready(val) && s == AluX(op) && IsConst(table.keys, val[A_ATOM], 0) && op != SUB
      modifies table, table.hashtbl, table.vmap
      ensures table.Valid() && StepRight(old(table.keys), val, s, table.keys, v, s')
      ensures s' == Vstore(if ZeroCopies(op) then Txa else LdImm(0), val[A_ATOM], v, true)
      ensures Computed(table.keys, val, s, s', v)
      ensures old(table.keys) <= table.keys && |table.keys| <= |old(table.keys)| + 2
    {
      ghost var keys := table.keys;
      ZeroX(keys, val, op);
      if ZeroCopies(op) {
        v := val[X_ATOM];
        s' := Vstore(Txa, val[A_ATOM], v, true);
        CopyRight(keys, val, Txa, keys);
        TxaRight(keys, val, op);
        StoreRight(keys, val, s, keys, v, Txa, s');
      } else {
        v := table.F(CImm, Const(0), Num(0));
        s' := Vstore(LdImm(0), val[A_ATOM], v, true);
        ImmRight(keys, val, s, table.keys, v, LdImm(0), 0, true);
      }
    }

    /** opt_stmt: the number of what s computes, and what s may be replaced by.
        It fails only at a constant division by zero. */
    method OptStmt(s: Stmt, val: Vals, alter: bool) returns (ok: bool, s': Stmt, val': Vals)
      requires Ready(val)
      modifies table, table.hashtbl, table.vmap
      ensures table.Valid() && old(table.keys) <= table.keys
        && |table.keys| <= |old(table.keys)| + (if s.Nop? then 0 else 2)
      ensures ok ==> InRange(table.keys, val') && StmtRight(old(table.keys), val, s, table.keys, val', s')
      ensures ok <==>
        !(alter && DividesByZero(s, ConstOf(old(table.keys), val[A_ATOM]), ConstOf(old(table.keys), val[X_ATOM])))
      ensures !alter ==> s' == s
      ensures ok && alter && !s.Nop? ==> s' == Becomes(s, old(table.keys), val, val'[AtomDef(s)])
    {
      hide Becomes, Simpler, Vstore, NumberRight, RewriteRight, Computed, Den;
      ghost var keys := table.keys;
      var v;
      ok := true;
      match s {
        case Nop => return true, s, val;
        case LdAbs(_, _) | LdLen | LdImm(_) | LdxImm(_) | LdxMsh(_) => s', v := OptLoad(s, val, alter);
        case LdInd(_, _) => s', v := OptInd(s, val, alter);
        case LdMem(_) | LdxMem(_) | St(_) | Stx(_) | Tax | Txa => s', v := OptCopy(s, val, alter);
        case Neg => s', v := OptNeg(s, val, alter);
        case AluK(_, _) => ok, s', v := OptAluK(s, val, alter);
        case AluX(op) => ok, s', v := OptAluX(s, op, val, alter);
      }
      val' := val[AtomDef(s) := v];
      BecomesCases(s, keys, val, v);
    }
  }

  /** What becomes of loads, copies and operations with a constant. */
  lemma BecomesCases(s: Stmt, keys: seq<Key>, val: Vals, v: nat)
    requires |val| == N_ATOMS && AtomDef(s) >= 0
    ensures s.LdAbs? || s.LdLen? || s.LdImm? || s.LdxImm? || s.LdxMsh? ==>
      Becomes(s, keys, val, v) == Vstore(s, val[AtomDef(s)], v, true)
    ensures Source(s) >= 0 ==>
      Becomes(s, keys, val, v) ==
        Vstore(Simpler(s, None, None, ConstOf(keys, val[Source(s)])), val[AtomDef(s)], v, true)
    ensures s.AluK? || s.Neg? ==> Becomes(s, keys, val, v) == Simpler(s, ConstOf(keys, val[A_ATOM]), None, None)
  {
    hide Plus, Minus, FoldOp, ConstOf, ZeroDrops, ZeroWins, ZeroCopies;
  }

  /** s has become s' and the numbers val have become val'. */
  ghost predicate StmtRight(keys: seq<Key>, val: Vals, s: Stmt, keys': seq<Key>, val': Vals, s': Stmt) {
    && |val| == |val'| == N_ATOMS
    && if s.Nop? then s' == s && val' == val && keys' == keys else
       && 0 <= AtomDef(s) && val' == val[AtomDef(s) := val'[AtomDef(s)]]
       && StepRight(keys, val, s, keys', val'[AtomDef(s)], s') && Computed(keys', val, s, s', val'[AtomDef(s)])
  }

  /** Where a copy of X gives the value, the number of X stands for it. */
  lemma TxaRight(keys: seq<Key>, val: Vals, op: AluOp)
    requires Ordered(keys) && InRange(keys, val)
    requires forall p, st {:trigger Value(Txa, p, st)} | ReadsRight(keys, val, AluX(op), p, st) ::
      Value(AluX(op), p, st) == Value(Txa, p, st)
    ensures forall p, st {:trigger NumberRight(keys, val, AluX(op), keys, val[X_ATOM], p, st)} ::
      NumberRight(keys, val, AluX(op), keys, val[X_ATOM], p, st)
  {
    hide Alu;
    forall p, st ensures NumberRight(keys, val, AluX(op), keys, val[X_ATOM], p, st) {
      if ReadsRight(keys, val, AluX(op), p, st) {
        assert Right(keys, val, p, st, X_ATOM) && Value(Txa, p, st) == Some(st[X_ATOM]);
      }
    }
  }

  lemma ZeroFirst(x: Word)
    ensures Plus(0, x) == x && 0 | x == x && 0 ^ x == x && Times(0, x) == 0 && 0 & x == 0
    ensures x < 32 ==> (0 as Word) << x == 0 && (0 as Word) >> x == 0
  {
  }

  lemma ZeroQuotient(x: Word)
    requires x != 0
    ensures Quotient(0, x) == 0 && Remainder(0, x) == 0
  {
    UnsignedZero(x);
    assert Unsigned(0) == 0;
    hide Unsigned;
  }

  lemma ZeroAlu(op: AluOp, x: Word)
    requires op != SUB
    ensures op in {ADD, OR, XOR} ==> Alu(op, 0, x) == Some(x)
    ensures op !in {ADD, OR, XOR} && Alu(op, 0, x).Some? ==> Alu(op, 0, x) == Some(0)
  {
    ZeroFirst(x);
    if x != 0 {
      ZeroQuotient(x);
    }
    hide Plus, Times, Quotient, Remainder;
  }

  /** With 0 in the accumulator, adding X copies X, and the multiplicative
      operations leave 0. */
  lemma ZeroX(keys: seq<Key>, val: Vals, op: AluOp)
    requires Ordered(keys) && InRange(keys, val) && IsConst(keys, val[A_ATOM], 0) && op != SUB
    ensures op in {ADD, OR, XOR} ==>
      forall p, st {:trigger Value(Txa, p, st)} | ReadsRight(keys, val, AluX(op), p, st) ::
      Value(AluX(op), p, st) == Value(Txa, p, st)
    ensures op !in {ADD, OR, XOR} ==> forall p, st {:trigger Value(AluX(op), p, st)} |
      ReadsRight(keys, val, AluX(op), p, st) && Value(AluX(op), p, st).Some? :: Value(AluX(op), p, st) == Some(0)
  {
    hide Alu;
    forall p, st | ReadsRight(keys, val, AluX(op), p, st)
      ensures op in {ADD, OR, XOR} ==> Value(AluX(op), p, st) == Value(Txa, p, st)
      ensures op !in {ADD, OR, XOR} && Value(AluX(op), p, st).Some? ==> Value(AluX(op), p, st) == Some(0)
    {
      assert Right(keys, val, p, st, A_ATOM);
      ConstDen(keys, val[A_ATOM], 0, p);
      ZeroAlu(op, st[X_ATOM]);
    }
  }

  /** With a constant in X the operation has a constant operand. */
  lemma ConstX(keys: seq<Key>, val: Vals, op: AluOp, c: Word, keys': seq<Key>, v: nat)
    requires Ordered(keys) && Ordered(keys') && keys <= keys' && InRange(keys, val) && IsConst(keys, val[X_ATOM], c)
    requires 1 <= v <= |keys'| && KeyOf(keys', val, AluK(op, c), keys'[v - 1])
    ensures forall p, st {:trigger NumberRight(keys, val, AluX(op), keys', v, p, st)} ::
      NumberRight(keys, val, AluX(op), keys', v, p, st)
    ensures forall p, st {:trigger Value(AluK(op, c), p, st)} | ReadsRight(keys, val, AluX(op), p, st) ::
      Value(AluK(op, c), p, st) == Value(AluX(op), p, st)
  {
    forall p, st | ReadsRight(keys, val, AluX(op), p, st)
      ensures Value(AluK(op, c), p, st) == Value(AluX(op), p, st) && NumberRight(keys, val, AluX(op), keys', v, p, st)
    {
      assert Right(keys, val, p, st, A_ATOM) && Right(keys, val, p, st, X_ATOM);
      ConstDen(keys, val[X_ATOM], c, p);
      KeyRightAt(keys, val, AluK(op, c), keys', v, p, st);
    }
  }

  lemma NegRight(keys: seq<Key>, val: Vals, c: Word)
    requires Ordered(keys) && InRange(keys, val) && IsConst(keys, val[A_ATOM], c)
    ensures forall p, st {:trigger Value(Neg, p, st)} | ReadsRight(keys, val, Neg, p, st) ::
      Value(Neg, p, st) == Some(Minus(0, c))
  {
    forall p, st | ReadsRight(keys, val, Neg, p, st) ensures Value(Neg, p, st) == Some(Minus(0, c)) {
      assert Right(keys, val, p, st, A_ATOM);
      ConstDen(keys, val[A_ATOM], c, p);
    }
  }

  lemma CopyConst(keys: seq<Key>, val: Vals, s: Stmt, c: Word)
    requires Ordered(keys) && InRange(keys, val) && Source(s) >= 0 && IsConst(keys, val[Source(s)], c)
    ensures forall p, st {:trigger Value(s, p, st)} | ReadsRight(keys, val, s, p, st) :: Value(s, p, st) == Some(c)
  {
    forall p, st | ReadsRight(keys, val, s, p, st) ensures Value(s, p, st) == Some(c) {
      assert Right(keys, val, p, st, Source(s));
      ConstDen(keys, val[Source(s)], c, p);
    }
  }

  lemma ZeroWord(a: Word)
    ensures a + 0 == a && a << 0 == a && a >> 0 == a && a | 0 == a && a ^ 0 == a && a & 0 == 0 && a * 0 == 0
  {
  }

  lemma ZeroSecond(op: AluOp, a: Word)
    ensures Alu(op, a, 0) == match op
      case ADD | SUB | OR | XOR | LSH | RSH => Some(a)
      case MUL | AND => Some(0)
      case DIV | MOD => None
  {
    ZeroWord(a);
    hide Quotient, Remainder;
  }

  /** Which operations the operand 0 leaves without effect; `sub #0` is kept
      all the same. */
  lemma ZeroDropsIs(op: AluOp)
    ensures ZeroDrops(op) <==> op != SUB && forall a: Word :: Alu(op, a, 0) == Some(a)
  {
    hide Alu;
    ZeroSecond(op, 1);
    forall a: Word
      ensures Alu(op, a, 0) == Some(a) <==> op in {ADD, SUB, OR, XOR, LSH, RSH} || (op in {MUL, AND} && a == 0)
    {
      ZeroSecond(op, a);
    }
  }

  /** Which give 0 with it. */
  lemma ZeroWinsIs(op: AluOp)
    ensures ZeroWins(op) <==> forall a: Word :: Alu(op, a, 0) == Some(0)
  {
    hide Alu;
    ZeroSecond(op, 1);
    forall a: Word ensures Alu(op, a, 0) == Some(0) <==> op in {MUL, AND} || (op !in {DIV, MOD} && a == 0) {
      ZeroSecond(op, a);
    }
  }

  /** Which give the other operand with 0 in the accumulator. */
  lemma ZeroCopiesIs(op: AluOp)
    ensures ZeroCopies(op) <==> op != SUB && forall x: Word :: Alu(op, 0, x) == Some(x)
  {
    hide Alu;
    if op != SUB {
      forall x: Word ensures op in {ADD, OR, XOR} ==> Alu(op, 0, x) == Some(x) {
        ZeroAlu(op, x);
      }
      ZeroAlu(op, 1);
    }
  }

  /** Which fail with it. */
  lemma DividesIs(op: AluOp, a: Word)
    ensures Divides(op) <==> Alu(op, a, 0).None?
  {
    hide Alu;
    ZeroSecond(op, a);
  }

  /** Adding, shifting or or-ing 0 changes nothing. */
  lemma ZeroNop(keys: seq<Key>, val: Vals, s: Stmt)
    requires Ordered(keys) && InRange(keys, val) && s.AluK? && s.k == 0 && s.op in {ADD, LSH, RSH, OR, XOR}
    ensures StepRight(keys, val, s, keys, val[A_ATOM], Nop)
  {
    forall p, st ensures NumberRight(keys, val, s, keys, val[A_ATOM], p, st) && RewriteRight(keys, val, s, Nop, p, st) {
      ZeroWord(st[A_ATOM]);
      ExecPut(s, p, st);
      assert st[A_ATOM := st[A_ATOM]] == st;
      if ReadsRight(keys, val, s, p, st) {
        assert Right(keys, val, p, st, A_ATOM);
      }
    }
  }

  lemma ZeroImm(keys: seq<Key>, val: Vals, s: Stmt)
    requires Ordered(keys) && InRange(keys, val) && s.AluK? && s.k == 0 && s.op in {MUL, AND}
    ensures forall p, st {:trigger Value(s, p, st)} :: Value(s, p, st) == Some(0)
  {
    forall p, st ensures Value(s, p, st) == Some(0) {
      ZeroWord(st[A_ATOM]);
    }
  }

  /** With X constant an indexed load is an absolute one. */
  lemma IndRight(keys: seq<Key>, val: Vals, s: Stmt, size: Size, k: Word, x: Word, kx: Word, keys': seq<Key>, v: nat,
      s1: Stmt)
    requires Ordered(keys) && Ordered(keys') && InRange(keys, val) && s == LdInd(size, k)
      && IsConst(keys, val[X_ATOM], x)
    requires kx == k + x
    requires s1 == LdAbs(size, kx) && 1 <= v <= |keys'| && keys'[v - 1] == Key(CAbs(size), Const(kx), Num(0))
    ensures forall p, st {:trigger NumberRight(keys, val, s, keys', v, p, st)} ::
      NumberRight(keys, val, s, keys', v, p, st)
    ensures forall p, st {:trigger Value(s1, p, st)} | ReadsRight(keys, val, s, p, st) && Value(s, p, st).Some? ::
      Value(s1, p, st) == Value(s, p, st)
  {
    forall p, st | ReadsRight(keys, val, s, p, st) && Value(s, p, st).Some?
      ensures Value(s1, p, st) == Value(s, p, st) && Den(keys', v, p) == Value(s, p, st)
    {
      IndValue(keys, val, size, k, x, p, st);
      AbsDen(keys', v, size, kx, p);
    }
  }

  lemma IndValue(keys: seq<Key>, val: Vals, size: Size, k: Word, x: Word, p: Packet, st: State)
    requires Ordered(keys) && InRange(keys, val) && IsConst(keys, val[X_ATOM], x)
    requires ReadsRight(keys, val, LdInd(size, k), p, st) && Value(LdInd(size, k), p, st).Some?
    ensures Value(LdInd(size, k), p, st) == LoadAbs(size, k + x, p)
  {
    assert Right(keys, val, p, st, X_ATOM);
    ConstDen(keys, val[X_ATOM], x, p);
    IndAbs(size, k, x, p);
  }

  lemma IndAbs(size: Size, k: Word, x: Word, p: Packet)
    requires LoadInd(size, k, x, p).Some?
    ensures LoadAbs(size, k + x, p) == LoadInd(size, k, x, p)
  {
  }

  lemma AbsDen(keys: seq<Key>, v: nat, size: Size, k: Word, p: Packet)
    requires Ordered(keys) && 1 <= v <= |keys| && keys[v - 1] == Key(CAbs(size), Const(k), Num(0))
    ensures Den(keys, v, p) == LoadAbs(size, k, p)
  {
  }
}
