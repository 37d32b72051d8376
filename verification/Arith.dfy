/** Arithmetic expressions of the filter language: scratch registers are
    allocated as the code is generated, and a relation compares two values. */
module Arith {
  import opened Basics
  import opened Bpf
  import opened Blocks
  import opened Codegen
  import opened Liveness
  import opened Peephole

  /** Expressions over constants, the packet length and bytes of the link-layer
      header. */
  datatype Arth =
    | Num(k: Word)
    | Len
    | Load(size: Size, index: Arth)
    | Opposite(e: Arth)
    | Bin(op: AluOp, l: Arth, r: Arth)

  /** The value of an expression; None if a load runs past the packet, or at a
      division by zero. */
  function Value(e: Arth, p: Packet): Option<Word> {
    match e
    case Num(k) => Some(k)
    case Len => Some(p.wirelen)
    case Load(size, i) => (match Value(i, p) case None => None case Some(x) => LoadInd(size, 0, x, p))
    case Opposite(a) => (match Value(a, p) case None => None case Some(x) => Some(Minus(0, x)))
    case Bin(op, l, r) => Binary(op, Value(l, p), Value(r, p))
  }

  function Binary(op: AluOp, a: Option<Word>, b: Option<Word>): Option<Word> {
    if a.Some? && b.Some? then Alu(op, a.value, b.value) else None
  }

  /** How many registers an expression needs at a time. The right operand is
      computed while the left one waits in a register; a load is given its
      register before that of its index is returned. */
  function Need(e: Arth): (n: nat)
    ensures n >= 1
  {
    match e
    case Num(_) | Len => 1
    case Load(_, i) => Max(Need(i), 2)
    case Opposite(a) => Need(a)
    case Bin(_, l, r) => Max(Need(l), 1 + Need(r))
  }

  function Max(a: nat, b: nat): nat {
    if a > b then a else b
  }

  /** The operations of an expression. */
  function Ops(e: Arth): set<AluOp> {
    match e
    case Num(_) | Len => {}
    case Load(_, i) => Ops(i)
    case Opposite(a) => Ops(a)
    case Bin(op, l, r) => {op} + Ops(l) + Ops(r)
  }

  /** For p no mask of the expression is all ones; the right operand is the mask. */
  predicate MasksWith(e: Arth, p: Packet) {
    match e
    case Num(_) | Len => true
    case Load(_, i) => MasksWith(i, p)
    case Opposite(a) => MasksWith(a, p)
    case Bin(op, l, r) => MasksWith(l, p) && MasksWith(r, p) && (op == AND ==> Value(r, p) != Some(ALL_ONES))
  }

  // ------------------------------------------------ what generated code does

  /** After the statements register r holds v, and the registers of `kept` what
      they held; without a value they reject the packet. */
  ghost predicate Computes(ss: seq<Stmt>, r: Reg, kept: set<nat>, v: Option<Word>, p: Packet, st: State) {
    match ExecAll(ss, p, st)
    case None => v.None?
    case Some(e) => v == Some(e[r]) && forall x | x in kept && x < BPF_MEMWORDS :: e[x] == st[x]
  }

  ghost predicate Delivers(ss: seq<Stmt>, r: Reg, kept: set<nat>, e: Arth) {
    forall p, st {:trigger Computes(ss, r, kept, Value(e, p), p, st)} :: Computes(ss, r, kept, Value(e, p), p, st)
  }

  /** The statements read nothing that they have not set, apart from what is
      wanted after them. */
  ghost predicate SelfSet(ss: seq<Stmt>, r: Reg) {
    forall E: set<int> {:trigger LiveAt(ss, E)} :: LiveAt(ss, E) <= E - {r as int}
  }

  /** No arithmetic with constants, and with X only these operations. */
  ghost predicate OpsIn(ss: seq<Stmt>, ops: set<AluOp>) {
    forall i | 0 <= i < |ss| :: !ss[i].AluK? && (ss[i].AluX? ==> ss[i].op in ops)
  }

  /** p comes to statement i, with an X that the statements before it have set
      to something else than all ones. */
  ghost predicate Elsewhere(ss: seq<Stmt>, i: nat, p: Packet)
    requires i <= |ss|
  {
    && LiveAt(ss[..i], {X_ATOM}) == {}
    && forall st: State :: ExecAll(ss[..i], p, st).Some? && ExecAll(ss[..i], p, st).value[X_ATOM] != ALL_ONES
  }

  /** So it does to every mask. */
  ghost predicate Otherwise(ss: seq<Stmt>, p: Packet) {
    forall i | 0 <= i < |ss| && ss[i] == AluX(AND) :: Elsewhere(ss, i, p)
  }

  /** The masks of a packet that has a value stay what they are. */
  ghost predicate KeepsMasks(ss: seq<Stmt>, e: Arth) {
    forall p {:trigger Otherwise(ss, p)} | Value(e, p).Some? && MasksWith(e, p) :: Otherwise(ss, p)
  }

  // ---------------------------------------------------------- the allocator

  /** i registers on from start, around the table. */
  function Around(start: nat, i: nat): nat {
    if start + i < BPF_MEMWORDS then start + i else start + i - BPF_MEMWORDS
  }

  /** r is the first register from start on, around the table, that is not used. */
  ghost predicate NextFree(start: nat, used: set<nat>, r: nat) {
    exists n: nat {:trigger Around(start, n)} ::
      r == Around(start, n) && r !in used && forall i: nat {:trigger Around(start, i)} | i < n ::
        Around(start, i) in used
  }

  class Registers {
    const regused: array<bool>
    var curreg: nat

    ghost predicate Valid()
      reads this, regused
    {
      regused.Length == BPF_MEMWORDS && curreg < BPF_MEMWORDS
    }

    ghost function Used(): set<nat>
      reads this, regused
      requires Valid()
    {
      set r: nat | r < BPF_MEMWORDS && regused[r]
    }

    /** init_regs */
    constructor ()
      ensures Valid() && Used() == {} && fresh(regused) && curreg == 0
    {
      regused := new bool[BPF_MEMWORDS](r => false);
      curreg := 0;
    }

    /** The next free register, from the current one on; it fails only when
        there is none. */
    method AllocReg() returns (ok: bool, r: Reg)
      requires Valid()
      modifies this, regused
      ensures Valid() && (ok <==> exists x: nat :: x < BPF_MEMWORDS && x !in old(Used()))
      ensures ok ==> r !in old(Used()) && Used() == old(Used()) + {r} && curreg == r
      ensures ok ==> NextFree(old(curreg), old(Used()), r)
      ensures !ok ==> Used() == old(Used())
    {
      ghost var start := curreg;
      var n := BPF_MEMWORDS;
      r := 0;
      while n > 0
        invariant 0 <= n <= BPF_MEMWORDS && Valid() && regused[..] == old(regused[..])
        invariant curreg == Around(start, BPF_MEMWORDS - n)
        invariant forall i: nat {:trigger Around(start, i)} | i < BPF_MEMWORDS - n :: regused[Around(start, i)]
      {
        n := n - 1;
        if regused[curreg] {
          curreg := (curreg + 1) % BPF_MEMWORDS;
        } else {
          assert curreg !in old(Used());
          regused[curreg] := true;
          return true, curreg;
        }
      }
      forall x: nat | x < BPF_MEMWORDS ensures regused[x] {
        assert Around(start, if x >= start then x - start else x + BPF_MEMWORDS - start) == x;
      }
      ok := false;
    }

    method FreeReg(r: Reg)
      requires Valid()
      modifies regused
      ensures Valid() && Used() == old(Used()) - {r} && curreg == old(curreg)
    {
      regused[r] := false;
    }
  }

  // -------------------------------------------------- sequences of statements

  lemma {:induction false} ExecFirst(s: Stmt, ss: seq<Stmt>, p: Packet, st: State)
    ensures ExecAll([s] + ss, p, st) == match Exec(s, p, st) { case None => None case Some(e) => ExecAll(ss, p, e) }
  {
    hide Exec;
    assert ([s] + ss)[1..] == ss;
  }

  function BinTail(op: AluOp, r0: Reg, r1: Reg, r: Reg): seq<Stmt> {
    [LdxMem(r1)] + ([LdMem(r0)] + ([AluX(op)] + ([St(r)] + [])))
  }

  lemma BinTailExec(op: AluOp, r0: Reg, r1: Reg, r: Reg, p: Packet, st: State)
    ensures ExecAll(BinTail(op, r0, r1, r), p, st) == match Alu(op, st[r0], st[r1])
      case None => None
      case Some(v) => Some(st[X_ATOM := st[r1]][A_ATOM := st[r0]][A_ATOM := v][r := v])
  {
    hide Alu;
    var st1 := st[X_ATOM := st[r1]];
    var st2 := st1[A_ATOM := st1[r0]];
    ExecFirst(LdxMem(r1), [LdMem(r0)] + ([AluX(op)] + ([St(r)] + [])), p, st);
    ExecFirst(LdMem(r0), [AluX(op)] + ([St(r)] + []), p, st1);
    ExecFirst(AluX(op), [St(r)] + [], p, st2);
    match Alu(op, st[r0], st[r1])
    case None =>
    case Some(v) => ExecFirst(St(r), [], p, st2[A_ATOM := v]);
  }

  function LoadTail(size: Size, r0: Reg, r: Reg): seq<Stmt> {
    [LdxMem(r0)] + ([LdInd(size, 0)] + ([St(r)] + []))
  }

  lemma LoadTailExec(size: Size, r0: Reg, r: Reg, p: Packet, st: State)
    ensures ExecAll(LoadTail(size, r0, r), p, st) == match LoadInd(size, 0, st[r0], p)
      case None => None
      case Some(v) => Some(st[X_ATOM := st[r0]][A_ATOM := v][r := v])
  {
    hide LoadInd;
    var st1 := st[X_ATOM := st[r0]];
    ExecFirst(LdxMem(r0), [LdInd(size, 0)] + ([St(r)] + []), p, st);
    ExecFirst(LdInd(size, 0), [St(r)] + [], p, st1);
    match LoadInd(size, 0, st[r0], p)
    case None =>
    case Some(v) => ExecFirst(St(r), [], p, st1[A_ATOM := v]);
  }

  function NegTail(r: Reg): seq<Stmt> {
    [LdMem(r)] + ([Stmt.Neg] + ([St(r)] + []))
  }

  lemma NegTailExec(r: Reg, p: Packet, st: State)
    ensures ExecAll(NegTail(r), p, st) == Some(st[A_ATOM := st[r]][A_ATOM := Minus(0, st[r])][r := Minus(0, st[r])])
  {
    var st1 := st[A_ATOM := st[r]];
    ExecFirst(LdMem(r), [Stmt.Neg] + ([St(r)] + []), p, st);
    ExecFirst(Stmt.Neg, [St(r)] + [], p, st1);
    ExecFirst(St(r), [], p, st1[A_ATOM := Minus(0, st[r])]);
  }

  lemma ImmExec(s: Stmt, v: Word, r: Reg, p: Packet, st: State)
    requires s == LdImm(v) || (s == LdLen && v == p.wirelen)
    ensures ExecAll([s] + ([St(r)] + []), p, st) == Some(st[A_ATOM := v][r := v])
  {
    ExecFirst(s, [St(r)] + [], p, st);
    ExecFirst(St(r), [], p, st[A_ATOM := v]);
  }

  // ------------------------------------------------------ what is delivered

  lemma BinDelivers(s0: seq<Stmt>, r0: Reg, l: Arth, s1: seq<Stmt>, r1: Reg, r: Arth, kept: set<nat>, op: AluOp,
      r2: Reg)
    requires Delivers(s0, r0, kept, l) && Delivers(s1, r1, kept + {r0}, r) && r0 !in kept && r1 !in kept && r2 !in kept
    ensures Delivers(s0 + (s1 + BinTail(op, r0, r1, r2)), r2, kept, Bin(op, l, r))
  {
    hide Alu;
    var t := BinTail(op, r0, r1, r2);
    forall p, st ensures Computes(s0 + (s1 + t), r2, kept, Value(Bin(op, l, r), p), p, st) {
      ExecAllConcat(s0, s1 + t, p, st);
      assert Computes(s0, r0, kept, Value(l, p), p, st);
      if ExecAll(s0, p, st).Some? {
        var e := ExecAll(s0, p, st).value;
        ExecAllConcat(s1, t, p, e);
        assert Computes(s1, r1, kept + {r0}, Value(r, p), p, e);
        if ExecAll(s1, p, e).Some? {
          BinTailExec(op, r0, r1, r2, p, ExecAll(s1, p, e).value);
        }
      }
    }
  }

  lemma LoadDelivers(s0: seq<Stmt>, r0: Reg, i: Arth, kept: set<nat>, size: Size, r: Reg)
    requires Delivers(s0, r0, kept, i) && r0 !in kept && r !in kept
    ensures Delivers(s0 + LoadTail(size, r0, r), r, kept, Load(size, i))
  {
    hide LoadInd;
    forall p, st ensures Computes(s0 + LoadTail(size, r0, r), r, kept, Value(Load(size, i), p), p, st) {
      ExecAllConcat(s0, LoadTail(size, r0, r), p, st);
      assert Computes(s0, r0, kept, Value(i, p), p, st);
      if ExecAll(s0, p, st).Some? {
        LoadTailExec(size, r0, r, p, ExecAll(s0, p, st).value);
      }
    }
  }

  lemma NegDelivers(s0: seq<Stmt>, r: Reg, e: Arth, kept: set<nat>)
    requires Delivers(s0, r, kept, e) && r !in kept
    ensures Delivers(s0 + NegTail(r), r, kept, Opposite(e))
  {
    forall p, st ensures Computes(s0 + NegTail(r), r, kept, Value(Opposite(e), p), p, st) {
      ExecAllConcat(s0, NegTail(r), p, st);
      assert Computes(s0, r, kept, Value(e, p), p, st);
      if ExecAll(s0, p, st).Some? {
        NegTailExec(r, p, ExecAll(s0, p, st).value);
      }
    }
  }

  // ------------------------------------------------------ what is read

  lemma LiveFirst(s: Stmt, ss: seq<Stmt>, E: set<int>)
    ensures LiveAt([s] + ss, E) == Atoms(AtomUse(s)) + (LiveAt(ss, E) - {AtomDef(s)})
  {
    assert ([s] + ss)[1..] == ss;
  }

  lemma BinTailLive(op: AluOp, r0: Reg, r1: Reg, r: Reg, E: set<int>)
    ensures LiveAt(BinTail(op, r0, r1, r), E) <= {r0 as int, r1 as int} + (E - {r as int})
  {
    LiveFirst(LdxMem(r1), [LdMem(r0)] + ([AluX(op)] + ([St(r)] + [])), E);
    LiveFirst(LdMem(r0), [AluX(op)] + ([St(r)] + []), E);
    LiveFirst(AluX(op), [St(r)] + [], E);
    LiveFirst(St(r), [], E);
  }

  lemma BinSelf(s0: seq<Stmt>, r0: Reg, s1: seq<Stmt>, r1: Reg, op: AluOp, r: Reg)
    requires SelfSet(s0, r0) && SelfSet(s1, r1)
    ensures SelfSet(s0 + (s1 + BinTail(op, r0, r1, r)), r)
  {
    var t := BinTail(op, r0, r1, r);
    forall E: set<int> ensures LiveAt(s0 + (s1 + t), E) <= E - {r as int} {
      LiveAtConcat(s0, s1 + t, E);
      LiveAtConcat(s1, t, E);
      BinTailLive(op, r0, r1, r, E);
    }
  }

  lemma LoadSelf(s0: seq<Stmt>, r0: Reg, size: Size, r: Reg)
    requires SelfSet(s0, r0)
    ensures SelfSet(s0 + LoadTail(size, r0, r), r)
  {
    forall E: set<int> ensures LiveAt(s0 + LoadTail(size, r0, r), E) <= E - {r as int} {
      LiveAtConcat(s0, LoadTail(size, r0, r), E);
      LiveFirst(LdxMem(r0), [LdInd(size, 0)] + ([St(r)] + []), E);
      LiveFirst(LdInd(size, 0), [St(r)] + [], E);
      LiveFirst(St(r), [], E);
    }
  }

  lemma NegSelf(s0: seq<Stmt>, r: Reg)
    requires SelfSet(s0, r)
    ensures SelfSet(s0 + NegTail(r), r)
  {
    forall E: set<int> ensures LiveAt(s0 + NegTail(r), E) <= E - {r as int} {
      LiveAtConcat(s0, NegTail(r), E);
      LiveFirst(LdMem(r), [Stmt.Neg] + ([St(r)] + []), E);
      LiveFirst(Stmt.Neg, [St(r)] + [], E);
      LiveFirst(St(r), [], E);
    }
  }

  lemma BinOps(s0: seq<Stmt>, l: Arth, s1: seq<Stmt>, r: Arth, op: AluOp, r0: Reg, r1: Reg, r2: Reg)
    requires OpsIn(s0, Ops(l)) && OpsIn(s1, Ops(r))
    ensures OpsIn(s0 + (s1 + BinTail(op, r0, r1, r2)), Ops(Bin(op, l, r)))
  {
  }

  lemma LoadOps(s0: seq<Stmt>, i: Arth, size: Size, r0: Reg, r: Reg)
    requires OpsIn(s0, Ops(i))
    ensures OpsIn(s0 + LoadTail(size, r0, r), Ops(Load(size, i)))
  {
  }

  lemma NegOps(s0: seq<Stmt>, e: Arth, r: Reg)
    requires OpsIn(s0, Ops(e))
    ensures OpsIn(s0 + NegTail(r), Ops(Opposite(e)))
  {
  }

  /** Statements after a mask change nothing about it. */
  lemma ElsewhereFirst(s0: seq<Stmt>, t: seq<Stmt>, i: nat, p: Packet)
    requires i < |s0| && Elsewhere(s0, i, p)
    ensures Elsewhere(s0 + t, i, p)
  {
    assert (s0 + t)[..i] == s0[..i];
  }

  /** Nor do statements before it that let the packet through. */
  lemma ElsewhereNext(s0: seq<Stmt>, r0: Reg, s1: seq<Stmt>, i: nat, p: Packet)
    requires SelfSet(s0, r0) && (forall st: State :: ExecAll(s0, p, st).Some?) && i < |s1| && Elsewhere(s1, i, p)
    ensures Elsewhere(s0 + s1, |s0| + i, p)
  {
    assert (s0 + s1)[..|s0| + i] == s0 + s1[..i];
    LiveAtConcat(s0, s1[..i], {X_ATOM});
    forall st: State
      ensures ExecAll(s0 + s1[..i], p, st).Some? && ExecAll(s0 + s1[..i], p, st).value[X_ATOM] != ALL_ONES
    {
      ExecAllConcat(s0, s1[..i], p, st);
    }
  }

  lemma OtherwiseJoined(s0: seq<Stmt>, r0: Reg, s1: seq<Stmt>, p: Packet)
    requires SelfSet(s0, r0) && (forall st: State :: ExecAll(s0, p, st).Some?) && Otherwise(s0, p) && Otherwise(s1, p)
    ensures Otherwise(s0 + s1, p)
  {
    hide Elsewhere, SelfSet;
    forall i | 0 <= i < |s0 + s1| && (s0 + s1)[i] == AluX(AND) ensures Elsewhere(s0 + s1, i, p) {
      if i < |s0| {
        ElsewhereFirst(s0, s1, i, p);
      } else {
        ElsewhereNext(s0, r0, s1, i - |s0|, p);
      }
    }
  }

  lemma OperandsExec(r0: Reg, r1: Reg, p: Packet, st: State)
    ensures ExecAll([LdxMem(r1)] + ([LdMem(r0)] + []), p, st) == Some(st[X_ATOM := st[r1]][A_ATOM := st[r0]])
  {
    MovesExec(r0, r1, p, st);
    ExecFirst(LdxMem(r1), [LdMem(r0)] + [], p, st);
    ExecFirst(LdMem(r0), [], p, st[X_ATOM := st[r1]]);
  }

  lemma OperandsLive(r0: Reg, r1: Reg)
    ensures LiveAt([LdxMem(r1)] + ([LdMem(r0)] + []), {X_ATOM}) <= {r0 as int, r1 as int}
  {
    LiveFirst(LdxMem(r1), [LdMem(r0)] + [], {X_ATOM});
    LiveFirst(LdMem(r0), [], {X_ATOM});
    assert LiveAt([], {X_ATOM}) == {X_ATOM};
  }

  /** The X of an operation is its right operand. */
  lemma OperandsElsewhere(s0: seq<Stmt>, r0: Reg, l: Arth, s1: seq<Stmt>, r1: Reg, r: Arth, kept: set<nat>,
      t: seq<Stmt>, p: Packet)
    requires Delivers(s0, r0, kept, l) && Delivers(s1, r1, kept + {r0}, r) && SelfSet(s0, r0) && SelfSet(s1, r1)
    requires Value(l, p).Some? && Value(r, p).Some? && Value(r, p) != Some(ALL_ONES)
    ensures Elsewhere(s0 + (s1 + ([LdxMem(r1)] + ([LdMem(r0)] + t))), |s0| + |s1| + 2, p)
  {
    var ss, o, front := s0 + (s1 + ([LdxMem(r1)] + ([LdMem(r0)] + t))), [LdxMem(r1)] + ([LdMem(r0)] + []), {X_ATOM};
    assert ss[..|s0| + |s1| + 2] == s0 + (s1 + o);
    LiveAtConcat(s0, s1 + o, front);
    LiveAtConcat(s1, o, front);
    OperandsLive(r0, r1);
    LiveAtMono(s1, LiveAt(o, front), {r0 as int, r1 as int});
    LiveAtMono(s0, LiveAt(s1, LiveAt(o, front)), {r0 as int});
    assert LiveAt(s0, {r0 as int}) <= {r0 as int} - {r0 as int};
    assert LiveAt(s1, {r0 as int, r1 as int}) <= {r0 as int, r1 as int} - {r1 as int};
    forall st: State
      ensures ExecAll(s0 + (s1 + o), p, st).Some? && ExecAll(s0 + (s1 + o), p, st).value[X_ATOM] != ALL_ONES
    {
      hide ExecAll, LiveAt, Value;
      ExecAllConcat(s0, s1 + o, p, st);
      assert Computes(s0, r0, kept, Value(l, p), p, st);
      var e := ExecAll(s0, p, st).value;
      ExecAllConcat(s1, o, p, e);
      assert Computes(s1, r1, kept + {r0}, Value(r, p), p, e);
      OperandsExec(r0, r1, p, ExecAll(s1, p, e).value);
    }
  }

  lemma DeliversPasses(ss: seq<Stmt>, r: Reg, kept: set<nat>, e: Arth, p: Packet)
    requires Delivers(ss, r, kept, e) && Value(e, p).Some?
    ensures forall st: State :: ExecAll(ss, p, st).Some?
  {
    forall st: State ensures ExecAll(ss, p, st).Some? {
      assert Computes(ss, r, kept, Value(e, p), p, st);
    }
  }

  /** Both operands, as they stand before an operation or a test. */
  lemma BothMasks(s0: seq<Stmt>, r0: Reg, l: Arth, s1: seq<Stmt>, r1: Reg, r: Arth, kept: set<nat>, t: seq<Stmt>,
      p: Packet)
    requires Delivers(s0, r0, kept, l) && Delivers(s1, r1, kept + {r0}, r) && SelfSet(s0, r0) && SelfSet(s1, r1)
    requires KeepsMasks(s0, l) && KeepsMasks(s1, r)
    requires Value(l, p).Some? && MasksWith(l, p) && Value(r, p).Some? && MasksWith(r, p)
    requires AluX(AND) !in t
    ensures Otherwise(s0 + (s1 + t), p)
  {
    DeliversPasses(s0, r0, kept, l, p);
    DeliversPasses(s1, r1, kept + {r0}, r, p);
    assert Otherwise(s0, p) && Otherwise(s1, p) && Otherwise(t, p);
    hide Otherwise, Delivers, Value, SelfSet, MasksWith;
    OtherwiseJoined(s1, r1, t, p);
    OtherwiseJoined(s0, r0, s1 + t, p);
  }

  lemma BinMasks(s0: seq<Stmt>, r0: Reg, l: Arth, s1: seq<Stmt>, r1: Reg, r: Arth, kept: set<nat>, op: AluOp, r2: Reg)
    requires Delivers(s0, r0, kept, l) && Delivers(s1, r1, kept + {r0}, r) && SelfSet(s0, r0) && SelfSet(s1, r1)
    requires KeepsMasks(s0, l) && KeepsMasks(s1, r)
    ensures KeepsMasks(s0 + (s1 + BinTail(op, r0, r1, r2)), Bin(op, l, r))
  {
    hide Delivers, SelfSet, Alu, Elsewhere, KeepsMasks;
    var ss := s0 + (s1 + BinTail(op, r0, r1, r2));
    forall p | Value(Bin(op, l, r), p).Some? && MasksWith(Bin(op, l, r), p) ensures Otherwise(ss, p) {
      BinMasked(s0, r0, l, s1, r1, r, kept, op, r2, p);
    }
    KeepsMasksHas(ss, Bin(op, l, r));
  }

  lemma KeepsMasksHas(ss: seq<Stmt>, e: Arth)
    requires forall p {:trigger Otherwise(ss, p)} | Value(e, p).Some? && MasksWith(e, p) :: Otherwise(ss, p)
    ensures KeepsMasks(ss, e)
  {
  }

  lemma BinMasked(s0: seq<Stmt>, r0: Reg, l: Arth, s1: seq<Stmt>, r1: Reg, r: Arth, kept: set<nat>, op: AluOp, r2: Reg,
      p: Packet)
    requires Delivers(s0, r0, kept, l) && Delivers(s1, r1, kept + {r0}, r) && SelfSet(s0, r0) && SelfSet(s1, r1)
    requires KeepsMasks(s0, l) && KeepsMasks(s1, r)
    requires Value(Bin(op, l, r), p).Some? && MasksWith(Bin(op, l, r), p)
    ensures Otherwise(s0 + (s1 + BinTail(op, r0, r1, r2)), p)
  {
    hide Delivers, SelfSet, Alu, Elsewhere, KeepsMasks;
    var t, n := [AluX(op)] + ([St(r2)] + []), |s0| + |s1| + 2;
    var ss, front := s0 + (s1 + BinTail(op, r0, r1, r2)), [LdxMem(r1)] + ([LdMem(r0)] + []);
    BothMasks(s0, r0, l, s1, r1, r, kept, front, p);
    var ff := s0 + (s1 + front);
    assert ss == ff + t && |ff| == n;
    forall i | 0 <= i < |ss| && ss[i] == AluX(AND) ensures Elsewhere(ss, i, p) {
      if i < n {
        assert ff[i] == AluX(AND);
        ElsewhereFirst(ff, t, i, p);
      } else {
        assert i == n && op == AND;
        OperandsElsewhere(s0, r0, l, s1, r1, r, kept, t, p);
      }
    }
  }

  /** One operand, before what makes no mask. */
  lemma TailMasks(s0: seq<Stmt>, r0: Reg, e: Arth, kept: set<nat>, t: seq<Stmt>, whole: Arth)
    requires Delivers(s0, r0, kept, e) && SelfSet(s0, r0) && KeepsMasks(s0, e) && AluX(AND) !in t
    requires whole == Opposite(e) || (whole.Load? && whole.index == e)
    ensures KeepsMasks(s0 + t, whole)
  {
    forall p | Value(whole, p).Some? && MasksWith(whole, p) ensures Otherwise(s0 + t, p) {
      DeliversPasses(s0, r0, kept, e, p);
      assert Otherwise(s0, p) && Otherwise(t, p);
      OtherwiseJoined(s0, r0, t, p);
    }
    KeepsMasksHas(s0 + t, whole);
  }

  lemma ImmSelf(s: Stmt, r: Reg)
    requires AtomUse(s) == -1 && AtomDef(s) == A_ATOM
    ensures SelfSet([s] + ([St(r)] + []), r)
  {
    forall E: set<int> ensures LiveAt([s] + ([St(r)] + []), E) <= E - {r as int} {
      LiveFirst(s, [St(r)] + [], E);
      LiveFirst(St(r), [], E);
    }
  }

  lemma ImmDelivers(s: Stmt, e: Arth, kept: set<nat>, r: Reg)
    requires (e.Num? && s == LdImm(e.k)) || (e.Len? && s == LdLen)
    requires r !in kept
    ensures Delivers([s] + ([St(r)] + []), r, kept, e)
  {
    forall p, st ensures Computes([s] + ([St(r)] + []), r, kept, Value(e, p), p, st) {
      ImmExec(s, Value(e, p).value, r, p, st);
    }
  }

  lemma ImmGenerates(s: Stmt, e: Arth, used: set<nat>, r: Reg)
    requires ((e.Num? && s == LdImm(e.k)) || (e.Len? && s == LdLen)) && r !in used
    ensures Generates(Gened([s] + ([St(r)] + []), r), used, e)
  {
    ImmDelivers(s, e, used, r);
    ImmSelf(s, r);
    hide Delivers, SelfSet;
  }

  // ----------------------------------------------------------- generation

  /** Some register is free exactly if fewer than all are in use. */
  lemma FreeCount(used: set<nat>, n: nat)
    requires forall r | r in used :: r < n
    ensures |used| <= n && (|used| < n <==> exists r: nat :: r < n && r !in used)
  {
    if n > 0 {
      FreeCount(used - {n - 1}, n - 1);
      if n - 1 in used {
        assert used == (used - {n - 1}) + {n - 1};
        assert |used| == |used - {n - 1}| + 1;
        if r: nat :| r < n && r !in used {
          assert r < n - 1 && r !in used - {n - 1};
        }
        var less := used - {n - 1};
        if r: nat :| r < n - 1 && r !in less {
          assert r < n && r !in used;
        }
      } else {
        assert used - {n - 1} == used;
      }
    }
  }

  /** What was generated for an expression, with the registers in use before. */
  datatype Gened = Gened(s: seq<Stmt>, regno: Reg)

  ghost predicate Generates(g: Gened, used: set<nat>, e: Arth) {
    g.regno !in used && Delivers(g.s, g.regno, used, e) && SelfSet(g.s, g.regno) && OpsIn(g.s, Ops(e))
    && KeepsMasks(g.s, e)
  }

  /** The registers left. */
  ghost function Left(regs: Registers): int
    reads regs, regs.regused
    requires regs.Valid()
  {
    BPF_MEMWORDS - |regs.Used()|
  }

  /** gen_loadi, gen_loadlen */
  method GenImm(regs: Registers, s: Stmt, ghost e: Arth) returns (ok: bool, g: Gened)
    requires regs.Valid() && ((e.Num? && s == LdImm(e.k)) || (e.Len? && s == LdLen))
    modifies regs, regs.regused
    ensures regs.Valid() && (ok <==> 1 <= old(Left(regs)))
    ensures ok ==> regs.Used() == old(regs.Used()) + {g.regno} && Generates(g, old(regs.Used()), e)
  {
    ghost var used := regs.Used();
    FreeCount(used, BPF_MEMWORDS);
    var r;
    ok, r := regs.AllocReg();
    g := Gened([s] + ([St(r)] + []), r);
    if ok {
      hide Generates;
      ImmGenerates(s, e, used, r);
    }
  }

  /** gen_load on the link-layer header of Ethernet */
  method GenLoad(regs: Registers, size: Size, g0: Gened, ghost used: set<nat>, ghost i: Arth)
      returns (ok: bool, g: Gened)
    requires regs.Valid() && Generates(g0, used, i) && regs.Used() == used + {g0.regno}
    modifies regs, regs.regused
    ensures regs.Valid() && (ok <==> 1 <= old(Left(regs)))
    ensures ok ==> regs.Used() == used + {g.regno} && Generates(g, used, Load(size, i))
  {
    FreeCount(regs.Used(), BPF_MEMWORDS);
    var r;
    ok, r := regs.AllocReg();
    g := Gened(g0.s + LoadTail(size, g0.regno, r), r);
    if ok {
      regs.FreeReg(g0.regno);
      LoadDelivers(g0.s, g0.regno, i, used, size, r);
      LoadSelf(g0.s, g0.regno, size, r);
      LoadOps(g0.s, i, size, g0.regno, r);
      TailMasks(g0.s, g0.regno, i, used, LoadTail(size, g0.regno, r), Load(size, i));
    }
  }

  method GenNeg(g0: Gened, ghost used: set<nat>, ghost e: Arth) returns (g: Gened)
    requires Generates(g0, used, e)
    ensures g.regno == g0.regno && Generates(g, used, Opposite(e))
  {
    g := Gened(g0.s + NegTail(g0.regno), g0.regno);
    NegDelivers(g0.s, g0.regno, e, used);
    NegSelf(g0.s, g0.regno);
    NegOps(g0.s, e, g0.regno);
    TailMasks(g0.s, g0.regno, e, used, NegTail(g0.regno), Opposite(e));
  }

  /** gen_arth: it frees two registers before it takes one. */
  method GenArth(regs: Registers, op: AluOp, g0: Gened, g1: Gened, ghost used: set<nat>, ghost l: Arth, ghost r: Arth)
      returns (g: Gened)
    requires regs.Valid() && Generates(g0, used, l) && Generates(g1, used + {g0.regno}, r)
    requires regs.Used() == used + {g0.regno} + {g1.regno}
    modifies regs, regs.regused
    ensures regs.Valid() && regs.Used() == used + {g.regno} && Generates(g, used, Bin(op, l, r))
  {
    regs.FreeReg(g0.regno);
    regs.FreeReg(g1.regno);
    assert regs.Used() == used && g0.regno !in used;
    var ok, reg := regs.AllocReg();
    g := Gened(g0.s + (g1.s + BinTail(op, g0.regno, g1.regno, reg)), reg);
    BinDelivers(g0.s, g0.regno, l, g1.s, g1.regno, r, used, op, reg);
    BinSelf(g0.s, g0.regno, g1.s, g1.regno, op, reg);
    BinOps(g0.s, l, g1.s, r, op, g0.regno, g1.regno, reg);
    BinMasks(g0.s, g0.regno, l, g1.s, g1.regno, r, used, op, reg);
  }

  lemma UsedOne(used: set<nat>, r: nat)
    requires r !in used
    ensures |used + {r}| == |used| + 1
  {
  }

  /** The parser's calls for an expression: it needs as many registers as Need
      says, no more and no fewer. */
  method Gen(regs: Registers, e: Arth) returns (ok: bool, g: Gened)
    requires regs.Valid()
    modifies regs, regs.regused
    ensures regs.Valid() && (ok <==> Need(e) <= old(Left(regs)))
    ensures ok ==> regs.Used() == old(regs.Used()) + {g.regno} && Generates(g, old(regs.Used()), e)
    decreases e
  {
    ghost var used := regs.Used();
    match e
    case Num(k) => ok, g := GenImm(regs, LdImm(k), e);
    case Len => ok, g := GenImm(regs, LdLen, e);
    case Load(size, i) =>
      ok, g := Gen(regs, i);
      if ok {
        UsedOne(used, g.regno);
        ok, g := GenLoad(regs, size, g, used, i);
      }
    case Opposite(a) =>
      ok, g := Gen(regs, a);
      if ok {
        g := GenNeg(g, used, a);
      }
    case Bin(op, l, r) =>
      var g0, g1;
      ok, g0 := Gen(regs, l);
      g := g0;
      if ok {
        UsedOne(used, g0.regno);
        ok, g1 := Gen(regs, r);
        if ok {
          g := GenArth(regs, op, g0, g1, used, l, r);
        }
      }
  }

  // ------------------------------------------------------------- relations

  function RelTail(code: Test, r0: Reg, r1: Reg): seq<Stmt> {
    [LdxMem(r1)] + ([LdMem(r0)] + if code == JEQ then [AluX(SUB)] + [] else [])
  }

  /** Equality is tested by a difference of 0. */
  function RelCond(code: Test): Cond {
    if code == JEQ then JmpK(JEQ, 0) else JmpX(code)
  }

  lemma RelExec(code: Test, r0: Reg, r1: Reg, p: Packet, st: State)
    requires code != JSET
    ensures ExecAll(RelTail(code, r0, r1), p, st).Some?
    ensures Taken(RelCond(code), ExecAll(RelTail(code, r0, r1), p, st).value) == Holds(code, st[r0], st[r1])
  {
    hide Exec, Holds, Minus;
    var st1 := st[X_ATOM := st[r1]];
    var st2 := st1[A_ATOM := st[r0]];
    MovesExec(r0, r1, p, st);
    ExecFirst(LdxMem(r1), [LdMem(r0)] + if code == JEQ then [AluX(SUB)] + [] else [], p, st);
    ExecFirst(LdMem(r0), if code == JEQ then [AluX(SUB)] + [] else [], p, st1);
    if code == JEQ {
      ExecFirst(AluX(SUB), [], p, st2);
      ExecSubX(p, st2);
      SubZeroHolds(st[r0], st[r1]);
    }
  }

  lemma MovesExec(r0: Reg, r1: Reg, p: Packet, st: State)
    ensures Exec(LdxMem(r1), p, st) == Some(st[X_ATOM := st[r1]])
    ensures Exec(LdMem(r0), p, st[X_ATOM := st[r1]]) == Some(st[X_ATOM := st[r1]][A_ATOM := st[r0]])
  {
  }

  /** A relation of two values: the packet is rejected if one of them has no
      value, and otherwise tested by an unsigned comparison. */
  ghost predicate Compares(f: Filter, code: Test, l: Arth, r: Arth, reversed: bool, p: Packet, st: State) {
    match Eval(f, p, st)
    case Reject => Value(l, p).None? || Value(r, p).None?
    case Exit(taken, _) =>
      Value(l, p).Some? && Value(r, p).Some? && taken == (Holds(code, Value(l, p).value, Value(r, p).value) != reversed)
  }

  lemma RelCompares(g0: Gened, g1: Gened, used: set<nat>, code: Test, l: Arth, r: Arth, p: Packet, st: State)
    requires Generates(g0, used, l) && Generates(g1, used + {g0.regno}, r) && code != JSET
    ensures var f := Prim(g0.s + (g1.s + RelTail(code, g0.regno, g1.regno)), RelCond(code));
      Compares(f, code, l, r, false, p, st) && Compares(Not(f), code, l, r, true, p, st)
  {
    hide Holds;
    var t := RelTail(code, g0.regno, g1.regno);
    ExecAllConcat(g0.s, g1.s + t, p, st);
    assert Computes(g0.s, g0.regno, used, Value(l, p), p, st);
    if ExecAll(g0.s, p, st).Some? {
      var e := ExecAll(g0.s, p, st).value;
      ExecAllConcat(g1.s, t, p, e);
      assert Computes(g1.s, g1.regno, used + {g0.regno}, Value(r, p), p, e);
      if ExecAll(g1.s, p, e).Some? {
        RelExec(code, g0.regno, g1.regno, p, ExecAll(g1.s, p, e).value);
      }
    }
  }

  /** The block of a relation loads what it tests. */
  lemma RelOwn(g0: Gened, g1: Gened, code: Test)
    requires SelfSet(g0.s, g0.regno) && SelfSet(g1.s, g1.regno)
    ensures LiveAt(g0.s + (g1.s + RelTail(code, g0.regno, g1.regno)), Atoms(BranchUse(Branch.Jmp(RelCond(code))))) == {}
  {
    var r0, r1, E := g0.regno, g1.regno, Atoms(BranchUse(Branch.Jmp(RelCond(code))));
    var t := RelTail(code, r0, r1);
    LiveAtConcat(g0.s, g1.s + t, E);
    LiveAtConcat(g1.s, t, E);
    LiveFirst(LdxMem(r1), [LdMem(r0)] + if code == JEQ then [AluX(SUB)] + [] else [], E);
    LiveFirst(LdMem(r0), if code == JEQ then [AluX(SUB)] + [] else [], E);
    if code == JEQ {
      LiveFirst(AluX(SUB), [], E);
    }
    assert LiveAt(t, E) <= {r0 as int, r1 as int};
    LiveAtMono(g1.s, LiveAt(t, E), {r0 as int, r1 as int});
    LiveAtMono(g0.s, LiveAt(g1.s, LiveAt(t, E)), {r0 as int});
    assert LiveAt(g0.s, {r0 as int}) <= {r0 as int} - {r0 as int};
  }

  /** The test of a relation, without its reversal. */
  function Inner(f: Filter, reversed: bool): Filter {
    if reversed && f.Not? then f.e else f
  }

  /** It loads what it tests, has the operations of its operands and a
      subtraction, and keeps their masks. */
  ghost predicate TestsRelation(t: Filter, code: Test, l: Arth, r: Arth) {
    && t.Prim? && t.cond == RelCond(code) && LiveAt(t.stmts, Atoms(BranchUse(Branch.Jmp(t.cond)))) == {}
    && OpsIn(t.stmts, Ops(l) + Ops(r) + {SUB})
    && forall p {:trigger Otherwise(t.stmts, p)}
         | Value(l, p).Some? && MasksWith(l, p) && Value(r, p).Some? && MasksWith(r, p) :: Otherwise(t.stmts, p)
  }

  lemma RelTailOps(s0: seq<Stmt>, l: Arth, s1: seq<Stmt>, r: Arth, code: Test, r0: Reg, r1: Reg)
    requires OpsIn(s0, Ops(l)) && OpsIn(s1, Ops(r))
    ensures OpsIn(s0 + (s1 + RelTail(code, r0, r1)), Ops(l) + Ops(r) + {SUB}) && AluX(AND) !in RelTail(code, r0, r1)
  {
  }

  lemma RelTests(g0: Gened, g1: Gened, used: set<nat>, code: Test, l: Arth, r: Arth)
    requires Generates(g0, used, l) && Generates(g1, used + {g0.regno}, r)
    ensures TestsRelation(Prim(g0.s + (g1.s + RelTail(code, g0.regno, g1.regno)), RelCond(code)), code, l, r)
  {
    RelOwn(g0, g1, code);
    RelTailOps(g0.s, l, g1.s, r, code, g0.regno, g1.regno);
    hide Delivers, SelfSet, KeepsMasks, Otherwise, RelTail, OpsIn, LiveAt, Value, MasksWith, Ops, RelCond;
    var t := RelTail(code, g0.regno, g1.regno);
    forall p | Value(l, p).Some? && MasksWith(l, p) && Value(r, p).Some? && MasksWith(r, p)
      ensures Otherwise(g0.s + (g1.s + t), p)
    {
      BothMasks(g0.s, g0.regno, l, g1.s, g1.regno, r, used, t, p);
    }
  }

  /** gen_relation: the test for a relation of two expressions without protocol
      checks; the registers of both are free again. */
  method GenRelation(regs: Registers, code: Test, g0: Gened, g1: Gened, reversed: bool, ghost used: set<nat>,
      ghost l: Arth, ghost r: Arth)
      returns (f: Filter)
    requires regs.Valid() && Generates(g0, used, l) && Generates(g1, used + {g0.regno}, r) && code != JSET
    requires regs.Used() == used + {g0.regno} + {g1.regno}
    modifies regs, regs.regused
    ensures regs.Valid() && regs.Used() == used
    ensures forall p, st {:trigger Compares(f, code, l, r, reversed, p, st)} :: Compares(f, code, l, r, reversed, p, st)
    ensures TestsRelation(Inner(f, reversed), code, l, r) && (reversed ==> f.Not?)
  {
    f := Prim(g0.s + (g1.s + RelTail(code, g0.regno, g1.regno)), RelCond(code));
    RelTests(g0, g1, used, code, l, r);
    hide TestsRelation, Compares, RelCond;
    forall p, st ensures Compares(f, code, l, r, false, p, st) && Compares(Not(f), code, l, r, true, p, st) {
      RelCompares(g0, g1, used, code, l, r, p, st);
    }
    if reversed {
      f := Not(f);
    }
    assert regs.Used() - {g0.regno} - {g1.regno} == used;
    regs.FreeReg(g0.regno);
    regs.FreeReg(g1.regno);
  }
}
