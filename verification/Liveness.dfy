/** Which atoms matter after a block, and the stores that do not. */
module Liveness {
  import opened Basics
  import opened Bpf
  import opened Flow
  import opened Blocks
  import opened Levels
  import opened Dominators

  /** Stands for both the accumulator and the index register. */
  const AX_ATOM: int := N_ATOMS

  /** The atom a statement uses, AX_ATOM if it uses both registers, -1 if none. */
  function AtomUse(s: Stmt): (u: int)
    ensures -1 <= u <= AX_ATOM
  {
    match s
    case Nop | LdAbs(_, _) | LdLen | LdImm(_) | LdxImm(_) | LdxMsh(_) => -1
    case LdInd(_, _) | Stx(_) | Txa => X_ATOM
    case LdMem(r) => r
    case LdxMem(r) => r
    case St(_) | AluK(_, _) | Neg | Tax => A_ATOM
    case AluX(_) => AX_ATOM
  }

  /** The atom a statement defines, -1 if none. */
  function AtomDef(s: Stmt): (d: int)
    ensures -1 <= d < N_ATOMS
  {
    match s
    case Nop => -1
    case LdAbs(_, _) | LdInd(_, _) | LdLen | LdImm(_) | LdMem(_) | AluK(_, _) | AluX(_) | Neg | Txa => A_ATOM
    case LdxImm(_) | LdxMsh(_) | LdxMem(_) | Tax => X_ATOM
    case St(r) => r
    case Stx(r) => r
  }

  function BranchUse(b: Branch): (u: int)
    ensures -1 <= u <= AX_ATOM
  {
    match b
    case Jmp(JmpK(_, _)) => A_ATOM
    case Jmp(JmpX(_)) => AX_ATOM
    case Ret(_) => -1
  }

  /** Use code u covers atom a. */
  predicate Covers(u: int, a: int) {
    if u == AX_ATOM then a == A_ATOM || a == X_ATOM else u == a && a >= 0
  }

  function Atoms(u: int): set<int> {
    if u == AX_ATOM then {A_ATOM, X_ATOM} else if u < 0 then {} else {u}
  }

  type AtomSet = s: set<int> | forall a :: a in s ==> 0 <= a < N_ATOMS

  // -------------------------------------------------- what a statement reads

  ghost predicate Agree(a: State, b: State, live: set<int>) {
    forall x | 0 <= x < N_ATOMS && x in live :: a[x] == b[x]
  }

  /** The value that a statement gives the atom it defines. */
  function Value(s: Stmt, p: Packet, st: State): Option<Word> {
    match s
    case Nop => None
    case LdAbs(size, k) => LoadAbs(size, k, p)
    case LdInd(size, k) => LoadInd(size, k, st[X_ATOM], p)
    case LdLen => Some(p.wirelen)
    case LdImm(k) => Some(k)
    case LdxImm(k) => Some(k)
    case LdxMsh(k) => LoadMsh(k, p)
    case LdMem(r) => Some(st[r])
    case LdxMem(r) => Some(st[r])
    case St(_) => Some(st[A_ATOM])
    case Stx(_) => Some(st[X_ATOM])
    case AluK(op, k) => Alu(op, st[A_ATOM], k)
    case AluX(op) => Alu(op, st[A_ATOM], st[X_ATOM])
    case Neg => Some(Minus(0, st[A_ATOM]))
    case Tax => Some(st[A_ATOM])
    case Txa => Some(st[X_ATOM])
  }

  lemma ExecPut(s: Stmt, p: Packet, st: State)
    ensures Exec(s, p, st) == if AtomDef(s) < 0 then Some(st) else Put(st, AtomDef(s), Value(s, p, st))
  {
  }

  lemma ValueReads(s: Stmt, p: Packet, a: State, b: State)
    requires A_ATOM in Atoms(AtomUse(s)) ==> a[A_ATOM] == b[A_ATOM]
    requires X_ATOM in Atoms(AtomUse(s)) ==> a[X_ATOM] == b[X_ATOM]
    requires 0 <= AtomUse(s) < N_ATOMS ==> a[AtomUse(s)] == b[AtomUse(s)]
    ensures Value(s, p, a) == Value(s, p, b)
  {
  }

  /** What a statement does, and whether it rejects the packet, depends on the
      atoms it uses; it changes only the atom it defines. */
  lemma ExecReads(s: Stmt, p: Packet, a: State, b: State, live: set<int>)
    requires Agree(a, b, Atoms(AtomUse(s)) + (live - {AtomDef(s)}))
    ensures Exec(s, p, a).Some? <==> Exec(s, p, b).Some?
    ensures Exec(s, p, a).Some? ==> Agree(Exec(s, p, a).value, Exec(s, p, b).value, live)
  {
    assert Atoms(AtomUse(s)) <= Atoms(AtomUse(s)) + (live - {AtomDef(s)});
    ValueReads(s, p, a, b);
    hide AtomUse, AtomDef, Exec, Value;
    ExecPut(s, p, a);
    ExecPut(s, p, b);
  }

  lemma ExecWrites(s: Stmt, p: Packet, a: State, x: int)
    requires Exec(s, p, a).Some? && 0 <= x < N_ATOMS && x != AtomDef(s)
    ensures Exec(s, p, a).value[x] == a[x]
  {
    ExecPut(s, p, a);
  }

  lemma TakenReads(c: Cond, a: State, b: State)
    requires Agree(a, b, Atoms(BranchUse(Jmp(c))))
    ensures Taken(c, a) == Taken(c, b)
  {
  }

  /** The statement with the constant k in place of its own. */
  function WithK(s: Stmt, k: Word): Stmt {
    match s
    case LdInd(size, _) => LdInd(size, k)
    case AluK(op, _) => AluK(op, k)
    case _ => s
  }

  /** What s computes depends on what atom a holds. */
  ghost predicate Matters(s: Stmt, a: int)
    requires 0 <= a < N_ATOMS
  {
    exists p, st: State, w {:trigger Differs(s, p, st, a, w)} :: Differs(s, p, st, a, w)
  }

  ghost predicate Differs(s: Stmt, p: Packet, st: State, a: int, w: Word)
    requires 0 <= a < N_ATOMS
  {
    Value(s, p, st) != Value(s, p, st[a := w])
  }

  /** The uses are exact: besides what ExecReads says, every atom in them matters
      to the statement, at least with some constant. */
  lemma UseExact(s: Stmt, a: int)
    requires 0 <= a < N_ATOMS
    ensures Covers(AtomUse(s), a) <==> exists k {:trigger WithK(s, k)} :: Matters(WithK(s, k), a)
  {
    if Covers(AtomUse(s), a) {
      var k := match s case AluK(op, _) => OperandFor(op) case _ => 0;
      UseMatters(WithK(s, k), a, k);
    } else {
      forall k ensures !Matters(WithK(s, k), a) {
        forall p, st: State, w ensures !Differs(WithK(s, k), p, st, a, w) {
          ValueReads(WithK(s, k), p, st, st[a := w]);
        }
      }
    }
  }

  /** With this operand the result tells 0 from 1 in the accumulator. */
  function OperandFor(op: AluOp): Word {
    match op
    case MUL | DIV | AND => 1
    case MOD => 2
    case ADD | SUB | OR | XOR | LSH | RSH => 0
  }

  lemma OperandTells(op: AluOp)
    ensures Alu(op, 0, OperandFor(op)) != Alu(op, 1, OperandFor(op))
  {
  }

  lemma OtherTells(op: AluOp)
    ensures Alu(op, if op in {ADD, SUB, OR, XOR} then 0 else 1, 1) !=
      Alu(op, if op in {ADD, SUB, OR, XOR} then 0 else 1, if op in {DIV, MOD} then 2 else 0)
  {
  }

  lemma UseMatters(s: Stmt, a: int, k: Word)
    requires 0 <= a < N_ATOMS && Covers(AtomUse(s), a) && (s.AluK? ==> s.k == OperandFor(s.op))
      && (s.LdInd? ==> s.k == 0)
    ensures Matters(s, a)
  {
    var p, z := Packet(i => 0, 8, 8), Zero();
    match s
    case LdInd(size, _) =>
      IndTells(size);
      hide LoadInd;
      assert Differs(s, p, z, a, 9);
    case AluK(op, _) =>
      OperandTells(op);
      hide Alu;
      assert Differs(s, p, z, a, 1);
    case AluX(op) => AluMatters(s, a);
    case LdMem(_) | LdxMem(_) | St(_) | Stx(_) | Tax | Txa => assert Differs(s, p, z, a, 1);
    case Neg =>
      assert Minus(0, 0) != Minus(0, 1);
      hide Minus;
      assert Differs(s, p, z, a, 1);
    case Nop | LdAbs(_, _) | LdLen | LdImm(_) | LdxImm(_) | LdxMsh(_) =>
  }

  lemma AluMatters(s: Stmt, a: int)
    requires s.AluX? && (a == A_ATOM || a == X_ATOM)
    ensures Matters(s, a)
  {
    hide Alu, OperandFor;
    OperandTells(s.op);
    OtherTells(s.op);
    var z := Zero();
    var st := if a == A_ATOM then z[X_ATOM := OperandFor(s.op)]
      else z[A_ATOM := if s.op in {ADD, SUB, OR, XOR} then 0 else 1][X_ATOM := 1];
    assert Differs(s, Packet(i => 0, 8, 8), st, a, if a == X_ATOM && s.op in {DIV, MOD} then 2
      else if a == X_ATOM then 0 else 1);
  }

  lemma IndTells(size: Size)
    ensures LoadInd(size, 0, 0, Packet(i => 0, 8, 8)) != LoadInd(size, 0, 9, Packet(i => 0, 8, 8))
  {
  }

  /** So it is for branches. */
  lemma BranchUseExact(c: Cond, a: int)
    requires 0 <= a < N_ATOMS
    ensures Covers(BranchUse(Jmp(c)), a) <==>
      exists k, st: State, w {:trigger TakenDiffers(c, k, st, a, w)} :: TakenDiffers(c, k, st, a, w)
  {
    if Covers(BranchUse(Jmp(c)), a) {
      var k: Word := if c.test == JGT then 0 else 1;
      var st := if a == A_ATOM then Zero()[X_ATOM := k] else Zero()[A_ATOM := 1];
      assert TakenDiffers(c, k, st, a, if a == X_ATOM && c.test == JGE then 2 else 1);
    } else {
      forall k, st: State, w ensures !TakenDiffers(c, k, st, a, w) {
      }
    }
  }

  ghost predicate TakenDiffers(c: Cond, k: Word, st: State, a: int, w: Word)
    requires 0 <= a < N_ATOMS
  {
    var c' := if c.JmpK? then JmpK(c.test, k) else c;
    Taken(c', st) != Taken(c', st[a := w])
  }

  // ------------------------------------------------------- inside one block

  /** What first happens to an atom. */
  datatype Fate = Read | Written | Untouched

  function Touch(s: Stmt, a: int): Fate {
    if Covers(AtomUse(s), a) then Read else if a >= 0 && AtomDef(s) == a then Written else Untouched
  }

  function FateOf(ss: seq<Stmt>, a: int): Fate {
    if ss == [] then Untouched
    else if Touch(ss[0], a) != Untouched then Touch(ss[0], a)
    else FateOf(ss[1..], a)
  }

  lemma {:induction false} FateSnoc(ss: seq<Stmt>, s: Stmt, a: int)
    ensures FateOf(ss + [s], a) == if FateOf(ss, a).Untouched? then Touch(s, a) else FateOf(ss, a)
  {
    if ss == [] {
      assert ss + [s] == [s] && [s][1..] == [];
    } else {
      assert (ss + [s])[1..] == ss[1..] + [s];
      FateSnoc(ss[1..], s, a);
    }
  }

  /** The atoms that matter before the statements, if those of `end` do after
      them. */
  function LiveAt(ss: seq<Stmt>, end: set<int>): (live: set<int>)
    ensures forall a | a in live :: a in end || 0 <= a < N_ATOMS
  {
    if ss == [] then end else Atoms(AtomUse(ss[0])) + (LiveAt(ss[1..], end) - {AtomDef(ss[0])})
  }

  lemma {:induction false} LiveFate(ss: seq<Stmt>, end: set<int>, a: int)
    requires a >= 0
    ensures a in LiveAt(ss, end) <==> FateOf(ss, a).Read? || (FateOf(ss, a).Untouched? && a in end)
  {
    if ss != [] {
      LiveFate(ss[1..], end, a);
    }
  }

  lemma {:induction false} LiveReads(ss: seq<Stmt>, end: set<int>, p: Packet, a: State, b: State)
    requires Agree(a, b, LiveAt(ss, end))
    ensures ExecAll(ss, p, a).Some? <==> ExecAll(ss, p, b).Some?
    ensures ExecAll(ss, p, a).Some? ==> Agree(ExecAll(ss, p, a).value, ExecAll(ss, p, b).value, end)
  {
    if ss != [] {
      ExecReads(ss[0], p, a, b, LiveAt(ss[1..], end));
      if Exec(ss[0], p, a).Some? {
        LiveReads(ss[1..], end, p, Exec(ss[0], p, a).value, Exec(ss[0], p, b).value);
      }
    }
  }

  lemma {:induction false} LiveAtConcat(a: seq<Stmt>, b: seq<Stmt>, E: set<int>)
    ensures LiveAt(a + b, E) == LiveAt(a, LiveAt(b, E))
  {
    if a == [] {
      assert a + b == b;
    } else {
      assert (a + b)[1..] == a[1..] + b;
      LiveAtConcat(a[1..], b, E);
    }
  }

  lemma {:induction false} LiveAtMono(ss: seq<Stmt>, E: set<int>, F: set<int>)
    requires E <= F
    ensures LiveAt(ss, E) <= LiveAt(ss, F)
  {
    if ss != [] {
      LiveAtMono(ss[1..], E, F);
    }
  }

  /** A statement is dead if what it defines does not matter after it. */
  predicate Dead(s: Stmt, after: set<int>) {
    AtomDef(s) >= 0 && AtomDef(s) !in after
  }

  /** The statements without the dead ones. */
  function Strip(ss: seq<Stmt>, end: set<int>): (ts: seq<Stmt>)
    ensures |ts| == |ss|
  {
    if ss == [] then [] else
    [if Dead(ss[0], LiveAt(ss[1..], end)) then Nop else ss[0]] + Strip(ss[1..], end)
  }

  lemma {:induction false} StripAt(ss: seq<Stmt>, end: set<int>, i: nat)
    requires i < |ss|
    ensures Strip(ss, end)[i] == if Dead(ss[i], LiveAt(ss[i + 1..], end)) then Nop else ss[i]
  {
    if i > 0 {
      StripAt(ss[1..], end, i - 1);
      assert ss[1..][i - 1 + 1..] == ss[i + 1..];
    }
  }

  /** Between positions i and j some statement sets atom a. */
  ghost predicate SetBetween(ss: seq<Stmt>, i: int, j: int, a: int) {
    exists k :: i < k < j && 0 <= k < |ss| && AtomDef(ss[k]) == a
  }

  /** The value that statement i puts in its atom is never looked at: whoever reads
      the atom later does so after it has been set again, and so it is at the end,
      if the atom is in use there. */
  ghost predicate NeverRead(ss: seq<Stmt>, i: int, end: set<int>)
    requires 0 <= i < |ss|
  {
    var a := AtomDef(ss[i]);
    && a >= 0
    && (forall j | i < j < |ss| && Covers(AtomUse(ss[j]), a) :: SetBetween(ss, i, j, a))
    && (a in end ==> SetBetween(ss, i, |ss|, a))
  }

  lemma {:induction false} LiveWhen(ss: seq<Stmt>, end: set<int>, n: nat, a: int)
    requires n <= |ss| && a >= 0
    ensures a !in LiveAt(ss[n..], end) <==>
      && (forall j | n <= j < |ss| && Covers(AtomUse(ss[j]), a) :: SetBetween(ss, n - 1, j, a))
      && (a in end ==> SetBetween(ss, n - 1, |ss|, a))
    decreases |ss| - n
  {
    if n < |ss| {
      var s, rest := ss[n], LiveAt(ss[n + 1..], end);
      assert ss[n..][1..] == ss[n + 1..] && ss[n..][0] == s;
      LiveWhen(ss, end, n + 1, a);
      assert a in Atoms(AtomUse(s)) <==> Covers(AtomUse(s), a);
      assert !SetBetween(ss, n - 1, n, a);
      forall j | n < j <= |ss| ensures SetBetween(ss, n - 1, j, a) <==> AtomDef(s) == a || SetBetween(ss, n, j, a) {
        if AtomDef(s) == a {
          assert n - 1 < n < j && AtomDef(ss[n]) == a;
        }
      }
    } else {
      assert ss[n..] == [];
    }
  }

  /** The statements that are never read go, all others stay. */
  lemma StripIs(ss: seq<Stmt>, end: set<int>, i: nat)
    requires i < |ss|
    ensures Strip(ss, end)[i] == if NeverRead(ss, i, end) then Nop else ss[i]
  {
    StripAt(ss, end, i);
    if AtomDef(ss[i]) >= 0 {
      LiveWhen(ss, end, i + 1, AtomDef(ss[i]));
    }
  }

  /** Without the dead statements a packet that got through still does, and
      what matters afterwards is the same. */
  lemma {:induction false} StripKeeps(ss: seq<Stmt>, end: set<int>, p: Packet, a: State, b: State)
    requires ExecAll(ss, p, a).Some? && Agree(a, b, LiveAt(ss, end))
    ensures ExecAll(Strip(ss, end), p, b).Some?
      && Agree(ExecAll(ss, p, a).value, ExecAll(Strip(ss, end), p, b).value, end)
  {
    if ss != [] {
      var s, rest := ss[0], LiveAt(ss[1..], end);
      var a' := Exec(s, p, a).value;
      assert Strip(ss, end)[1..] == Strip(ss[1..], end);
      if Dead(s, rest) {
        forall x | 0 <= x < N_ATOMS && x in rest ensures a'[x] == b[x] {
          ExecWrites(s, p, a, x);
        }
        StripKeeps(ss[1..], end, p, a', b);
      } else {
        ExecReads(s, p, a, b, rest);
        StripKeeps(ss[1..], end, p, a', Exec(s, p, b).value);
      }
    }
  }

  /** Stripping leaves fewer atoms that matter before the statements. */
  lemma {:induction false} StripLive(ss: seq<Stmt>, end: set<int>, E: set<int>)
    requires E <= end
    ensures LiveAt(Strip(ss, end), E) <= LiveAt(ss, E)
  {
    if ss != [] {
      var ts := Strip(ss, end);
      assert ts[1..] == Strip(ss[1..], end);
      StripLive(ss[1..], end, E);
      LiveAtMono(ss[1..], E, end);
    }
  }

  /** The same statements, but for deleted ones; what got through them still
      does. */
  ghost predicate Thinned(ss: seq<Stmt>, ts: seq<Stmt>) {
    && |ts| == |ss| && (forall i | 0 <= i < |ss| :: ts[i] == ss[i] || ts[i] == Nop)
    && forall p, st {:trigger ExecAll(ts, p, st)} | ExecAll(ss, p, st).Some? :: ExecAll(ts, p, st).Some?
  }

  lemma StripThins(ss: seq<Stmt>, end: set<int>)
    ensures Thinned(ss, Strip(ss, end))
  {
    forall i | 0 <= i < |ss| ensures Strip(ss, end)[i] == ss[i] || Strip(ss, end)[i] == Nop {
      StripAt(ss, end, i);
    }
    forall p, st | ExecAll(ss, p, st).Some? ensures ExecAll(Strip(ss, end), p, st).Some? {
      StripKeeps(ss, end, p, st, st);
    }
  }

  // ----------------------------------------------------- in the flow graph

  /** What matters after the statements of b: what its branch uses, and what
      matters to its successors. */
  function End(b: Block, out: set<int>): set<int> {
    out + Atoms(BranchUse(b.s))
  }

  /** The sets in and out of block b fit those of its successors. */
  ghost predicate LiveSet(pool: Pool, inUse: seq<AtomSet>, outUse: seq<AtomSet>, b: int)
    requires |inUse| == |outUse| == |pool|
  {
    && 0 <= b < |pool|
    && inUse[b] == LiveAt(pool[b].stmts, End(pool[b], outUse[b])) && (pool[b].s.Ret? ==> outUse[b] == {})
    && (pool[b].s.Jmp? ==>
         && 0 <= pool[b].jt < |pool| && 0 <= pool[b].jf < |pool|
         && outUse[b] == inUse[pool[b].jt] + inUse[pool[b].jf])
  }

  ghost predicate LiveSets(pool: Pool, m: set<int>, inUse: seq<AtomSet>, outUse: seq<AtomSet>) {
    && |inUse| == |outUse| == |pool|
    && forall b {:trigger LiveSet(pool, inUse, outUse, b)} | b in m :: LiveSet(pool, inUse, outUse, b)
  }

  /** m is closed under branches. */
  ghost predicate Covered(pool: Pool, m: set<int>) {
    forall b | b in m :: 0 <= b < |pool| && (pool[b].s.Jmp? ==> pool[b].jt in m && pool[b].jf in m)
  }

  /** Atoms that are not in use at a block do not influence the result. */
  lemma {:induction false} UnusedUnread(pool: Pool, r: map<int, nat>, m: set<int>, inUse: seq<AtomSet>,
      outUse: seq<AtomSet>, b: int, p: Packet, st: State, st': State)
    requires Ranked(GraphOf(pool), r) && Covered(pool, m) && LiveSets(pool, m, inUse, outUse) && b in m
      && 0 <= b < |pool|
    requires Agree(st, st', inUse[b])
    ensures Run(GraphOf(pool), r, b, p, st') == Run(GraphOf(pool), r, b, p, st)
    decreases r[b]
  {
    var g := GraphOf(pool);
    assert g[b] == NodeOf(pool[b]) && Falls(g, r, b) && LiveSet(pool, inUse, outUse, b);
    match pool[b].s
    case Ret(_) =>
    case Jmp(c) =>
      LiveReads(pool[b].stmts, End(pool[b], outUse[b]), p, st, st');
      if ExecAll(pool[b].stmts, p, st).Some? {
        var e, e' := ExecAll(pool[b].stmts, p, st).value, ExecAll(pool[b].stmts, p, st').value;
        TakenReads(c, e, e');
        UnusedUnread(pool, r, m, inUse, outUse, if Taken(c, e) then pool[b].jt else pool[b].jf, p, e, e');
      }
  }

  /** The blocks of m without their dead statements. */
  ghost predicate Stripped(pool: Pool, pool': Pool, m: set<int>, outUse: seq<AtomSet>) {
    && |pool'| == |pool| == |outUse|
    && (forall b | 0 <= b < |pool| :: pool'[b].s == pool[b].s && pool'[b].jt == pool[b].jt && pool'[b].jf == pool[b].jf)
    && (forall b | 0 <= b < |pool| && b !in m :: pool'[b] == pool[b])
    && (forall b | b in m && 0 <= b < |pool| && pool[b].s.Ret? :: pool'[b].stmts == [])
    && forall b | b in m && 0 <= b < |pool| && pool[b].s.Jmp? ::
      pool'[b].stmts == Strip(pool[b].stmts, End(pool[b], outUse[b]))
  }

  /** In the blocks of m exactly the statements whose value is never read have
      been deleted, those of leaves all; what is in use at the end of a block is
      what its branch uses, and outUse. */
  ghost predicate DeadGone(pool: Pool, pool': Pool, m: set<int>, outUse: seq<AtomSet>) {
    && |pool'| == |pool| == |outUse|
    && (forall b | b in m && 0 <= b < |pool| && pool[b].s.Ret? :: pool'[b].stmts == [])
    && (forall b | b in m && 0 <= b < |pool| && pool[b].s.Jmp? :: BlockCleaned(pool[b], pool'[b], outUse[b]))
    && (forall b | 0 <= b < |pool| && b !in m :: pool'[b] == pool[b])
    && forall b | 0 <= b < |pool| ::
      pool'[b].s == pool[b].s && pool'[b].jt == pool[b].jt && pool'[b].jf == pool[b].jf
  }

  ghost predicate BlockCleaned(b: Block, b': Block, out: AtomSet) {
    && |b'.stmts| == |b.stmts|
    && forall i {:trigger b'.stmts[i]} | 0 <= i < |b.stmts| ::
      b'.stmts[i] == if NeverRead(b.stmts, i, out + Atoms(BranchUse(b.s))) then Nop else b.stmts[i]
  }

  lemma StrippedGone(pool: Pool, pool': Pool, m: set<int>, outUse: seq<AtomSet>)
    requires Stripped(pool, pool', m, outUse)
    ensures DeadGone(pool, pool', m, outUse)
  {
    hide NeverRead;
    forall b | b in m && 0 <= b < |pool| && pool[b].s.Jmp? ensures BlockCleaned(pool[b], pool'[b], outUse[b]) {
      forall i | 0 <= i < |pool[b].stmts|
        ensures pool'[b].stmts[i] ==
                if NeverRead(pool[b].stmts, i, outUse[b] + Atoms(BranchUse(pool[b].s))) then Nop else pool[b].stmts[i]
      {
        StripIs(pool[b].stmts, End(pool[b], outUse[b]), i);
      }
    }
  }

  lemma StrippedRanked(pool: Pool, pool': Pool, r: map<int, nat>, m: set<int>, outUse: seq<AtomSet>)
    requires Ranked(GraphOf(pool), r) && Stripped(pool, pool', m, outUse)
    ensures Ranked(GraphOf(pool'), r)
  {
    var g, g' := GraphOf(pool), GraphOf(pool');
    forall b | b in g' ensures Falls(g', r, b) {
      assert g[b] == NodeOf(pool[b]) && g'[b] == NodeOf(pool'[b]) && Falls(g, r, b);
    }
  }

  /** Dead statements do not influence the result of a packet that gets
      through. */
  lemma {:induction false} StrippedRun(pool: Pool, pool': Pool, r: map<int, nat>, m: set<int>, inUse: seq<AtomSet>,
      outUse: seq<AtomSet>, b: int, p: Packet, st: State, st': State)
    requires Ranked(GraphOf(pool), r) && Covered(pool, m) && LiveSets(pool, m, inUse, outUse) && b in m
      && 0 <= b < |pool|
    requires Stripped(pool, pool', m, outUse) && Ranked(GraphOf(pool'), r)
    requires Agree(st, st', inUse[b]) && Run(GraphOf(pool), r, b, p, st).Some?
    ensures Run(GraphOf(pool'), r, b, p, st') == Run(GraphOf(pool), r, b, p, st)
    decreases r[b]
  {
    var g, g' := GraphOf(pool), GraphOf(pool');
    assert g[b] == NodeOf(pool[b]) && g'[b] == NodeOf(pool'[b]) && Falls(g, r, b) && LiveSet(pool, inUse, outUse, b);
    match pool[b].s
    case Ret(_) =>
    case Jmp(c) =>
      StripKeeps(pool[b].stmts, End(pool[b], outUse[b]), p, st, st');
      var e, e' := ExecAll(pool[b].stmts, p, st).value, ExecAll(pool'[b].stmts, p, st').value;
      TakenReads(c, e, e');
      StrippedRun(pool, pool', r, m, inUse, outUse, if Taken(c, e) then pool[b].jt else pool[b].jf, p, e, e');
  }

  // ------------------------------------------------------------- find_ud

  /** Before the sweep up: use has what block b reads before it writes, kill
      what it writes before it reads. */
  ghost predicate LocalSets(b: Block, use: AtomSet, kill: AtomSet) {
    forall a {:trigger LocalAt(b, use, kill, a)} | 0 <= a < N_ATOMS :: LocalAt(b, use, kill, a)
  }

  ghost predicate LocalAt(b: Block, use: AtomSet, kill: AtomSet, a: int) {
    && (a in use <==> FateOf(b.stmts, a).Read? || (FateOf(b.stmts, a).Untouched? && a in Atoms(BranchUse(b.s))))
    && (a in kill <==> FateOf(b.stmts, a).Written?)
  }

  /** use and kill give the atoms in use before the block for any that are in
      use after it. */
  lemma LocalLive(b: Block, use: AtomSet, kill: AtomSet, out: AtomSet)
    requires LocalSets(b, use, kill)
    ensures use + (out - kill) == LiveAt(b.stmts, End(b, out))
  {
    var all, live := use + (out - kill), LiveAt(b.stmts, End(b, out));
    forall a: int ensures a in all <==> a in live {
      if 0 <= a < N_ATOMS {
        assert LocalAt(b, use, kill, a);
        LiveFate(b.stmts, End(b, out), a);
      }
    }
  }

  /** The statements read so far. */
  ghost predicate SoFar(ss: seq<Stmt>, def: AtomSet, use: AtomSet, kill: AtomSet) {
    forall a {:trigger SoFarAt(ss, def, use, kill, a)} | 0 <= a < N_ATOMS :: SoFarAt(ss, def, use, kill, a)
  }

  ghost predicate SoFarAt(ss: seq<Stmt>, def: AtomSet, use: AtomSet, kill: AtomSet, a: int) {
    && (a in use <==> FateOf(ss, a).Read?)
    && (a in kill <==> FateOf(ss, a).Written?)
    && (a in kill ==> a in def) && (a in def ==> !FateOf(ss, a).Untouched?)
  }

  /** The atoms of u join use unless they have been defined. */
  function AddUse(u: int, def: AtomSet, use: AtomSet): AtomSet
    requires -1 <= u <= AX_ATOM
  {
    use + (Atoms(u) - def)
  }

  lemma SoFarNext(ss: seq<Stmt>, s: Stmt, def: AtomSet, use: AtomSet, kill: AtomSet)
    requires SoFar(ss, def, use, kill)
    ensures var use', d := AddUse(AtomUse(s), def, use), AtomDef(s);
      SoFar(ss + [s], if d >= 0 then def + {d} else def, use', if d >= 0 && d !in use' then kill + {d} else kill)
  {
    hide FateOf;
    var use', d := AddUse(AtomUse(s), def, use), AtomDef(s);
    var def', kill' := if d >= 0 then def + {d} else def, if d >= 0 && d !in use' then kill + {d} else kill;
    forall a | 0 <= a < N_ATOMS ensures SoFarAt(ss + [s], def', use', kill', a) {
      assert SoFarAt(ss, def, use, kill, a);
      FateSnoc(ss, s, a);
    }
  }

  lemma SoFarLocal(b: Block, def: AtomSet, use: AtomSet, kill: AtomSet)
    requires SoFar(b.stmts, def, use, kill)
    ensures LocalSets(b, if b.s.Jmp? then AddUse(BranchUse(b.s), def, use) else use, kill)
  {
    hide FateOf;
    var all := if b.s.Jmp? then AddUse(BranchUse(b.s), def, use) else use;
    forall a | 0 <= a < N_ATOMS ensures LocalAt(b, all, kill, a) {
      assert SoFarAt(b.stmts, def, use, kill, a);
    }
  }

  class Usage {
    const pool: Pool
    const level: seq<nat>
    const levels: seq<seq<int>>
    var kill: seq<AtomSet>
    var inUse: seq<AtomSet>
    var outUse: seq<AtomSet>

    constructor (pool: Pool, level: seq<nat>, levels: seq<seq<int>>)
      ensures this.pool == pool && this.level == level && this.levels == levels
      ensures |kill| == |inUse| == |outUse| == |pool|
    {
      this.pool, this.level, this.levels := pool, level, levels;
      kill, inUse, outUse := seq(|pool|, i => {}), seq(|pool|, i => {}), seq(|pool|, i => {});
    }

    method ComputeLocalUd(b: int)
      requires 0 <= b < |pool| == |kill| == |inUse|
      modifies `kill, `inUse
      ensures |kill| == |inUse| == |pool| && LocalSets(pool[b], inUse[b], kill[b])
      ensures forall x | 0 <= x < |pool| && x != b :: inUse[x] == old(inUse)[x] && kill[x] == old(kill)[x]
    {
      var ss := pool[b].stmts;
      var def: AtomSet, use: AtomSet, dead: AtomSet := {}, {}, {};
      var k := 0;
      while k < |ss|
        invariant 0 <= k <= |ss| && SoFar(ss[..k], def, use, dead)
        invariant kill == old(kill) && inUse == old(inUse)
      {
        SoFarNext(ss[..k], ss[k], def, use, dead);
        assert ss[..k + 1] == ss[..k] + [ss[k]];
        use := AddUse(AtomUse(ss[k]), def, use);
        var atom := AtomDef(ss[k]);
        if atom >= 0 {
          if atom !in use {
            dead := dead + {atom};
          }
          def := def + {atom};
        }
        k := k + 1;
      }
      assert ss[..k] == ss;
      SoFarLocal(pool[b], def, use, dead);
      if pool[b].s.Jmp? {
        use := AddUse(BranchUse(pool[b].s), def, use);
      }
      kill := kill[b := dead];
      inUse := inUse[b := use];
    }

    /** Block b has only its own sets. */
    ghost predicate Local(b: int)
      requires |kill| == |inUse| == |outUse| == |pool|
      reads this
    {
      0 <= b < |pool| && LocalSets(pool[b], inUse[b], kill[b]) && outUse[b] == {}
    }

    /** The blocks of `done`, with a block all that it reaches, have their final
        sets; the other blocks of m have their own. */
    ghost predicate Swept(m: set<int>, done: set<int>)
      reads this
    {
      && |kill| == |inUse| == |outUse| == |pool| && done <= m
      && (forall b {:trigger LiveSet(pool, inUse, outUse, b)} | b in done :: LiveSet(pool, inUse, outUse, b))
      && forall b {:trigger Local(b)} | b in m && b !in done :: Local(b)
    }

    /** Locals first, then one sweep up the levels. */
    method FindUd(root: int, ghost m: set<int>)
      requires Leveled(pool, level, levels, m, root) && |kill| == |inUse| == |outUse| == |pool|
      modifies `kill, `inUse, `outUse
      ensures LiveSets(pool, m, inUse, outUse)
    {
      FindLocals(root, m);
      ghost var done := set x | x in m && level[x] == 0;
      Leaves(root, m, done);
      var i := 1;
      while i <= level[root]
        invariant 1 <= i <= level[root] + 1 && Swept(m, done)
        invariant done == set x | x in m && level[x] < i
      {
        var k := 0;
        while k < |levels[i]|
          invariant 0 <= k <= |levels[i]| && Swept(m, done)
          invariant done == set x | x in m && (level[x] < i || x in levels[i][..k])
        {
          Climb(levels[i][k], i, root, m, done);
          assert levels[i][..k + 1] == levels[i][..k] + [levels[i][k]];
          assert levels[i][k] in levels[i];
          done := done + {levels[i][k]};
          k := k + 1;
        }
        assert levels[i][..k] == levels[i];
        i := i + 1;
      }
      assert done == m;
    }

    method FindLocals(root: int, ghost m: set<int>)
      requires Leveled(pool, level, levels, m, root) && |kill| == |inUse| == |outUse| == |pool|
      modifies `kill, `inUse, `outUse
      ensures |kill| == |inUse| == |outUse| == |pool| && forall b {:trigger Local(b)} | b in m :: Local(b)
    {
      ghost var done: set<int> := {};
      var i := level[root];
      assert Passed(level, levels, m, i, 0, {});
      while i >= 0
        invariant -1 <= i < |levels| && Passed(level, levels, m, i, 0, done)
        invariant |kill| == |inUse| == |outUse| == |pool| && forall b {:trigger Local(b)} | b in done :: Local(b)
      {
        var k := 0;
        while k < |levels[i]|
          invariant 0 <= k <= |levels[i]| && Passed(level, levels, m, i, k, done)
          invariant |kill| == |inUse| == |outUse| == |pool| && forall b {:trigger Local(b)} | b in done :: Local(b)
        {
          var p := levels[i][k];
          PassedNext(pool, level, levels, m, root, i, k, done);
          OneLocal(p, done);
          done := done + {p};
          k := k + 1;
        }
        PassedList(level, levels, m, i, done);
        i := i - 1;
      }
    }

    method OneLocal(p: int, ghost done: set<int>)
      requires |kill| == |inUse| == |outUse| == |pool| && 0 <= p < |pool|
      requires forall b {:trigger Local(b)} | b in done :: Local(b)
      modifies `kill, `inUse, `outUse
      ensures |kill| == |inUse| == |outUse| == |pool| && forall b {:trigger Local(b)} | b in done + {p} :: Local(b)
    {
      ghost var k, u, o := kill, inUse, outUse;
      assert forall b | b in done :: Local(b);
      ComputeLocalUd(p);
      outUse := outUse[p := {}];
      forall b | b in done + {p} ensures Local(b) {
        assert b != p ==> LocalSets(pool[b], u[b], k[b]) && o[b] == {};
      }
    }

    lemma Leaves(root: int, m: set<int>, done: set<int>)
      requires Leveled(pool, level, levels, m, root) && |kill| == |inUse| == |outUse| == |pool|
      requires (forall b {:trigger Local(b)} | b in m :: Local(b)) && done == set x | x in m && level[x] == 0
      ensures Swept(m, done)
    {
      forall b | b in done ensures LiveSet(pool, inUse, outUse, b) {
        assert Local(b) && NodeLeveled(pool, level, m, b);
        LocalLive(pool[b], inUse[b], kill[b], outUse[b]);
      }
    }

    /** What matters after p, and so what matters before it. */
    method Climb(p: int, i: nat, root: int, ghost m: set<int>, ghost done: set<int>)
      requires Leveled(pool, level, levels, m, root) && Swept(m, done) && 0 < i < |levels| && p in levels[i]
        && p !in done
      requires forall x | x in m && level[x] < i :: x in done
      requires forall x | x in done :: 0 <= x < |pool| && level[x] <= i
      modifies `inUse, `outUse
      ensures Swept(m, done + {p})
    {
      assert NodeLeveled(pool, level, m, p) && Local(p);
      ghost var u, o := inUse, outUse;
      outUse := outUse[p := outUse[p] + inUse[pool[p].jt] + inUse[pool[p].jf]];
      LocalLive(pool[p], inUse[p], kill[p], outUse[p]);
      inUse := inUse[p := inUse[p] + (outUse[p] - kill[p])];
      assert forall b | b in m && b !in done :: LocalSets(pool[b], u[b], kill[b]) && o[b] == {} by {
        forall b | b in m && b !in done ensures LocalSets(pool[b], u[b], kill[b]) && o[b] == {} {
          assert old(Local(b));
        }
      }
      Climbed(pool, level, m, u, o, inUse, outUse, done, p);
    }
  }

  /** Sets of lower blocks do not depend on those of p. */
  lemma Climbed(pool: Pool, level: seq<nat>, m: set<int>, u: seq<AtomSet>, o: seq<AtomSet>, inUse: seq<AtomSet>,
      outUse: seq<AtomSet>, done: set<int>, p: int)
    requires AllLeveled(pool, level, m) && |level| == |pool| && |u| == |o| == |inUse| == |outUse| == |pool| && done <= m
      && p in m && p !in done
    requires 0 <= p < |pool| && inUse == u[p := inUse[p]] && outUse == o[p := outUse[p]]
    requires forall b {:trigger LiveSet(pool, u, o, b)} | b in done :: LiveSet(pool, u, o, b)
    requires forall x | x in done && 0 <= x < |pool| :: level[x] <= level[p]
    requires LiveSet(pool, inUse, outUse, p)
    ensures forall b {:trigger LiveSet(pool, inUse, outUse, b)} | b in done + {p} :: LiveSet(pool, inUse, outUse, b)
  {
    forall b | b in done + {p} ensures LiveSet(pool, inUse, outUse, b) {
      if b != p {
        assert NodeLeveled(pool, level, m, b) && LiveSet(pool, u, o, b);
      }
    }
  }

  // ------------------------------------------------------- opt_deadstores

  /** last[a] is the last statement so far that defines atom a, if nothing has
      used a since. */
  ghost predicate Pending(ss: seq<Stmt>, k: nat, i: int, a: int) {
    0 <= i < k <= |ss| && AtomDef(ss[i]) == a && FateOf(ss[i + 1..k], a).Untouched?
  }

  /** What has become of statement i: it goes once its atom is written again
      unread. */
  ghost predicate Kept(ss: seq<Stmt>, ts: seq<Stmt>, k: nat, i: int)
    requires |ts| == |ss| && 0 <= i < k <= |ss|
  {
    ts[i] == if AtomDef(ss[i]) >= 0 && FateOf(ss[i + 1..k], AtomDef(ss[i])).Written? then Nop else ss[i]
  }

  ghost predicate Tracked(ss: seq<Stmt>, k: nat, last: seq<int>, ts: seq<Stmt>) {
    && |last| == N_ATOMS && |ts| == |ss| && k <= |ss|
    && (forall a, i {:trigger Pending(ss, k, i, a)} | 0 <= a < N_ATOMS && 0 <= i < k :: Pending(ss, k, i, a) <==>
      last[a] == i)
    && (forall a | 0 <= a < N_ATOMS :: last[a] == NULL || 0 <= last[a] < k)
    && (forall i {:trigger Kept(ss, ts, k, i)} | 0 <= i < k :: Kept(ss, ts, k, i))
    && forall i | k <= i < |ss| :: ts[i] == ss[i]
  }

  /** deadstmt: the atoms that s uses are not pending; the statement that is
      pending for the atom it defines goes. */
  function AfterUse(last: seq<int>, u: int): (last': seq<int>)
    requires |last| == N_ATOMS && -1 <= u <= AX_ATOM
    ensures |last'| == N_ATOMS
  {
    if u == AX_ATOM then last[X_ATOM := NULL][A_ATOM := NULL] else if u >= 0 then last[u := NULL] else last
  }

  lemma FateNext(ss: seq<Stmt>, k: nat, i: nat, a: int)
    requires i < k < |ss|
    ensures FateOf(ss[i + 1..k + 1], a) == if FateOf(ss[i + 1..k], a).Untouched? then Touch(ss[k], a)
      else FateOf(ss[i + 1..k], a)
  {
    assert ss[i + 1..k + 1] == ss[i + 1..k] + [ss[k]];
    FateSnoc(ss[i + 1..k], ss[k], a);
  }

  lemma PendingNext(ss: seq<Stmt>, k: nat, last: seq<int>, ts: seq<Stmt>, i: int, a: int)
    requires Tracked(ss, k, last, ts) && k < |ss| && 0 <= a < N_ATOMS && 0 <= i <= k
    ensures var l, d := AfterUse(last, AtomUse(ss[k])), AtomDef(ss[k]);
      Pending(ss, k + 1, i, a) <==> (if a == d then i == k else l[a] == i)
  {
    if i < k {
      FateNext(ss, k, i, a);
      assert Pending(ss, k, i, a) <==> last[a] == i;
    } else {
      assert ss[i + 1..k + 1] == [];
    }
  }

  /** Statement i goes with statement k exactly if it is pending for the atom
      that k writes without using it. */
  lemma GoesNow(ss: seq<Stmt>, k: nat, last: seq<int>, ts: seq<Stmt>, i: int)
    requires Tracked(ss, k, last, ts) && k < |ss| && 0 <= i < k
    ensures var l, d := AfterUse(last, AtomUse(ss[k])), AtomDef(ss[k]);
      d >= 0 && l[d] == i <==>
        d >= 0 && d == AtomDef(ss[i]) && FateOf(ss[i + 1..k], d).Untouched? && Touch(ss[k], d).Written?
  {
    var d := AtomDef(ss[k]);
    if d >= 0 {
      assert Pending(ss, k, i, d) <==> last[d] == i;
    }
    hide Tracked, FateOf;
  }

  /** One statement more: what has become of those before it. */
  lemma KeptNext(ss: seq<Stmt>, k: nat, last: seq<int>, ts: seq<Stmt>, i: int)
    requires Tracked(ss, k, last, ts) && k < |ss| && 0 <= i < k
    ensures var l, d := AfterUse(last, AtomUse(ss[k])), AtomDef(ss[k]);
      Kept(ss, if d >= 0 && l[d] != NULL then ts[l[d] := Nop] else ts, k + 1, i)
  {
    assert Kept(ss, ts, k, i);
    GoesNow(ss, k, last, ts, i);
    TouchDef(ss[k]);
    if AtomDef(ss[i]) >= 0 {
      FateNext(ss, k, i, AtomDef(ss[i]));
    }
    hide Tracked, FateOf, Touch, AtomUse, AtomDef;
  }

  lemma TouchDef(s: Stmt)
    ensures forall a {:trigger Touch(s, a)} | a >= 0 && Touch(s, a).Written? :: a == AtomDef(s)
  {
  }

  /** After all statements, of the stores that are still pending those to atoms
      below n that nothing uses have gone too. */
  ghost predicate Gone(ss: seq<Stmt>, end: set<int>, n: int, ts: seq<Stmt>, i: int)
    requires |ts| == |ss| && 0 <= i < |ss|
  {
    var d, fate := AtomDef(ss[i]), FateOf(ss[i + 1..], AtomDef(ss[i]));
    ts[i] == if d >= 0 && (fate.Written? || (fate.Untouched? && d !in end && d < n)) then Nop else ss[i]
  }

  ghost predicate AllGone(ss: seq<Stmt>, end: set<int>, n: int, ts: seq<Stmt>) {
    |ts| == |ss| && forall i {:trigger Gone(ss, end, n, ts, i)} | 0 <= i < |ss| :: Gone(ss, end, n, ts, i)
  }

  lemma AllTracked(ss: seq<Stmt>, end: set<int>, last: seq<int>, ts: seq<Stmt>)
    requires Tracked(ss, |ss|, last, ts)
    ensures AllGone(ss, end, 0, ts)
  {
    hide FateOf;
    forall i | 0 <= i < |ss| ensures Gone(ss, end, 0, ts, i) {
      assert Kept(ss, ts, |ss|, i) && ss[i + 1..|ss|] == ss[i + 1..];
    }
  }

  /** Which statements are pending after the branch. */
  ghost predicate AllPending(ss: seq<Stmt>, last: seq<int>) {
    && |last| == N_ATOMS
    && (forall a, i {:trigger Pending(ss, |ss|, i, a)} | 0 <= a < N_ATOMS && 0 <= i < |ss| ::
      Pending(ss, |ss|, i, a) <==> last[a] == i)
    && forall a | 0 <= a < N_ATOMS :: last[a] == NULL || 0 <= last[a] < |ss|
  }

  /** One more atom: its pending statement goes if nothing uses the atom. */
  lemma GoneNext(ss: seq<Stmt>, outUse: AtomSet, u: int, l: seq<int>, ts: seq<Stmt>, atom: int)
    requires AllPending(ss, l) && -1 <= u <= AX_ATOM && 0 <= atom < N_ATOMS && AllGone(ss, outUse + Atoms(u), atom, ts)
    ensures var last := AfterUse(l, u);
      AllGone(ss, outUse + Atoms(u), atom + 1, if last[atom] != NULL
        && atom !in outUse then ts[last[atom] := Nop] else ts)
  {
    hide FateOf;
    var last, end, n := AfterUse(l, u), outUse + Atoms(u), atom + 1;
    var ts' := if last[atom] != NULL && atom !in outUse then ts[last[atom] := Nop] else ts;
    forall i | 0 <= i < |ss| ensures Gone(ss, end, n, ts', i) {
      assert Gone(ss, end, atom, ts, i);
      assert Pending(ss, |ss|, i, atom) <==> l[atom] == i;
      GoneOne(ss, outUse, u, l, ts, atom, i);
    }
  }

  lemma GoneOne(ss: seq<Stmt>, outUse: AtomSet, u: int, l: seq<int>, ts: seq<Stmt>, atom: int, i: int)
    requires |l| == N_ATOMS && |ts| == |ss| && 0 <= i < |ss| && -1 <= u <= AX_ATOM && 0 <= atom < N_ATOMS
    requires Pending(ss, |ss|, i, atom) <==> l[atom] == i
    requires l[atom] == NULL || 0 <= l[atom] < |ss|
    requires Gone(ss, outUse + Atoms(u), atom, ts, i)
    ensures var last := AfterUse(l, u);
      Gone(ss, outUse + Atoms(u), atom + 1, if last[atom] != NULL
        && atom !in outUse then ts[last[atom] := Nop] else ts, i)
  {
    hide FateOf;
    assert ss[i + 1..|ss|] == ss[i + 1..];
    assert AfterUse(l, u)[atom] == if atom in Atoms(u) then NULL else l[atom];
  }

  lemma GoneStrip(ss: seq<Stmt>, end: set<int>, ts: seq<Stmt>)
    requires AllGone(ss, end, N_ATOMS, ts)
    ensures ts == Strip(ss, end)
  {
    hide FateOf, Strip;
    forall i | 0 <= i < |ss| ensures ts[i] == Strip(ss, end)[i] {
      assert Gone(ss, end, N_ATOMS, ts, i);
      StripAt(ss, end, i);
      if AtomDef(ss[i]) >= 0 {
        LiveFate(ss[i + 1..], end, AtomDef(ss[i]));
      }
    }
  }

  /** Statements have been deleted, perhaps none. */
  ghost predicate Nops(ts: seq<Stmt>, ts': seq<Stmt>) {
    |ts'| == |ts| && forall i | 0 <= i < |ts| :: ts'[i] == ts[i] || ts'[i] == Nop
  }

  lemma NopsTwice(a: seq<Stmt>, b: seq<Stmt>, c: seq<Stmt>)
    requires Nops(a, b) && Nops(b, c)
    ensures Nops(a, c) && (c == a <==> b == a && c == b)
  {
  }

  /** The statements, from the first, and what is pending. */
  method DeadStmt(ss: seq<Stmt>, k: nat, last: array<int>, ts: seq<Stmt>) returns (ts': seq<Stmt>, done: bool)
    requires last.Length == N_ATOMS && k < |ss| && Tracked(ss, k, last[..], ts)
    modifies last
    ensures Tracked(ss, k + 1, last[..], ts') && (done <==> ts' == ts) && Nops(ts, ts')
  {
    ghost var l, n := last[..], k + 1;
    ts', done := ts, true;
    UseAtom(AtomUse(ss[k]), last);
    var atom := AtomDef(ss[k]);
    if atom >= 0 {
      if last[atom] != NULL {
        assert Pending(ss, k, last[atom], atom) && Kept(ss, ts, k, last[atom]);
        done := false;
        ts' := ts'[last[atom] := Nop];
      }
      last[atom] := k;
    }
    forall i, a | 0 <= a < N_ATOMS && 0 <= i < n ensures Pending(ss, n, i, a) <==> last[a] == i {
      PendingNext(ss, k, l, ts, i, a);
    }
    forall i | 0 <= i < n ensures Kept(ss, ts', n, i) {
      if i < k {
        KeptNext(ss, k, l, ts, i);
      } else {
        assert ss[k + 1..k + 1] == [];
      }
    }
  }

  method UseAtom(atom: int, last: array<int>)
    requires last.Length == N_ATOMS && -1 <= atom <= AX_ATOM
    modifies last
    ensures last[..] == AfterUse(old(last[..]), atom)
  {
    if atom == AX_ATOM {
      last[X_ATOM] := NULL;
      last[A_ATOM] := NULL;
    } else if atom >= 0 {
      last[atom] := NULL;
    }
  }

  /** What is pending for an atom has not gone yet. */
  lemma StillThere(ss: seq<Stmt>, end: set<int>, ts: seq<Stmt>, l: seq<int>, atom: nat)
    requires AllPending(ss, l) && atom < N_ATOMS && l[atom] != NULL && AllGone(ss, end, atom, ts)
    ensures 0 <= l[atom] < |ts| == |ss| && ts[l[atom]] != Nop
  {
    hide FateOf;
    var i := l[atom];
    assert Pending(ss, |ss|, i, atom) && Gone(ss, end, atom, ts, i) && ss[i + 1..|ss|] == ss[i + 1..];
  }

  /** opt_deadstores: the statements of a block without the dead ones. */
  method OptDeadstores(ss: seq<Stmt>, b: Branch, outUse: AtomSet) returns (ts: seq<Stmt>, done: bool)
    ensures ts == Strip(ss, outUse + Atoms(BranchUse(b))) && (done <==> ts == ss)
  {
    hide FateOf, Strip;
    var last := new int[N_ATOMS](i => NULL);
    ts, done := ss, true;
    var k := 0;
    while k < |ss|
      invariant 0 <= k <= |ss| && fresh(last) && Tracked(ss, k, last[..], ts) && (done <==> ts == ss) && Nops(ss, ts)
    {
      var same;
      ghost var was := ts;
      ts, same := DeadStmt(ss, k, last, ts);
      NopsTwice(ss, was, ts);
      done := done && same;
      k := k + 1;
    }
    ghost var l, end := last[..], outUse + Atoms(BranchUse(b));
    UseAtom(BranchUse(b), last);
    AllTracked(ss, end, l, ts);
    assert AllPending(ss, l);
    var atom := 0;
    while atom < N_ATOMS
      invariant 0 <= atom <= N_ATOMS && |ts| == |ss| && last[..] == AfterUse(l, BranchUse(b)) && (done <==> ts == ss)
      invariant AllGone(ss, end, atom, ts) && Nops(ss, ts)
    {
      ghost var before := ts;
      if last[atom] != NULL && atom !in outUse {
        StillThere(ss, end, ts, l, atom);
        NopsTwice(ss, ts, ts[last[atom] := Nop]);
        ts := ts[last[atom] := Nop];
        done := false;
      }
      GoneNext(ss, outUse, BranchUse(b), l, before, atom);
      atom := atom + 1;
    }
    GoneStrip(ss, end, ts);
  }

  // ------------------------------------------------------------ all blocks

  class Cleaner {
    const level: seq<nat>
    const levels: seq<seq<int>>
    const outUse: seq<AtomSet>
    var pool: Pool
    var done: bool

    constructor (pool: Pool, level: seq<nat>, levels: seq<seq<int>>, outUse: seq<AtomSet>)
      ensures this.pool == pool && this.level == level && this.levels == levels && this.outUse == outUse && done
    {
      this.pool, this.level, this.levels, this.outUse := pool, level, levels, outUse;
      done := true;
    }

    /** The dead stores of every block, and no packet that gets through sees
        a difference. */
    method StripAll(root: int, ghost r: map<int, nat>, ghost m: set<int>, ghost inUse: seq<AtomSet>)
      requires Ranked(GraphOf(pool), r) && Leveled(pool, level, levels, m, root) && LiveSets(pool, m, inUse, outUse)
      modifies this
      ensures Stripped(old(pool), pool, m, outUse) && Ranked(GraphOf(pool), r)
        && (done <==> old(done) && pool == old(pool))
      ensures forall p, st | Run(GraphOf(old(pool)), r, root, p, st).Some? ::
        Run(GraphOf(pool), r, root, p, st) == Run(GraphOf(old(pool)), r, root, p, st)
    {
      ghost var was, done' := pool, {};
      var i := level[root];
      assert Passed(level, levels, m, i, 0, {});
      while i >= 0
        invariant -1 <= i < |levels| && Passed(level, levels, m, i, 0, done')
        invariant Stripped(was, pool, done', outUse) && (forall b | 0 <= b < |pool| && b !in done' :: pool[b] == was[b])
        invariant done <==> old(done) && pool == was
      {
        var k := 0;
        while k < |levels[i]|
          invariant 0 <= k <= |levels[i]| && Passed(level, levels, m, i, k, done')
          invariant Stripped(was, pool, done', outUse)
            && (forall b | 0 <= b < |pool| && b !in done' :: pool[b] == was[b])
          invariant done <==> old(done) && pool == was
        {
          PassedNext(was, level, levels, m, root, i, k, done');
          StripOne(levels[i][k], was, done');
          done' := done' + {levels[i][k]};
          k := k + 1;
        }
        PassedList(level, levels, m, i, done');
        i := i - 1;
      }
      StrippedRanked(was, pool, r, m, outUse);
      forall p, st | Run(GraphOf(was), r, root, p, st).Some?
        ensures Run(GraphOf(pool), r, root, p, st) == Run(GraphOf(was), r, root, p, st)
      {
        LeveledCovered(was, level, levels, m, root);
        StrippedRun(was, pool, r, m, inUse, outUse, root, p, st, st);
      }
    }

    method StripOne(b: int, ghost was: Pool, ghost done': set<int>)
      requires 0 <= b < |pool| == |was| && b !in done' && Stripped(was, pool, done', outUse)
      requires (forall x | 0 <= x < |pool| && x !in done' :: pool[x] == was[x])
      requires done ==> pool == was
      modifies this
      ensures Stripped(was, pool, done' + {b}, outUse)
        && (forall x | 0 <= x < |pool| && x !in done' + {b} :: pool[x] == was[x])
      ensures done <==> old(done) && pool == old(pool)
      ensures old(pool) != was ==> pool != was
    {
      hide Strip, LiveAt, Atoms, BranchUse;
      assert pool[b] == was[b];
      if pool[b].s.Ret? {
        if pool[b].stmts != [] {
          pool := pool[b := pool[b].(stmts := [])];
          done := false;
        }
      } else {
        var ts, same := OptDeadstores(pool[b].stmts, pool[b].s, outUse[b]);
        pool := pool[b := pool[b].(stmts := ts)];
        done := done && same;
      }
    }
  }

  lemma LeveledCovered(pool: Pool, level: seq<nat>, levels: seq<seq<int>>, m: set<int>, root: int)
    requires Leveled(pool, level, levels, m, root)
    ensures Covered(pool, m)
  {
    forall b | b in m ensures 0 <= b < |pool| && (pool[b].s.Jmp? ==> pool[b].jt in m && pool[b].jf in m) {
      assert NodeLeveled(pool, level, m, b);
    }
  }
}
