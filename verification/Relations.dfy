/** Filters made of tests of fields and of relations between arithmetic
    expressions: from the tree to the array that bpf_filter runs. */
module Relations {
  import opened Basics
  import opened Bpf
  import opened Blocks
  import opened Codegen
  import opened Compare
  import opened Insns
  import opened Liveness
  import opened Propagation
  import opened Peephole
  import opened Hazards
  import opened Pcap
  import opened Rounds
  import opened Arith
  import Bits
  import ValueTable

  /** The relations of the grammar; the others are their reversals. */
  datatype RelOp = GT | GE | EQ

  function CodeOf(op: RelOp): Test {
    match op
    case GT => JGT
    case GE => JGE
    case EQ => JEQ
  }

  /** What the relations mean, of numbers. */
  predicate Meets(op: RelOp, a: nat, b: nat) {
    match op
    case GT => a > b
    case GE => a >= b
    case EQ => a == b
  }

  /** The machine's tests for them say so. */
  lemma CodeMeets(op: RelOp, a: Word, b: Word)
    ensures Holds(CodeOf(op), a, b) <==> Meets(op, Unsigned(a), Unsigned(b))
  {
    hide Holds, Unsigned;
    Bits.HoldsNumbers(CodeOf(op), a, b);
  }

  datatype Rel =
    | Primitive(test: Filter)
    | Relation(op: RelOp, l: Arth, r: Arth, reversed: bool)
    | Both(a: Rel, b: Rel)
    | Either(a: Rel, b: Rel)
    | Opposed(a: Rel)

  /** Its primitives test fields, as those of gen_ncmp, gen_mcmp and gen_bcmp do
      and what is made of them. */
  predicate Primitives(e: Rel) {
    match e
    case Primitive(f) => FieldTests(f)
    case Relation(_, _, _, _) => true
    case Both(a, b) => Primitives(a) && Primitives(b)
    case Either(a, b) => Primitives(a) && Primitives(b)
    case Opposed(a) => Primitives(a)
  }

  /** What the filter says of a packet, from left to right; None if a load on the
      way runs out or a division is by zero. */
  function Says(e: Rel, p: Packet): Option<bool> {
    match e
    case Primitive(f) => Verdict(f, p, Zero())
    case Relation(op, l, r, reversed) =>
      if Arith.Value(l, p).None? || Arith.Value(r, p).None? then None
      else Some(Meets(op, Unsigned(Arith.Value(l, p).value), Unsigned(Arith.Value(r, p).value)) != reversed)
    case Both(a, b) => if Says(a, p) == Some(true) then Says(b, p) else Says(a, p)
    case Either(a, b) => if Says(a, p) == Some(false) then Says(b, p) else Says(a, p)
    case Opposed(a) => (match Says(a, p) case None => None case Some(t) => Some(!t))
  }

  /** No test of f rejects p. */
  predicate Passes(f: Filter, p: Packet) {
    match f
    case Prim(ss, _) => ExecAll(ss, p, Zero()).Some?
    case And(l, r) => Passes(l, p) && Passes(r, p)
    case Or(l, r) => Passes(l, p) && Passes(r, p)
    case Not(e) => Passes(e, p)
  }

  /** All its relations have values for p, and all its primitives let it pass,
      whether they are come to or not. */
  predicate AllValued(e: Rel, p: Packet) {
    match e
    case Primitive(f) => Passes(f, p)
    case Relation(_, l, r, _) => Arith.Value(l, p).Some? && Arith.Value(r, p).Some?
    case Both(a, b) => AllValued(a, p) && AllValued(b, p)
    case Either(a, b) => AllValued(a, p) && AllValued(b, p)
    case Opposed(a) => AllValued(a, p)
  }

  /** How many registers it needs at a time. */
  function RelNeed(e: Rel): nat {
    match e
    case Primitive(_) => 0
    case Relation(_, l, r, _) => Max(Arith.Need(l), 1 + Arith.Need(r))
    case Both(a, b) => Max(RelNeed(a), RelNeed(b))
    case Either(a, b) => Max(RelNeed(a), RelNeed(b))
    case Opposed(a) => RelNeed(a)
  }

  /** Its operations, with the subtraction that tests for equality. */
  function RelOps(e: Rel): set<AluOp> {
    match e
    case Primitive(_) => {}
    case Relation(_, l, r, _) => Arith.Ops(l) + Arith.Ops(r) + {SUB}
    case Both(a, b) => RelOps(a) + RelOps(b)
    case Either(a, b) => RelOps(a) + RelOps(b)
    case Opposed(a) => RelOps(a)
  }

  /** A test of a field, or one of values computed with these operations only. */
  ghost predicate OneRelated(ss: seq<Stmt>, c: Cond, ops: set<AluOp>) {
    TestsOwn(TestBlock(ss, c)) && (FieldTest(ss, c) || (OpsIn(ss, ops) && c.test != JSET))
  }

  /** Such tests, that load what they test. */
  ghost predicate Related(f: Filter, ops: set<AluOp>) {
    match f
    case Prim(ss, c) => OneRelated(ss, c, ops)
    case And(l, r) => Related(l, ops) && Related(r, ops)
    case Or(l, r) => Related(l, ops) && Related(r, ops)
    case Not(e) => Related(e, ops)
  }

  lemma {:induction false} PassesTest(f: Filter, p: Packet, ss: seq<Stmt>, c: Cond)
    requires Passes(f, p) && IsTest(f, ss, c)
    ensures ExecAll(ss, p, Zero()).Some?
  {
    match f
    case Prim(_, _) =>
    case And(l, r) => if IsTest(l, ss, c) { PassesTest(l, p, ss, c); } else { PassesTest(r, p, ss, c); }
    case Or(l, r) => if IsTest(l, ss, c) { PassesTest(l, p, ss, c); } else { PassesTest(r, p, ss, c); }
    case Not(e) => PassesTest(e, p, ss, c);
  }

  lemma PassesLong(f: Filter, p: Packet)
    requires Passes(f, p)
    ensures LongEnough(f, p)
  {
    forall ss, c | IsTest(f, ss, c) ensures ExecAll(ss, p, Zero()).Some? {
      PassesTest(f, p, ss, c);
    }
  }

  lemma {:induction false} RelatedTest(f: Filter, ops: set<AluOp>, ss: seq<Stmt>, c: Cond)
    requires Related(f, ops) && IsTest(f, ss, c)
    ensures OneRelated(ss, c, ops)
  {
    match f
    case Prim(_, _) =>
    case And(l, r) => if IsTest(l, ss, c) { RelatedTest(l, ops, ss, c); } else { RelatedTest(r, ops, ss, c); }
    case Or(l, r) => if IsTest(l, ss, c) { RelatedTest(l, ops, ss, c); } else { RelatedTest(r, ops, ss, c); }
    case Not(e) => RelatedTest(e, ops, ss, c);
  }

  lemma {:induction false} RelatedMore(f: Filter, ops: set<AluOp>, more: set<AluOp>)
    requires Related(f, ops) && ops <= more
    ensures Related(f, more)
  {
    match f
    case Prim(ss, c) =>
    case And(l, r) =>
      RelatedMore(l, ops, more);
      RelatedMore(r, ops, more);
    case Or(l, r) =>
      RelatedMore(l, ops, more);
      RelatedMore(r, ops, more);
    case Not(e) => RelatedMore(e, ops, more);
  }

  lemma {:induction false} FieldsRelated(f: Filter)
    requires FieldTests(f)
    ensures Related(f, {}) && OtherMasks(f)
  {
    match f
    case Prim(ss, c) =>
      LoadedFirst(ss);
      OneMask(ss, c);
    case And(l, r) =>
      FieldsRelated(l);
      FieldsRelated(r);
      JoinedMasks(l, r);
    case Or(l, r) =>
      FieldsRelated(l);
      FieldsRelated(r);
      JoinedMasks(l, r);
    case Not(e) =>
      FieldsRelated(e);
      JoinedMasks(e, e);
  }

  /** What the optimizer asks of filters. */
  lemma RelatedFresh(f: Filter, ops: set<AluOp>)
    requires Related(f, ops)
    ensures Fresh(f) && (DIV !in ops && MOD !in ops ==> !UsesDivision(f))
  {
    forall ss, c | IsTest(f, ss, c) ensures OneRelated(ss, c, ops) {
      RelatedTest(f, ops, ss, c);
    }
    hide TestsOwn;
  }

  // ------------------------------------------------------------------ masks

  /** For each relation with masks there is a packet that both sides have a value
      for, and for which none of the masks is all ones. */
  ghost predicate MasksOther(e: Rel) {
    match e
    case Primitive(_) => true
    case Relation(_, l, r, _) => AND in Arith.Ops(l) + Arith.Ops(r) ==> exists p: Packet :: ValuedMasks(l, r, p)
    case Both(a, b) => MasksOther(a) && MasksOther(b)
    case Either(a, b) => MasksOther(a) && MasksOther(b)
    case Opposed(a) => MasksOther(a)
  }

  predicate ValuedMasks(l: Arth, r: Arth, p: Packet) {
    Arith.Value(l, p).Some? && MasksWith(l, p) && Arith.Value(r, p).Some? && MasksWith(r, p)
  }

  /** `ip[0] & 0xf != 5`: the length of the header is not that of one without
      options. */
  lemma OptionsMask()
    ensures MasksOther(Relation(EQ, Bin(AND, Load(B, Arth.Num(14)), Arth.Num(0xf)), Arth.Num(5), true))
  {
    var p := Packet(k => 1, 100, 100);
    assert ValuedMasks(Bin(AND, Load(B, Arth.Num(14)), Arth.Num(0xf)), Arth.Num(5), p);
  }

  lemma TestMild(ss: seq<Stmt>, c: Cond, ops: set<AluOp>, p: Packet)
    requires OpsIn(ss, ops) && c.test != JSET && (AND in ops ==> Otherwise(ss, p))
    ensures Mild(TestBlock(ss, c))
  {
    forall i | 0 <= i < |ss| && ss[i] == AluX(AND) ensures OtherMask(ss, i) {
      assert Elsewhere(ss, i, p) && ExecAll(ss[..i], p, Zero()).Some?;
      hide ExecAll, LiveAt;
    }
    hide OtherMask;
  }

  lemma JoinedMasks(a: Filter, b: Filter)
    ensures OtherMasks(a) && OtherMasks(b) ==> OtherMasks(And(a, b)) && OtherMasks(Or(a, b))
    ensures OtherMasks(a) ==> OtherMasks(Filter.Not(a))
  {
    hide Mild;
  }

  // ------------------------------------------------------------- generation

  /** What a relation compares is what its test says. */
  lemma ComparesSays(f: Filter, op: RelOp, l: Arth, r: Arth, reversed: bool, p: Packet, st: State)
    requires Compares(f, CodeOf(op), l, r, reversed, p, st)
    ensures Verdict(f, p, st) == Says(Relation(op, l, r, reversed), p)
  {
    hide Arith.Value, Holds, Eval, CodeOf, Meets, Unsigned;
    if Arith.Value(l, p).Some? && Arith.Value(r, p).Some? {
      CodeMeets(op, Arith.Value(l, p).value, Arith.Value(r, p).value);
    }
  }

  /** f says what e says, whatever the registers hold. */
  ghost predicate Means(f: Filter, e: Rel) {
    && Related(f, RelOps(e)) && PassesValued(f, e) && (MasksOther(e) ==> OtherMasks(f))
    && forall p, st {:trigger Verdict(f, p, st)} :: Verdict(f, p, st) == Says(e, p)
  }

  /** No test of f rejects a packet that e has all values for. */
  ghost predicate PassesValued(f: Filter, e: Rel) {
    forall p {:trigger Passes(f, p)} | AllValued(e, p) :: Passes(f, p)
  }

  lemma JoinedPasses(a: Filter, b: Filter, x: Rel, y: Rel)
    requires PassesValued(a, x) && PassesValued(b, y)
    ensures PassesValued(And(a, b), Both(x, y)) && PassesValued(Or(a, b), Either(x, y))
    ensures PassesValued(Filter.Not(a), Opposed(x))
  {
    forall p | AllValued(Both(x, y), p) ensures Passes(And(a, b), p) && Passes(Or(a, b), p) {
      assert Passes(a, p) && Passes(b, p);
    }
    forall p | AllValued(Opposed(x), p) ensures Passes(Filter.Not(a), p) {
      assert Passes(a, p);
    }
  }

  lemma FieldAnyState(ss: seq<Stmt>, p: Packet, st: State, st': State)
    requires forall i | 0 <= i < |ss| :: ss[i].AluK? && ss[i].op == AND
    requires st[A_ATOM] == st'[A_ATOM]
    ensures ExecAll(ss, p, st).Some? && ExecAll(ss, p, st').Some?
    ensures ExecAll(ss, p, st).value[A_ATOM] == ExecAll(ss, p, st').value[A_ATOM]
  {
    if ss != [] {
      hide Alu, Masked;
      AndMasks(st[A_ATOM], ss[0].k);
      var a := Masked(st[A_ATOM], ss[0].k);
      assert Exec(ss[0], p, st) == Some(st[A_ATOM := a]) && Exec(ss[0], p, st') == Some(st'[A_ATOM := a]);
      hide Exec;
      FieldAnyState(ss[1..], p, st[A_ATOM := a], st'[A_ATOM := a]);
    }
  }

  /** The registers make no difference to tests of fields. */
  lemma {:induction false} FieldsAnyState(f: Filter, p: Packet, st: State)
    requires FieldTests(f)
    ensures Verdict(f, p, st) == Verdict(f, p, Zero())
  {
    match f
    case Prim(ss, c) =>
      match LoadAbs(ss[0].size, ss[0].k, p) {
        case None =>
        case Some(w) => FieldAnyState(ss[1..], p, st[A_ATOM := w], Zero()[A_ATOM := w]);
      }
    case And(l, r) =>
      FieldsAnyState(l, p, st);
      var o, z := Eval(l, p, st), Eval(l, p, Zero());
      if o.Exit? && o.taken {
        FieldsAnyState(r, p, o.st);
        FieldsAnyState(r, p, z.st);
      }
    case Or(l, r) =>
      FieldsAnyState(l, p, st);
      var o, z := Eval(l, p, st), Eval(l, p, Zero());
      if o.Exit? && !o.taken {
        FieldsAnyState(r, p, o.st);
        FieldsAnyState(r, p, z.st);
      }
    case Not(e) => FieldsAnyState(e, p, st);
  }

  lemma PrimitiveMeans(f: Filter)
    requires FieldTests(f)
    ensures Means(f, Primitive(f))
  {
    FieldsRelated(f);
    forall p, st ensures Verdict(f, p, st) == Verdict(f, p, Zero()) {
      FieldsAnyState(f, p, st);
    }
    hide Verdict, Related, OtherMasks;
  }

  lemma JoinedSays(a: Filter, b: Filter, x: Rel, y: Rel, p: Packet, st: State)
    requires Verdict(a, p, st) == Says(x, p) && forall end :: Verdict(b, p, end) == Says(y, p)
    ensures Verdict(And(a, b), p, st) == Says(Both(x, y), p) && Verdict(Or(a, b), p, st) == Says(Either(x, y), p)
    ensures Verdict(Filter.Not(a), p, st) == Says(Opposed(x), p)
  {
    var o := Eval(a, p, st);
    if o.Exit? {
      assert Verdict(b, p, o.st) == Says(y, p);
    }
  }

  lemma JoinedMean(a: Filter, b: Filter, x: Rel, y: Rel)
    requires Means(a, x) && Means(b, y)
    ensures Means(And(a, b), Both(x, y)) && Means(Or(a, b), Either(x, y)) && Means(Filter.Not(a), Opposed(x))
  {
    RelatedMore(a, RelOps(x), RelOps(x) + RelOps(y));
    RelatedMore(b, RelOps(y), RelOps(x) + RelOps(y));
    JoinedPasses(a, b, x, y);
    JoinedMasks(a, b);
    hide Verdict, Says, OpsIn, TestsOwn, PassesValued, OtherMasks;
    forall p, st
      ensures Verdict(And(a, b), p, st) == Says(Both(x, y), p) && Verdict(Or(a, b), p, st) == Says(Either(x, y), p)
      ensures Verdict(Filter.Not(a), p, st) == Says(Opposed(x), p)
    {
      JoinedSays(a, b, x, y, p, st);
    }
  }

  /** The parser's calls for a filter: the registers of each relation are free
      again, and it fails exactly if some relation needs more than are left. */
  method GenRel(regs: Registers, e: Rel) returns (ok: bool, f: Filter)
    requires regs.Valid() && Primitives(e)
    modifies regs, regs.regused
    ensures regs.Valid() && (ok <==> RelNeed(e) <= old(Arith.Left(regs)))
    ensures ok ==> regs.Used() == old(regs.Used()) && Means(f, e)
    decreases e
  {
    hide Means;
    f := Prim([], JmpK(JEQ, 0));
    match e
    case Primitive(test) =>
      FreeCount(regs.Used(), BPF_MEMWORDS);
      PrimitiveMeans(test);
      ok, f := true, test;
    case Relation(op, l, r, reversed) =>
      ok, f := GenOne(regs, op, l, r, reversed);
    case Both(a, b) =>
      ok, f := GenRel(regs, a);
      if ok {
        var g;
        ok, g := GenRel(regs, b);
        if ok {
          JoinedMean(f, g, a, b);
          f := And(f, g);
        }
      }
    case Either(a, b) =>
      ok, f := GenRel(regs, a);
      if ok {
        var g;
        ok, g := GenRel(regs, b);
        if ok {
          JoinedMean(f, g, a, b);
          f := Or(f, g);
        }
      }
    case Opposed(a) =>
      ok, f := GenRel(regs, a);
      if ok {
        JoinedMean(f, f, a, a);
        f := Filter.Not(f);
      }
  }

  method GenOne(regs: Registers, op: RelOp, l: Arth, r: Arth, reversed: bool) returns (ok: bool, f: Filter)
    requires regs.Valid()
    modifies regs, regs.regused
    ensures regs.Valid() && (ok <==> RelNeed(Relation(op, l, r, reversed)) <= old(Arith.Left(regs)))
    ensures ok ==> regs.Used() == old(regs.Used()) && Means(f, Relation(op, l, r, reversed))
  {
    ghost var used := regs.Used();
    f := Prim([], JmpK(JEQ, 0));
    var g0, g1;
    ok, g0 := Gen(regs, l);
    if ok {
      UsedOne(used, g0.regno);
      ok, g1 := Gen(regs, r);
      if ok {
        hide Generates, Compares, OpsIn, LiveAt, Means, Related, RelOps, OtherMasks, MasksOther, Otherwise;
        f := GenRelation(regs, CodeOf(op), g0, g1, reversed, used, l, r);
        RelationRelated(f, op, l, r, reversed);
        RelationMeans(f, op, l, r, reversed);
      }
    }
  }

  lemma RelationPasses(f: Filter, op: RelOp, l: Arth, r: Arth, reversed: bool, p: Packet)
    requires Compares(f, CodeOf(op), l, r, reversed, p, Zero()) && Inner(f, reversed).Prim? && (reversed ==> f.Not?)
    requires Arith.Value(l, p).Some? && Arith.Value(r, p).Some?
    ensures Passes(f, p)
  {
    hide Arith.Value, Holds, Exec, Taken;
  }

  lemma RelationRelated(f: Filter, op: RelOp, l: Arth, r: Arth, reversed: bool)
    requires TestsRelation(Inner(f, reversed), CodeOf(op), l, r) && (reversed ==> f.Not?)
    ensures Related(f, RelOps(Relation(op, l, r, reversed)))
    ensures MasksOther(Relation(op, l, r, reversed)) ==> OtherMasks(f)
  {
    hide OpsIn, LiveAt, Otherwise, OtherMasks, Mild;
    var t, ops := Inner(f, reversed), RelOps(Relation(op, l, r, reversed));
    assert TestsOwn(TestBlock(t.stmts, t.cond));
    assert Related(t, ops);
    if MasksOther(Relation(op, l, r, reversed)) {
      if AND in ops {
        var p: Packet :| ValuedMasks(l, r, p);
        TestMild(t.stmts, t.cond, ops, p);
      } else {
        TestMild(t.stmts, t.cond, ops, Packet(k => 0, 0, 0));
      }
      OneMask(t.stmts, t.cond);
      JoinedMasks(t, t);
    }
  }

  lemma OneMask(ss: seq<Stmt>, c: Cond)
    requires Mild(TestBlock(ss, c))
    ensures OtherMasks(Prim(ss, c))
  {
    hide Mild;
  }

  lemma RelationMeans(f: Filter, op: RelOp, l: Arth, r: Arth, reversed: bool)
    requires forall p, st {:trigger Compares(f, CodeOf(op), l, r, reversed, p, st)} ::
      Compares(f, CodeOf(op), l, r, reversed, p, st)
    requires Inner(f, reversed).Prim? && (reversed ==> f.Not?)
    requires Related(f, RelOps(Relation(op, l, r, reversed)))
    requires MasksOther(Relation(op, l, r, reversed)) ==> OtherMasks(f)
    ensures Means(f, Relation(op, l, r, reversed))
  {
    hide Compares, Verdict, Says, Passes, Related, Arith.Value, OtherMasks, MasksOther;
    forall p, st ensures Verdict(f, p, st) == Says(Relation(op, l, r, reversed), p) {
      ComparesSays(f, op, l, r, reversed, p, st);
    }
    forall p | AllValued(Relation(op, l, r, reversed), p) ensures Passes(f, p) {
      RelationPasses(f, op, l, r, reversed, p);
    }
  }

  // ---------------------------------------------------------------- the array

  /** What bpf_filter returns for a verdict. */
  function ReturnOf(v: Option<bool>, snaplen: Word): Option<Word> {
    match v
    case None => None
    case Some(t) => Some(if t then snaplen else 0)
  }

  lemma ReturnedSays(f: Filter, e: Rel, p: Packet, st: State, snaplen: Word)
    requires Means(f, e)
    ensures Returned(Eval(f, p, st), snaplen) == ReturnOf(Says(e, p), snaplen)
    ensures Eval(f, p, st).Exit? <==> Says(e, p).Some?
  {
    assert Verdict(f, p, st) == Says(e, p);
    hide Eval, Says;
  }

  /** End to end without the optimizer. */
  method CompileRel(e: Rel, snaplen: Word) returns (ok: bool, prog: array<Insn>)
    requires Primitives(e)
    ensures ok <==> RelNeed(e) <= 16
    ensures ok ==> forall p, st :: Interp(prog[..], 0, p, st) == Done(ReturnOf(Says(e, p), snaplen))
  {
    var regs := new Registers();
    var f;
    ok, f := GenRel(regs, e);
    prog := new Insn[0];
    if ok {
      prog := Compile(f, snaplen);
      forall p, st ensures Interp(prog[..], 0, p, st) == Done(ReturnOf(Says(e, p), snaplen)) {
        ReturnedSays(f, e, p, st, snaplen);
      }
    }
  }

  /** End to end with any number of rounds of the optimizer. Without masks, or
      with other masks than all ones, only packets that some test rejects can hit
      a hazard. */
  method CompileRelOptimized(e: Rel, snaplen: Word, hash: ValueTable.Key -> nat, rounds: nat, safe: bool)
      returns (ok: bool, prog: array<Insn>, root: nat, ghost f: Filter, ghost ts: seq<Step>)
    requires Primitives(e)
    ensures !ok ==> RelNeed(e) > 16 || DIV in RelOps(e) || MOD in RelOps(e)
    ensures !ok && RelNeed(e) <= 16 ==> Means(f, e) && Failed(f, snaplen, root, ts, rounds, safe)
    ensures ok ==> RelNeed(e) <= 16 && Means(f, e)
    ensures ok ==> Followed(f, snaplen, prog[..], root, ts) && Optimized(ts, root, rounds, safe)
    ensures ok ==> forall p, st | Says(e, p).Some? && !HitsAny(ts, root, p, st) ::
      Interp(prog[..], 0, p, st) == Done(ReturnOf(Says(e, p), snaplen))
    ensures ok && safe ==> forall p, st :: !HitsAny(ts, root, p, st)
    ensures ok && MasksOther(e) ==> forall p, st | AllValued(e, p) :: !HitsAny(ts, root, p, st)
  {
    var regs := new Registers();
    var g;
    ok, g := GenRel(regs, e);
    f := g;
    prog, root, ts := new Insn[0], 0, [];
    if ok {
      RelatedFresh(g, RelOps(e));
      hide Fresh, OtherMasks, MasksOther, UsesDivision, LongEnough, Followed, Optimized, Failed, AllFields, Related;
      ok, prog, root, ts := CompileOptimized(g, snaplen, hash, rounds, safe);
      forall p, st | ok && Says(e, p).Some? && !HitsAny(ts, root, p, st)
        ensures Interp(prog[..], 0, p, st) == Done(ReturnOf(Says(e, p), snaplen))
      {
        ReturnedSays(g, e, p, st, snaplen);
      }
      forall p | AllValued(e, p) ensures LongEnough(g, p) {
        assert Passes(g, p);
        PassesLong(g, p);
      }
    }
  }

  // ------------------------------------------------------------- masks of all ones

  /** `ether[0:4] & 0xffffffff = 0` */
  const WHOLE_WORD: Rel := Relation(EQ, Bin(AND, Load(W, Arth.Num(0)), Arth.Num(ALL_ONES)), Arth.Num(0), false)

  lemma WholeWordSays(p: Packet)
    ensures Says(WHOLE_WORD, p) == match LoadAbs(W, 0, p) { case None => None case Some(w) => Some(w == 0) }
  {
    hide LoadAbs;
    var load := Load(W, Arth.Num(0));
    assert Arith.Value(Arth.Num(0), p) == Some(0) && LoadInd(W, 0, 0, p) == LoadAbs(W, 0, p);
    assert Arith.Value(load, p) == LoadAbs(W, 0, p) && Arith.Value(Arth.Num(ALL_ONES), p) == Some(ALL_ONES);
    var masked := Bin(AND, load, Arth.Num(ALL_ONES));
    match LoadAbs(W, 0, p)
    case None => assert Arith.Value(masked, p).None?;
    case Some(w) =>
      AndAll(w);
      assert Arith.Value(masked, p) == Some(w);
  }

  /** The block that Peephole.AllOnesErr is about says what this relation says;
      the rules send a packet that meets it where those go that do not. */
  lemma AllOnesSpoils(jt: int, jf: int, p: Packet, st: State)
    requires Says(WHOLE_WORD, p).Some?
    ensures var b := Block([LdAbs(W, 0), AluK(AND, ALL_ONES)], Jmp(JmpK(JEQ, 0)), jt, jf, true, 0);
      var n := ARule(XRule(JsetRule(MergeLast(b, 1, {}, None)), None), None);
      && ExecAll(b.stmts, p, st).Some? && ExecAll(n.stmts, p, st).Some?
      && Goes(b, ExecAll(b.stmts, p, st).value) == (if Says(WHOLE_WORD, p).value then jt else jf)
      && Goes(n, ExecAll(n.stmts, p, st).value) == jf
  {
    WholeWordSays(p);
    hide LoadAbs, Says, ExecAll, Goes;
    AllOnesErr(jt, jf, p, st);
  }
}
