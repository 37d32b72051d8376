/** pcap_compile: parse, generate, close, perhaps optimize, lay out. */
module Pcap {
  import opened Bpf
  import opened Flow
  import opened Blocks
  import opened Insns
  import opened Codegen
  import opened Compare
  import opened Layout
  import opened Liveness
  import opened Propagation
  import opened Numbering
  import opened Decisions
  import opened Peephole
  import opened Hazards
  import opened Rounds
  import ValueTable

  /** The flow graph of a filter: acyclic, and from its root it returns the
      snapshot length for the packets the filter accepts and 0 for those it
      refuses; those whose loads run out are rejected on the spot. */
  ghost predicate Decides(pool: Pool, r: map<int, nat>, root: nat, f: Filter, snaplen: Word) {
    && root < |pool| && LeavesEnd(pool) && Ranked(GraphOf(pool), r)
    && forall p, st :: Run(GraphOf(pool), r, root, p, st) == Returned(Eval(f, p, st), snaplen)
  }

  lemma FinishedDecides(pool: Pool, v: View, f: Filter, n: nat, snaplen: Word)
    requires Layered(v) && Means(v, f) && Finished(GraphOf(pool), v, n, n + 1, snaplen) && LeavesEnd(pool)
    requires |pool| == n + 2 && (forall i :: i in v.g <==> 0 <= i < n)
    requires forall b | b in GraphOf(pool) && b >= n :: GraphOf(pool)[b].Leaf?
    ensures Decides(pool, FinishRank(GraphOf(pool), v), v.entry, f, snaplen)
  {
    var g := GraphOf(pool);
    var r := FinishRank(g, v);
    FinishRanked(g, v, n, n + 1, snaplen);
    forall p, st ensures Run(g, r, v.entry, p, st) == Returned(Eval(f, p, st), snaplen) {
      CompiledRun(g, r, v, n, n + 1, f, snaplen, p, st);
    }
  }

  lemma ParsedDecides(was: Pool, pool: Pool, b: nat, v: View, f: Filter, snaplen: Word)
    requires Generated(was, 0, b, v, f) && Close(was, pool, b, v, snaplen)
    ensures Decides(pool, FinishRank(GraphOf(pool), v), v.entry, f, snaplen)
  {
    hide Represents, Layered, Means, Made, Finished, LeavesEnd, Decides;
    ClosedLeaves(was, pool, b, v, snaplen);
    ClosedGraph(was, pool, b, v, snaplen);
    FinishedDecides(pool, v, f, |was|, snaplen);
  }

  /** The blocks that branch are tests of f. */
  ghost predicate AllMade(pool: Pool, f: Filter) {
    forall b | 0 <= b < |pool| && pool[b].s.Jmp? :: IsTest(f, pool[b].stmts, pool[b].s.cond)
  }

  lemma ParsedMade(was: Pool, pool: Pool, b: nat, v: View, f: Filter, snaplen: Word)
    requires Generated(was, 0, b, v, f) && Close(was, pool, b, v, snaplen)
    ensures AllMade(pool, f)
  {
    forall x | 0 <= x < |pool| && pool[x].s.Jmp? ensures IsTest(f, pool[x].stmts, pool[x].s.cond) {
      assert x in v.g && NodeFits(was[x], v.g[x]);
    }
  }

  /** gen_* calls, then finish_parse. */
  method Parse(f: Filter, snaplen: Word) returns (pool: Pool, root: nat, ghost r: map<int, nat>)
    ensures Decides(pool, r, root, f, snaplen) && AllMade(pool, f)
  {
    var c := new Compiler();
    var b, v := c.Gen(f);
    ghost var was := c.pool;
    root := c.FinishParse(b, snaplen, v);
    pool := c.pool;
    r := FinishRank(GraphOf(pool), v);
    ParsedDecides(was, pool, b, v, f, snaplen);
    ParsedMade(was, pool, b, v, f, snaplen);
  }

  /** icode_to_fcode: the array that comes out, run by bpf_filter from its first
      instruction, does what the graph does. */
  method Lay(pool: Pool, root: nat, ghost r: map<int, nat>) returns (prog: array<Insn>)
    requires Ranked(GraphOf(pool), r) && LeavesEnd(pool) && root < |pool|
    ensures forall p, st :: Interp(prog[..], 0, p, st) == Done(Run(GraphOf(pool), r, root, p, st))
  {
    var a := new Assembler(pool, r);
    ghost var attempts := a.IcodeToFcode(root);
    prog := a.code;
    forall p, st ensures Interp(prog[..], 0, p, st) == Done(Run(GraphOf(pool), r, root, p, st)) {
      LaidRun(prog[..], pool, a.offset, a.From(root), r, root, p, st);
    }
  }

  /** The array gives the verdict of the filter. */
  method Compile(f: Filter, snaplen: Word) returns (prog: array<Insn>)
    ensures forall p, st :: Interp(prog[..], 0, p, st) == Done(Returned(Eval(f, p, st), snaplen))
  {
    var pool, root, r := Parse(f, snaplen);
    prog := Lay(pool, root, r);
    forall p, st ensures Interp(prog[..], 0, p, st) == Done(Returned(Eval(f, p, st), snaplen)) {
      assert Run(GraphOf(pool), r, root, p, st) == Returned(Eval(f, p, st), snaplen);
    }
  }

  // ------------------------------------------------------ with the optimizer

  /** A test of a filter, as a block. */
  function TestBlock(ss: seq<Stmt>, c: Cond): Block {
    Block(ss, Jmp(c), NULL, NULL, false, 0)
  }

  /** Every test of f loads what it tests, as those of the generator do. */
  ghost predicate Fresh(f: Filter) {
    forall ss, c | IsTest(f, ss, c) :: TestsOwn(TestBlock(ss, c))
  }

  /** Every test of f is of one field, perhaps masked, or of the length. */
  ghost predicate AllFields(f: Filter) {
    forall ss, c | IsTest(f, ss, c) :: PlainTest(TestBlock(ss, c))
  }

  /** No test of f compares with all ones or could be found to mask with them. */
  ghost predicate OtherMasks(f: Filter) {
    forall ss, c | IsTest(f, ss, c) :: Mild(TestBlock(ss, c))
  }

  ghost predicate UsesDivision(f: Filter) {
    exists ss, c :: IsTest(f, ss, c) && HasDivision(ss)
  }

  /** No load of any test of f runs out of p, whether p comes to it or not. */
  ghost predicate LongEnough(f: Filter, p: Packet) {
    forall ss, c | IsTest(f, ss, c) :: ExecAll(ss, p, Zero()).Some?
  }

  /** What holds of the tests holds of the blocks made of them. */
  lemma MadeOf(pool: Pool, f: Filter)
    requires AllMade(pool, f) && LeavesEnd(pool)
    ensures Fresh(f) ==> AllTestOwn(pool)
    ensures AllFields(f) ==> AllPlain(pool)
    ensures OtherMasks(f) ==> AllMild(pool)
    ensures AnyDivision(pool) ==> UsesDivision(f)
    ensures forall p | LongEnough(f, p) :: NoneFaults(pool, p)
  {
    hide LiveAt;
    forall b | 0 <= b < |pool| && pool[b].s.Jmp?
      ensures Fresh(f) ==> TestsOwn(pool[b])
      ensures AllFields(f) ==> PlainTest(pool[b])
      ensures OtherMasks(f) ==> Mild(pool[b])
      ensures HasDivision(pool[b].stmts) ==> UsesDivision(f)
      ensures forall p | LongEnough(f, p) :: !Faults(pool[b], p)
    {
      assert IsTest(f, pool[b].stmts, pool[b].s.cond);
      var t := TestBlock(pool[b].stmts, pool[b].s.cond);
      assert t.stmts == pool[b].stmts && t.s == pool[b].s;
    }
  }

  /** Fields are masked, not divided. */
  lemma FieldsUndivided(f: Filter)
    requires AllFields(f)
    ensures !UsesDivision(f)
  {
    forall ss, c | IsTest(f, ss, c) ensures !HasDivision(ss) {
      assert PlainTest(TestBlock(ss, c)) && TestBlock(ss, c).stmts == ss;
    }
  }

  lemma {:induction false} FieldOf(f: Filter, ss: seq<Stmt>, c: Cond)
    requires FieldTests(f) && IsTest(f, ss, c)
    ensures FieldTest(ss, c)
  {
    match f
    case Prim(_, _) =>
    case And(l, r) => if IsTest(l, ss, c) { FieldOf(l, ss, c); } else { FieldOf(r, ss, c); }
    case Or(l, r) => if IsTest(l, ss, c) { FieldOf(l, ss, c); } else { FieldOf(r, ss, c); }
    case Not(e) => FieldOf(e, ss, c);
  }

  /** What gen_ncmp and those that use it make are tests of fields. */
  lemma FieldsFresh(f: Filter)
    requires FieldTests(f)
    ensures Fresh(f) && AllFields(f)
  {
    forall ss, c | IsTest(f, ss, c) ensures TestsOwn(TestBlock(ss, c)) && PlainTest(TestBlock(ss, c)) {
      FieldOf(f, ss, c);
      LoadedFirst(ss);
    }
  }

  /** A load and masks leave nothing of the state before to the accumulator. */
  lemma LoadedFirst(ss: seq<Stmt>)
    requires ss != [] && ss[0].LdAbs? && forall i | 0 < i < |ss| :: ss[i].AluK?
    ensures LiveAt(ss, {A_ATOM}) == {}
  {
    OnlyAcc(ss[1..]);
  }

  lemma {:induction false} OnlyAcc(ss: seq<Stmt>)
    requires forall i | 0 <= i < |ss| :: ss[i].AluK?
    ensures LiveAt(ss, {A_ATOM}) == {A_ATOM}
  {
    if ss != [] {
      OnlyAcc(ss[1..]);
    }
  }

  /** The steps lead from a graph of f's tests that decides f to this graph. */
  ghost predicate Led(f: Filter, snaplen: Word, b: Pool, rb: map<int, nat>, root: nat, ts: seq<Step>) {
    && Ranked(GraphOf(b), rb) && root < |b| && LeavesEnd(b)
    && exists a, ra {:trigger LeadsOn(ts, root, a, ra, b, rb)} ::
         Decides(a, ra, root, f, snaplen) && AllMade(a, f) && LeadsOn(ts, root, a, ra, b, rb)
  }

  /** To the graph that the array runs. */
  ghost predicate Followed(f: Filter, snaplen: Word, prog: seq<Insn>, root: nat, ts: seq<Step>) {
    exists b, rb {:trigger Led(f, snaplen, b, rb, root, ts)} :: Led(f, snaplen, b, rb, root, ts)
      && forall p, st :: Interp(prog, 0, p, st) == Done(Run(GraphOf(b), rb, root, p, st))
  }

  /** The optimizer has been through rounds of the steps ts, from a graph of f's
      tests that decides f, and has given up at the division of a constant by the
      constant 0. */
  ghost predicate Failed(f: Filter, snaplen: Word, root: nat, ts: seq<Step>, rounds: nat, safe: bool) {
    exists a, ra {:trigger Decides(a, ra, root, f, snaplen)} ::
      Decides(a, ra, root, f, snaplen) && AllMade(a, f) && GaveUp(a, ra, root, ts, rounds, safe)
  }

  /** The parser and the optimizer, with any number of its rounds: the graph gives
      the verdict of the filter for every packet that no load of the filter
      rejects, unless it hits a hazard of a step that was made. Safe rounds have no
      hazards; where nothing is masked or compared with all ones only packets that
      are too short for some test can hit one, with tests of fields none. It fails
      only at a division of a constant by zero. */
  method OptimizeFilter(f: Filter, snaplen: Word, hash: ValueTable.Key -> nat, rounds: nat, safe: bool)
      returns (ok: bool, pool: Pool, root: nat, ghost r: map<int, nat>, ghost ts: seq<Step>)
    requires Fresh(f)
    ensures !ok ==> UsesDivision(f)
    ensures !ok ==> Failed(f, snaplen, root, ts, rounds, safe)
    ensures ok ==> Led(f, snaplen, pool, r, root, ts) && Optimized(ts, root, rounds, safe)
    ensures ok ==> forall p, st | Eval(f, p, st).Exit? && !HitsAny(ts, root, p, st) ::
      Run(GraphOf(pool), r, root, p, st) == Returned(Eval(f, p, st), snaplen)
    ensures ok && safe ==> AllSafe(ts) && forall p, st :: !HitsAny(ts, root, p, st)
    ensures ok && OtherMasks(f) ==> forall p, st | LongEnough(f, p) :: !HitsAny(ts, root, p, st)
    ensures AllFields(f) ==> ok
    ensures AllFields(f) ==> forall p, st :: !HitsAny(ts, root, p, st)
  {
    hide Fresh, AllFields, OtherMasks, UsesDivision, LongEnough, LeavesEnd, AllTestOwn, Optimized, GaveUp;
    var parsed;
    ghost var was;
    parsed, root, was := Parse(f, snaplen);
    MadeOf(parsed, f);
    ok, pool, r, ts := Optimize(parsed, root, was, hash, rounds, safe);
    if ok {
      assert LeadsOn(ts, root, parsed, was, pool, r);
      forall p, st | Eval(f, p, st).Exit? && !HitsAny(ts, root, p, st)
        ensures Run(GraphOf(pool), r, root, p, st) == Returned(Eval(f, p, st), snaplen)
      {
        assert Run(GraphOf(parsed), was, root, p, st) == Returned(Eval(f, p, st), snaplen);
      }
      if safe {
        SafeHarmless(ts, root);
      }
    }
    if AllFields(f) {
      FieldsUndivided(f);
    }
  }

  /** The array of that graph. */
  method CompileOptimized(f: Filter, snaplen: Word, hash: ValueTable.Key -> nat, rounds: nat, safe: bool)
      returns (ok: bool, prog: array<Insn>, root: nat, ghost ts: seq<Step>)
    requires Fresh(f)
    ensures !ok ==> UsesDivision(f)
    ensures !ok ==> Failed(f, snaplen, root, ts, rounds, safe)
    ensures ok ==> Followed(f, snaplen, prog[..], root, ts) && Optimized(ts, root, rounds, safe)
    ensures ok ==> forall p, st | Eval(f, p, st).Exit? && !HitsAny(ts, root, p, st) ::
      Interp(prog[..], 0, p, st) == Done(Returned(Eval(f, p, st), snaplen))
    ensures ok && safe ==> AllSafe(ts) && forall p, st :: !HitsAny(ts, root, p, st)
    ensures ok && OtherMasks(f) ==> forall p, st | LongEnough(f, p) :: !HitsAny(ts, root, p, st)
    ensures AllFields(f) ==> ok
    ensures AllFields(f) ==> forall p, st :: !HitsAny(ts, root, p, st)
  {
    hide Fresh, AllFields, OtherMasks, UsesDivision, LongEnough, LeavesEnd, Interp, HitsAny, AllSafe, Optimized, Failed;
    var pool;
    ghost var r;
    ok, pool, root, r, ts := OptimizeFilter(f, snaplen, hash, rounds, safe);
    prog := new Insn[0];
    if ok {
      prog := Lay(pool, root, r);
      assert Led(f, snaplen, pool, r, root, ts);
    }
  }
}
