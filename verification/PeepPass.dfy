/** The branch peepholes on every block of a flow graph, with the constants that
    value numbering has found. */
module PeepPass {
  import opened Basics
  import opened Bpf
  import opened Flow
  import opened Blocks
  import opened Dominators
  import opened Liveness
  import opened ValueTable
  import opened Numbering
  import opened Propagation
  import opened Peephole

  /** Block b has become n, given the numbers on its exit. */
  ghost predicate BlockBecomes(K: seq<Key>, pool: Pool, n: Block, outUse: seq<AtomSet>, f: Found, one: bool, b: int) {
    && 0 <= b < |pool| == |outUse| == |f.val| && |f.val[b]| == N_ATOMS && pool[b].s.Jmp? && n.s.Jmp?
    && n.jt in {pool[b].jt, pool[b].jf} && n.jf in {pool[b].jt, pool[b].jf}
    && LiveAt(n.stmts, End(n, outUse[b])) <= LiveAt(pool[b].stmts, End(pool[b], outUse[b]))
    && (TestsOwn(pool[b]) ==> TestsOwn(n)) && Thinned(pool[b].stmts, n.stmts) && (PlainTest(pool[b]) ==> PlainTest(n))
    && (NoOnes(pool[b]) ==> NoOnes(n) && !one) && (Mild(pool[b]) ==> Mild(n))
    && (one ==> n.s == Jmp(JmpK(JSET, ALL_ONES)) && n.jt == n.jf && pool[b].jt != pool[b].jf)
    && var xk, ak := ConstOf(K, f.val[b][X_ATOM]), ConstOf(K, f.val[b][A_ATOM]);
       && RulesGive(pool[b], n, outUse[b], xk, ak, one)
       && forall p, st {:trigger PeepRight(pool[b], one, n, outUse[b], xk, ak, p, st)} ::
         PeepRight(pool[b], one, n, outUse[b], xk, ak, p, st)
  }

  ghost predicate BlockPeeped(K: seq<Key>, pool: Pool, pool': Pool, outUse: seq<AtomSet>, f: Found, ones: set<int>,
      b: int) {
    0 <= b < |pool| == |pool'| && BlockBecomes(K, pool, pool'[b], outUse, f, b in ones, b)
  }

  /** The blocks of m that branch; in those of `ones` the all-ones rule has
      applied, and mattered. */
  ghost predicate Peeped(K: seq<Key>, pool: Pool, pool': Pool, m: set<int>, outUse: seq<AtomSet>, f: Found,
      ones: set<int>) {
    && |pool'| == |pool| && (forall b | b in ones :: b in m && 0 <= b < |pool| && pool[b].s.Jmp?)
    && (forall b | 0 <= b < |pool| && (b !in m || pool[b].s.Ret?) :: pool'[b] == pool[b])
    && forall b {:trigger BlockPeeped(K, pool, pool', outUse, f, ones, b)} | b in m && 0 <= b < |pool|
      && pool[b].s.Jmp? ::
         BlockPeeped(K, pool, pool', outUse, f, ones, b)
  }

  lemma PeepedRanked(K: seq<Key>, pool: Pool, pool': Pool, r: map<int, nat>, m: set<int>, outUse: seq<AtomSet>,
      f: Found, ones: set<int>)
    requires Ranked(GraphOf(pool), r) && Peeped(K, pool, pool', m, outUse, f, ones)
    ensures Ranked(GraphOf(pool'), r) && |pool'| == |pool|
  {
    forall b | b in GraphOf(pool') ensures Falls(GraphOf(pool'), r, b) {
      assert GraphOf(pool)[b] == NodeOf(pool[b]) && Falls(GraphOf(pool), r, b);
      if b in m && pool[b].s.Jmp? {
        assert BlockPeeped(K, pool, pool', outUse, f, ones, b);
      }
    }
  }

  /** A run from b comes to a block of `ones` with 0 in the accumulator, where
      the all-ones rule errs. */
  ghost predicate Errs(g: Graph<int>, r: map<int, nat>, ones: set<int>, b: int, p: Packet, st: State)
    requires Ranked(g, r) && b in g
    decreases r[b]
  {
    assert Falls(g, r, b);
    g[b].Fork? && ExecAll(g[b].stmts, p, st).Some? &&
    var e := ExecAll(g[b].stmts, p, st).value;
    (b in ones && e[A_ATOM] == 0) || Errs(g, r, ones, if Taken(g[b].cond, e) then g[b].jt else g[b].jf, p, e)
  }

  lemma ConstRight(K: seq<Key>, val: Vals, p: Packet, e: State, a: nat)
    requires Ordered(K) && |val| == N_ATOMS && a < N_ATOMS && Consistent(K, val, p, e)
    ensures ConstOf(K, val[a]).Some? ==> e[a] == ConstOf(K, val[a]).value
  {
    if ConstOf(K, val[a]).Some? {
      assert Right(K, val, p, e, a);
      assert Fits(K[val[a] - 1], val[a] - 1);
      ConstDen(K, val[a], ConstOf(K, val[a]).value, p);
    }
  }

  /** One block: from states that agree on what is in use, the same way and
      states that agree on what is used afterwards. */
  lemma PeepStep(K: seq<Key>, pool: Pool, pool': Pool, inUse: seq<AtomSet>, outUse: seq<AtomSet>, f: Found,
      ones: set<int>, b: int, p: Packet, st: State, st': State)
    requires Ordered(K) && BlockPeeped(K, pool, pool', outUse, f, ones, b)
    requires |inUse| == |pool| && LiveSet(pool, inUse, outUse, b) && Agree(st, st', inUse[b])
      && ExecAll(pool[b].stmts, p, st).Some?
    requires Consistent(K, f.val[b], p, ExecAll(pool[b].stmts, p, st).value)
    ensures ExecAll(pool'[b].stmts, p, st').Some?
    ensures var e, e' := ExecAll(pool[b].stmts, p, st).value, ExecAll(pool'[b].stmts, p, st').value;
      Agree(e, e', outUse[b]) && (!(b in ones && e'[A_ATOM] == 0) ==> Goes(pool'[b], e') == Goes(pool[b], e))
  {
    var e := ExecAll(pool[b].stmts, p, st).value;
    var xk, ak := ConstOf(K, f.val[b][X_ATOM]), ConstOf(K, f.val[b][A_ATOM]);
    ConstRight(K, f.val[b], p, e, X_ATOM);
    ConstRight(K, f.val[b], p, e, A_ATOM);
    assert PeepRight(pool[b], b in ones, pool'[b], outUse[b], xk, ak, p, st);
    hide Consistent, ConstOf;
    LiveReads(pool'[b].stmts, End(pool'[b], outUse[b]), p, st, st');
    TakenReads(pool'[b].s.cond, ExecAll(pool'[b].stmts, p, st).value, ExecAll(pool'[b].stmts, p, st').value);
  }

  /** Peepholes change no result, but of runs on which the all-ones rule errs:
      the statements of orig may have been rewritten, as pool has them, when
      the numbers were found. */
  lemma {:induction false} PeepedRun(K: seq<Key>, orig: Pool, pool: Pool, pool': Pool, r: map<int, nat>, m: set<int>,
      inUse: seq<AtomSet>, outUse: seq<AtomSet>, f: Found, ones: set<int>, b: int, p: Packet, st: State, st': State)
    requires Ordered(K) && Ranked(GraphOf(orig), r) && Ranked(GraphOf(pool'), r) && Covered(orig, m) && b in m
      && 0 <= b < |orig| == |pool|
    requires AllFound(K, orig, pool, m, f) && GraphKnown(orig, m, f) && LiveSets(pool, m, inUse, outUse)
    requires Peeped(K, pool, pool', m, outUse, f, ones)
    requires BlockFound(K, orig, pool, f, b) && Consistent(K, f.traces[b][0], p, st) && Agree(st, st', inUse[b])
    requires Run(GraphOf(orig), r, b, p, st).Some? && !Errs(GraphOf(pool'), r, ones, b, p, st')
    ensures Run(GraphOf(pool'), r, b, p, st') == Run(GraphOf(orig), r, b, p, st)
    decreases r[b]
  {
    hide RulesGive, Mild, NoOnes, PlainTest, Thinned;
    var g := GraphOf(orig);
    assert g[b] == NodeOf(orig[b]) && Falls(g, r, b) && GraphOf(pool')[b] == NodeOf(pool'[b]);
    if orig[b].s.Jmp? {
      assert BlockKnown(orig, f, b) && LiveSet(pool, inUse, outUse, b)
        && BlockPeeped(K, pool, pool', outUse, f, ones, b);
      BlockKeeps(K, f.traces[b], orig[b].stmts, pool[b].stmts, p, st);
      PeepStep(K, pool, pool', inUse, outUse, f, ones, b, p, st, st');
      var e, e' := ExecAll(pool[b].stmts, p, st).value, ExecAll(pool'[b].stmts, p, st').value;
      var y := Goes(pool[b], e);
      assert BlockFound(K, orig, pool, f, y) && EntryFrom(orig, f, b, y);
      InheritsRight(K, f.val[b], f.traces[y][0], p, e);
      PeepedRun(K, orig, pool, pool', r, m, inUse, outUse, f, ones, y, p, e, e');
    }
  }

  /** After a last operation that is arithmetic A has no constant number. */
  lemma LastComputed(K: seq<Key>, vals: seq<Vals>, ss: seq<Stmt>, ts: seq<Stmt>, i: nat, n: nat)
    requires Ordered(K) && Traced(K, vals, ss, ts) && Last(ts, i) && i < n <= |ss| && Arithmetic(ts[i])
    ensures ConstOf(K, vals[n][A_ATOM]).None?
    decreases n
  {
    assert StepAt(K, vals, ss, ts, n - 1);
    if n - 1 > i {
      LastComputed(K, vals, ss, ts, i, n - 1);
    }
  }

  // ---------------------------------------------------------------- the pass

  class Peeper {
    const level: seq<nat>
    const levels: seq<seq<int>>
    const outUse: seq<AtomSet>
    const table: Table
    const val: seq<Vals>
    var pool: Pool
    ghost var ones: set<int>

    constructor (pool: Pool, level: seq<nat>, levels: seq<seq<int>>, outUse: seq<AtomSet>, table: Table, val: seq<Vals>)
      ensures this.pool == pool && this.level == level && this.levels == levels && this.outUse == outUse
      ensures this.table == table && this.val == val && ones == {}
    {
      this.pool, this.level, this.levels, this.outUse, this.table, this.val := pool, level, levels, outUse, table, val;
      ones := {};
    }

    /** The constant that number v is flagged as. */
    method Constant(v: nat) returns (c: Option<Word>)
      requires table.Valid() && v <= table.curval
      ensures c == ConstOf(table.keys, v)
    {
      var num := new Numberer(table);
      num.Flags(v);
      c := if table.vmap[v].isConst then Some(table.vmap[v].constVal) else None;
    }

    /** opt_peep on all blocks from the root down. */
    method PeepAll(root: int, ghost orig: Pool, ghost m: set<int>, ghost f: Found)
      requires Leveled(pool, level, levels, m, root) && table.Valid() && |outUse| == |pool|
      requires AllFound(table.keys, orig, pool, m, f) && f.val == val && ones == {}
      modifies this
      ensures Peeped(table.keys, old(pool), pool, m, outUse, f, ones)
    {
      ghost var was, done := pool, {};
      var i := level[root];
      assert Passed(level, levels, m, i, 0, {});
      while i >= 0
        invariant -1 <= i < |levels| && Passed(level, levels, m, i, 0, done) && table.Valid()
        invariant Peeped(table.keys, was, pool, done, outUse, f, ones)
      {
        var k := 0;
        while k < |levels[i]|
          invariant 0 <= k <= |levels[i]| && Passed(level, levels, m, i, k, done) && table.Valid()
          invariant Peeped(table.keys, was, pool, done, outUse, f, ones)
        {
          PassedNext(was, level, levels, m, root, i, k, done);
          assert BlockFound(table.keys, orig, was, f, levels[i][k]);
          PeepOne(levels[i][k], orig, was, done, f);
          done := done + {levels[i][k]};
          k := k + 1;
        }
        PassedList(level, levels, m, i, done);
        i := i - 1;
      }
    }

    method PeepOne(b: int, ghost orig: Pool, ghost was: Pool, ghost done: set<int>, ghost f: Found)
      requires table.Valid() && 0 <= b < |was| == |outUse| == |pool| && b !in done
        && BlockFound(table.keys, orig, was, f, b)
      requires f.val == val && Peeped(table.keys, was, pool, done, outUse, f, ones)
      modifies this
      ensures Peeped(table.keys, was, pool, done + {b}, outUse, f, ones)
    {
      hide BlockPeeped, PeepRight, Traced, Shaped, RulesGive;
      if pool[b].s.Jmp? {
        NoArithmetic(table.keys, f, orig, was, b);
        var xk := Constant(val[b][X_ATOM]);
        var ak := Constant(val[b][A_ATOM]);
        var n;
        ghost var one;
        n, one := OptPeep(pool[b], outUse[b], xk, ak);
        ghost var pool0, ones0 := pool, ones;
        pool := pool[b := n];
        if one {
          ones := ones + {b};
        }
        BlockIsPeeped(table.keys, was, n, outUse, f, one, b);
        PeepedOne(table.keys, was, pool0, pool, done, outUse, f, ones0, ones, b);
      }
    }
  }

  /** What OptPeep takes for granted of the constant in A. */
  lemma NoArithmetic(K: seq<Key>, f: Found, orig: Pool, pool: Pool, b: int)
    requires Ordered(K) && BlockFound(K, orig, pool, f, b)
    ensures InRange(K, f.val[b])
    ensures ConstOf(K, f.val[b][A_ATOM]).Some? ==>
      forall i: nat | Last(pool[b].stmts, i) :: !pool[b].stmts[i].AluX? && !pool[b].stmts[i].AluK?
  {
    forall i: nat | Last(pool[b].stmts, i) && ConstOf(K, f.val[b][A_ATOM]).Some? ensures !Arithmetic(pool[b].stmts[i]) {
      if Arithmetic(pool[b].stmts[i]) {
        LastComputed(K, f.traces[b], orig[b].stmts, pool[b].stmts, i, |pool[b].stmts|);
      }
    }
  }

  lemma BlockIsPeeped(K: seq<Key>, pool: Pool, n: Block, outUse: seq<AtomSet>, f: Found, one: bool, b: int)
    requires 0 <= b < |pool| == |outUse| == |f.val| && |f.val[b]| == N_ATOMS && pool[b].s.Jmp? && n.s.Jmp?
    requires Shaped(pool[b], n, outUse[b], one)
    requires one ==> n.s == Jmp(JmpK(JSET, ALL_ONES)) && n.jt == n.jf && pool[b].jt != pool[b].jf
    requires RulesGive(pool[b], n, outUse[b], ConstOf(K, f.val[b][X_ATOM]), ConstOf(K, f.val[b][A_ATOM]), one)
    requires var xk, ak := ConstOf(K, f.val[b][X_ATOM]), ConstOf(K, f.val[b][A_ATOM]);
       forall p, st {:trigger PeepRight(pool[b], one, n, outUse[b], xk, ak, p, st)} ::
         PeepRight(pool[b], one, n, outUse[b], xk, ak, p, st)
    ensures BlockBecomes(K, pool, n, outUse, f, one, b)
  {
    hide PeepRight, RulesGive, Mild, NoOnes;
    var E: set<int> := {};
    assert E + Atoms(BranchUse(n.s)) == Atoms(BranchUse(n.s))
      && E + Atoms(BranchUse(pool[b].s)) == Atoms(BranchUse(pool[b].s));
    assert LiveAt(n.stmts, E + Atoms(BranchUse(n.s))) <= LiveAt(pool[b].stmts, E + Atoms(BranchUse(pool[b].s)));
    assert LiveAt(n.stmts, outUse[b] + Atoms(BranchUse(n.s))) <=
      LiveAt(pool[b].stmts, outUse[b] + Atoms(BranchUse(pool[b].s)));
  }

  lemma PeepedOne(K: seq<Key>, was: Pool, pool: Pool, pool': Pool, done: set<int>, outUse: seq<AtomSet>, f: Found,
                  ones: set<int>, ones': set<int>, b: int)
    requires Peeped(K, was, pool, done, outUse, f, ones) && 0 <= b < |was| && b !in done
    requires |pool'| == |pool| && (forall x | 0 <= x < |pool| && x != b :: pool'[x] == pool[x])
    requires ones' == ones || ones' == ones + {b}
    requires BlockBecomes(K, was, pool'[b], outUse, f, b in ones', b)
    ensures Peeped(K, was, pool', done + {b}, outUse, f, ones')
  {
    forall x | x in done + {b} && 0 <= x < |was| && was[x].s.Jmp?
      ensures BlockPeeped(K, was, pool', outUse, f, ones', x)
    {
      if x != b {
        assert BlockPeeped(K, was, pool, outUse, f, ones, x);
      }
    }
  }
}
