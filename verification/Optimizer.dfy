/** The passes of the optimizer on a whole flow graph, each with the analyses
    that it needs. */
module Optimizer {
  import opened Basics
  import opened Bpf
  import opened Flow
  import opened Blocks
  import opened Levels
  import opened Dominators
  import opened Predecessors
  import opened Decisions
  import opened Liveness
  import opened ValueTable
  import opened Numbering
  import opened Propagation
  import opened Threading
  import opened Chains
  import opened Pullup
  import opened Peephole
  import opened PeepPass
  import opened Hazards

  /** Nothing from before the block matters to its test. */
  lemma OwnContained(b: Block)
    requires b.s.Jmp? && TestsOwn(b)
    ensures SelfContained(b)
  {
    var E := Atoms(BranchUse(b.s));
    forall p, st ensures LoadsFirst(b, p, st) {
      LiveReads(b.stmts, E, p, st, Zero());
    }
  }

  /** The numbers that were found are what jump threading relies on. */
  lemma FoundNumbered(K: seq<Key>, pool: Pool, m: set<int>, f: Found, vals: seq<Values>)
    requires Ordered(K) && NoDups(K) && AllFound(K, pool, pool, m, f) && AllTestOwn(pool)
    requires |vals| == |pool| && (forall b | 0 <= b < |pool| :: |vals[b].val| == N_ATOMS)
      && (forall b | b in m :: 0 <= b < |pool|)
    requires forall b | b in m && 0 <= b < |f.val| == |f.oval| :: vals[b].val == f.val[b] && vals[b].oval == f.oval[b]
    ensures Numbered(pool, m, vals)
  {
    forall a, b, p | a in m && b in m ensures AgreeOn(pool[a], vals[a], pool[b], vals[b], p) {
      FoundAgree(K, pool, f, a, b, p);
    }
  }

  lemma FoundAgree(K: seq<Key>, pool: Pool, f: Found, a: int, b: int, p: Packet)
    requires Ordered(K) && NoDups(K) && AllTestOwn(pool) && BlockFound(K, pool, pool, f, a)
      && BlockFound(K, pool, pool, f, b)
    ensures AgreeOn(pool[a], Values(f.val[a], f.oval[a], {}), pool[b], Values(f.val[b], f.oval[b], {}), p)
  {
    if pool[a].s.Jmp? && pool[b].s.Jmp? && !Faults(pool[a], p) && !Faults(pool[b], p) {
      OwnRight(K, pool, pool, f, a, p, Zero());
      OwnRight(K, pool, pool, f, b, p, Zero());
    }
  }

  /** find_levels: levels and level lists of the blocks m below root. */
  method Level(pool: Pool, root: int, ghost r: map<int, nat>)
      returns (level: seq<nat>, levels: seq<seq<int>>, m: set<int>)
    requires Ranked(GraphOf(pool), r) && LeavesEnd(pool) && 0 <= root < |pool|
    ensures m == Reach(GraphOf(pool), r, root) && Leveled(pool, level, levels, m, root)
  {
    var l := new Leveler(pool, r);
    l.FindLevels(root);
    level, levels, m := l.level, l.levels, l.marked;
  }

  /** opt_blks up to the peepholes: value numbers for every block of m, and the
      statements as they are rewritten, if they are. It fails only at a division
      of a constant by zero. */
  method FindNumbers(pool: Pool, level: seq<nat>, levels: seq<seq<int>>, m: set<int>, root: int, ghost r: map<int, nat>,
                     hash: Key -> nat, alter: bool)
      returns (ok: bool, pool': Pool, table: Table, val: seq<Vals>, oval: seq<nat>, ghost f: Found, ghost stop: Stop)
    requires Ranked(GraphOf(pool), r) && Leveled(pool, level, levels, m, root)
    ensures !alter ==> ok && pool' == pool
    ensures !ok ==> AnyDivision(pool)
    ensures !ok ==> Stops(stop, pool, m)
    ensures fresh(table) && (ok ==> table.Valid() && NumbersFound(table.keys, pool, pool', m, root, val, oval, f))
    ensures ok && alter ==> AllRewritten(table.keys, pool, pool', f, m)
  {
    var inEdges := FindInEdges(pool, level, levels, root, m);
    NeedSome(pool, m, |pool|, root);
    NeedNone(pool, |pool|);
    table := new Table(hash, Need(pool, m, |pool|, 3, 3));
    var num := new Numberer(table);
    var q := new Propagator(pool, level, levels, inEdges, num, root, m);
    hide AllFound, GraphKnown, AllAgreed, AllRewritten, Stops;
    ok, stop := q.OptBlks(alter, r);
    pool', val, oval, f := q.pool, q.val, q.oval, Found(q.traces, q.val, q.oval);
  }

  /** The fields of the blocks; those of blocks that were not reached are not
      looked at. */
  function Fields(val: seq<Vals>, oval: seq<nat>, outUse: seq<AtomSet>): (vals: seq<Values>)
    requires |val| == |oval| == |outUse|
    ensures |vals| == |val| && forall b | 0 <= b < |vals| :: |vals[b].val| == N_ATOMS
  {
    seq(|val|, b requires 0 <= b < |val| =>
      Values(if |val[b]| == N_ATOMS then val[b] else seq(N_ATOMS, a => 0), oval[b], outUse[b]))
  }

  lemma {:induction false} NeedSome(pool: Pool, m: set<int>, n: nat, b: int)
    requires n <= |pool| && b in m && 0 <= b < n
    ensures Need(pool, m, n, 3, 3) >= 3
  {
    if b < n - 1 {
      NeedSome(pool, m, n - 1, b);
    }
  }

  lemma {:induction false} NeedNone(pool: Pool, n: nat)
    requires n <= |pool|
    ensures Need(pool, {}, n, 2, 1) == 0
  {
    if n > 0 {
      NeedNone(pool, n - 1);
    }
  }

  // --------------------------------------------------------------- threading

  /** opt_j for every edge, until none can be moved: no packet that gets through
      sees a difference. */
  method ThreadGraph(pool: Pool, root: int, ghost r: map<int, nat>, hash: Key -> nat)
      returns (pool': Pool, done: bool, ghost w: Work)
    requires Ranked(GraphOf(pool), r) && LeavesEnd(pool) && 0 <= root < |pool| && AllTestOwn(pool)
    ensures SameTests(pool, pool') && (done ==> pool' == pool)
    ensures w.Threads? && Improves(pool, r, pool', r, root, Safely(pool, r, pool', r, w))
  {
    hide AllTestOwn, NumbersFound, LiveSets, AllThreaded, Improves;
    var level, levels, m := Level(pool, root, r);
    var d := new Dominator(pool, level, levels);
    d.FindEdom(root, m);
    var vals;
    vals, w := NumberBlocks(pool, level, levels, m, root, r, hash, d.edom);
    var t := new Threader(pool, level, levels, d.edom, vals, root, r, m);
    t.ThreadAll();
    pool', done := t.pool, t.done;
    ThreadedRuns(pool, pool', r, root);
    EdgesThreaded(t);
    SafeImproves(pool, r, pool', r, root, w);
  }

  lemma EdgesThreaded(t: Threader)
    requires t.Valid() && forall x {:trigger t.BlockFinished(x)} | x in t.m :: t.BlockFinished(x)
    ensures AllThreaded(t.orig, t.pool, t.m, t.vals, t.edom)
  {
    hide Exhausted, Swept, Numbered;
    forall x | x in t.m && 0 <= x < |t.pool| && t.pool[x].s.Jmp?
      ensures Exhausted(t.orig, t.pool, t.vals, t.edom, x)
      ensures Exhausted(t.orig, t.pool, t.vals, t.edom, |t.pool| + x)
    {
      assert t.BlockFinished(x);
    }
  }

  /** Value numbers, and the atoms in use after each block. */
  method NumberBlocks(pool: Pool, level: seq<nat>, levels: seq<seq<int>>, m: set<int>, root: int, ghost r: map<int,
      nat>, hash: Key -> nat, ghost edom: seq<set<int>>) returns (vals: seq<Values>, ghost w: Work)
    requires Ranked(GraphOf(pool), r) && Leveled(pool, level, levels, m, root) && AllTestOwn(pool)
    ensures Numbered(pool, m, vals)
    ensures w.Threads? && w.vals == vals && w.edom == edom && ValuesFound(pool, m, root, w)
  {
    var u := new Usage(pool, level, levels);
    u.FindUd(root, m);
    var ok, same, table, val, oval;
    ghost var f, stop;
    ok, same, table, val, oval, f, stop := FindNumbers(pool, level, levels, m, root, r, hash, false);
    vals := Fields(val, oval, u.outUse);
    w := Threads(table.keys, f, u.inUse, u.outUse, edom, vals);
    forall b | b in m ensures |val[b]| == N_ATOMS {
      assert BlockFound(table.keys, pool, pool, f, b);
    }
    FoundNumbered(table.keys, pool, m, f, vals);
  }

  /** Decisions on the packet alone are runs from any state. */
  lemma ThreadedRuns(pool: Pool, pool': Pool, r: map<int, nat>, root: int)
    requires Ranked(GraphOf(pool), r) && Ranked(GraphOf(pool'), r) && 0 <= root < |pool| && AllTestOwn(pool)
    requires SameTests(pool, pool') && SameMeaning(pool, pool', r, root)
    ensures SameRuns(pool, r, pool', r, root)
  {
    forall b | 0 <= b < |pool| ensures SelfContained(pool[b]) && SelfContained(pool'[b]) {
      if pool[b].s.Jmp? {
        OwnContained(pool[b]);
        OwnContained(pool'[b]);
      }
    }
    forall p, st | Run(GraphOf(pool), r, root, p, st).Some?
      ensures Run(GraphOf(pool'), r, root, p, st) == Run(GraphOf(pool), r, root, p, st)
    {
      GoRun(pool, r, root, p, st);
      GoRun(pool', r, root, p, st);
    }
  }

  /** A block that loads what it tests reads nothing unknown. */
  lemma OwnKnown(K: seq<Key>, orig: Pool, pool: Pool, m: set<int>, f: Found)
    requires Ordered(K) && AllFound(K, orig, pool, m, f) && AllTestOwn(orig) && LeavesEnd(orig)
    ensures GraphKnown(orig, m, f)
  {
    forall b | b in m ensures BlockKnown(orig, f, b) {
      assert BlockFound(K, orig, pool, f, b);
      var E := Atoms(BranchUse(orig[b].s));
      forall a | 0 <= a < N_ATOMS ensures a !in LiveAt(orig[b].stmts, {}) {
        LiveFate(orig[b].stmts, {}, a);
        LiveFate(orig[b].stmts, E, a);
      }
      SelfKnown(K, f.traces[b], orig[b].stmts, pool[b].stmts, {});
    }
  }

  // --------------------------------------------------------------- peepholes

  /** Nothing is known before the root. */
  lemma StartsUnknown(K: seq<Key>, val: Vals, p: Packet, st: State)
    requires Ordered(K) && val == seq(N_ATOMS, a => 0)
    ensures Consistent(K, val, p, st)
  {
  }

  /** The peepholes on a graph whose statements may have been rewritten: no
      packet that gets through sees a difference, but for those on which the
      all-ones rule errs. */
  lemma PeepedRefines(s: Step, root: int)
    requires Justified(s, root) && s.how.Peeps? && GraphKnown(s.pool, s.how.m, s.how.f) && Covered(s.pool, s.how.m)
    ensures Refines(s.pool, s.r, s.next, s.r', root, [s])
  {
    var h := s.how;
    hide LiveSets, Consistent, GraphKnown, Covered, Peeped;
    assert root in h.m;
    forall p, st | Run(GraphOf(s.pool), s.r, root, p, st).Some? && !HitsAny([s], root, p, st)
      ensures Run(GraphOf(s.next), s.r', root, p, st) == Run(GraphOf(s.pool), s.r, root, p, st)
    {
      assert !Hits([s][0], root, p, st);
      StartsUnknown(h.K, h.f.traces[root][0], p, st);
      assert BlockFound(h.K, s.pool, h.numbered, h.f, root);
      PeepedRun(h.K, s.pool, h.numbered, s.next, s.r, h.m, h.inUse, h.outUse, h.f, h.ones, root, p, st, st);
    }
  }

  /** No test and no mask of a constant of all ones. */
  ghost predicate AllNoOnes(pool: Pool) {
    forall b | 0 <= b < |pool| && pool[b].s.Jmp? :: NoOnes(pool[b])
  }

  /** What the peepholes leave of tests and leaves. */
  lemma PeepedKeeps(K: seq<Key>, pool: Pool, pool': Pool, m: set<int>, outUse: seq<AtomSet>, f: Found, ones: set<int>)
    requires Peeped(K, pool, pool', m, outUse, f, ones)
    ensures KeepsTests(pool, pool') && (LeavesEnd(pool) ==> LeavesEnd(pool')) && (AllNoOnes(pool) ==> ones == {})
  {
    hide TestsOwn, PlainTest, Thinned, NoOnes, Mild, PeepRight, RulesGive, LiveAt;
    forall b | b in ones ensures !AllNoOnes(pool) {
      assert BlockPeeped(K, pool, pool', outUse, f, ones, b);
    }
    forall b | 0 <= b < |pool|
      ensures (pool'[b].s.Jmp? <==> pool[b].s.Jmp?) && Thinned(pool[b].stmts, pool'[b].stmts)
      ensures pool[b].s.Jmp? ==>
        (TestsOwn(pool[b]) ==> TestsOwn(pool'[b])) && (PlainTest(pool[b]) ==> PlainTest(pool'[b]))
      ensures pool[b].s.Jmp? && Mild(pool[b]) ==> Mild(pool'[b])
      ensures pool[b].s.Ret? ==> pool'[b] == pool[b]
    {
      if b in m && pool[b].s.Jmp? {
        assert BlockPeeped(K, pool, pool', outUse, f, ones, b);
      } else {
        SameThins(pool[b].stmts);
      }
    }
  }

  lemma SameThins(ss: seq<Stmt>)
    ensures Thinned(ss, ss)
  {
  }

  /** Levels depend on branches only. */
  lemma LeveledAgain(pool: Pool, pool': Pool, level: seq<nat>, levels: seq<seq<int>>, m: set<int>, root: int)
    requires Leveled(pool, level, levels, m, root) && |pool'| == |pool| && LeavesEnd(pool')
    requires forall b | 0 <= b < |pool| ::
      pool'[b].s == pool[b].s && pool'[b].jt == pool[b].jt && pool'[b].jf == pool[b].jf
    ensures Leveled(pool', level, levels, m, root)
  {
    forall x | x in m ensures NodeLeveled(pool', level, m, x) {
      assert NodeLeveled(pool, level, m, x);
    }
  }

  /** What rewriting leaves as it is: branches and leaves; and it makes no mask
      of all ones of others. */
  lemma RewrittenShape(K: seq<Key>, pool: Pool, pool': Pool, m: set<int>, root: int, val: seq<Vals>, oval: seq<nat>,
      f: Found)
    requires NumbersFound(K, pool, pool', m, root, val, oval, f)
    ensures forall b | 0 <= b < |pool| ::
      pool'[b].s == pool[b].s && pool'[b].jt == pool[b].jt && pool'[b].jf == pool[b].jf
    ensures LeavesEnd(pool) ==> LeavesEnd(pool')
    ensures AllMild(pool) ==> AllNoOnes(pool')
  {
    hide Mild, NoOnes, Traced;
    forall b | 0 <= b < |pool|
      ensures pool'[b].s == pool[b].s && pool'[b].jt == pool[b].jt && pool'[b].jf == pool[b].jf
        && |pool'[b].stmts| == |pool[b].stmts|
      ensures Mild(pool[b]) ==> NoOnes(pool'[b])
    {
      if b in m {
        assert BlockFound(K, pool, pool', f, b);
        TracedMild(K, f.traces[b], pool[b], pool'[b]);
      } else {
        MildNoOnes(pool[b]);
      }
    }
  }

  lemma MildNoOnes(b: Block)
    ensures Mild(b) ==> NoOnes(b)
  {
  }

  /** A mask in X that is not all ones for some packet is not found to be. */
  lemma MaskFound(K: seq<Key>, vals: seq<Vals>, ss: seq<Stmt>, ts: seq<Stmt>, i: nat)
    requires Ordered(K) && Traced(K, vals, ss, ts) && i <= |ss| && OtherMask(ss, i)
    ensures ConstOf(K, vals[i][X_ATOM]) != Some(ALL_ONES)
  {
    var p, st :| ExecAll(ss[..i], p, st).Some? && ExecAll(ss[..i], p, st).value[X_ATOM] != ALL_ONES;
    TracedFront(K, vals, ss, ts, i);
    BlockLive(K, vals[..i + 1], ss[..i], ts[..i], {X_ATOM}, p, st);
    assert Right(K, vals[i], p, ExecAll(ss[..i], p, st).value, X_ATOM);
    if ConstOf(K, vals[i][X_ATOM]).Some? {
      var v := vals[i][X_ATOM];
      assert Fits(K[v - 1], v - 1);
      ConstDen(K, v, ConstOf(K, v).value, p);
    }
  }

  lemma TracedFront(K: seq<Key>, vals: seq<Vals>, ss: seq<Stmt>, ts: seq<Stmt>, i: nat)
    requires Ordered(K) && Traced(K, vals, ss, ts) && i <= |ss|
    ensures Traced(K, vals[..i + 1], ss[..i], ts[..i])
  {
    hide StepOk;
    var vs, us, ws := vals[..i + 1], ss[..i], ts[..i];
    forall k | 0 <= k < i ensures StepAt(K, vs, us, ws, k) {
      assert StepAt(K, vals, ss, ts, k);
    }
  }

  lemma TracedMild(K: seq<Key>, vals: seq<Vals>, b: Block, n: Block)
    requires Ordered(K) && Traced(K, vals, b.stmts, n.stmts) && n.s == b.s
    ensures |n.stmts| == |b.stmts| && (Mild(b) ==> NoOnes(n))
  {
    hide OtherMask;
    if Mild(b) {
      forall i | 0 <= i < |b.stmts| ensures n.stmts[i] != AluK(AND, ALL_ONES) {
        assert StepAt(K, vals, b.stmts, n.stmts, i);
        if b.stmts[i] == AluX(AND) {
          MaskFound(K, vals, b.stmts, n.stmts, i);
        }
      }
    }
  }

  /** What the peepholes go by, on the numbered graph. */
  lemma PeepReady(K: seq<Key>, orig: Pool, pool: Pool, level: seq<nat>, levels: seq<seq<int>>, m: set<int>, root: int,
      val: seq<Vals>, oval: seq<nat>, f: Found)
    requires Leveled(orig, level, levels, m, root) && NumbersFound(K, orig, pool, m, root, val, oval, f)
    ensures Ordered(K) && Leveled(pool, level, levels, m, root) && LeavesEnd(pool) && AllFound(K, orig, pool, m, f)
    ensures f.val == val && f.oval == oval && |pool| == |orig| && Covered(orig, m)
    ensures AllMild(orig) ==> AllNoOnes(pool)
  {
    hide AllFound, AllAgreed, AllMild, AllNoOnes;
    RewrittenShape(K, orig, pool, m, root, val, oval, f);
    LeveledAgain(orig, pool, level, levels, m, root);
    LeveledCovered(orig, level, levels, m, root);
  }

  /** The step of the peepholes. */
  ghost predicate PeepStep(s: Step, orig: Pool, pool: Pool, r: map<int, nat>, root: int, peeped: Pool, alter: bool) {
    && s.pool == orig && s.r == r && s.next == peeped && s.r' == r && s.how.Peeps? && s.how.alter == alter
    && Justified(s, root) && Refines(orig, r, peeped, r, root, [s]) && LeavesEnd(peeped) && KeepsTests(pool, peeped)
    && (AllMild(orig) ==> s.how.ones == {})
  }

  lemma IsPeepStep(K: seq<Key>, orig: Pool, pool: Pool, peeped: Pool, r: map<int, nat>, level: seq<nat>,
      levels: seq<seq<int>>, m: set<int>, root: int, f: Found, alter: bool, inUse: seq<AtomSet>, outUse: seq<AtomSet>,
      ones: set<int>)
      returns (s: Step)
    requires Ranked(GraphOf(orig), r) && Leveled(orig, level, levels, m, root) && AllTestOwn(orig)
    requires if alter then AllRewritten(K, orig, pool, f, m) else pool == orig
    requires NumbersFound(K, orig, pool, m, root, f.val, f.oval, f) && m == Reach(GraphOf(orig), r, root)
    requires LiveSets(pool, m, inUse, outUse) && Peeped(K, pool, peeped, m, outUse, f, ones)
    ensures PeepStep(s, orig, pool, r, root, peeped, alter)
  {
    hide AllTestOwn, LiveSets, AllFound, AllAgreed, AllRewritten, Peeped, KeepsTests, AllMild, AllNoOnes, Refines,
      Falls;
    PeepReady(K, orig, pool, level, levels, m, root, f.val, f.oval, f);
    OwnKnown(K, orig, pool, m, f);
    FoundRanked(K, orig, pool, r, m, f);
    PeepedRanked(K, pool, peeped, r, m, outUse, f, ones);
    PeepedKeeps(K, pool, peeped, m, outUse, f, ones);
    s := Step(orig, r, peeped, r, Peeps(alter, pool, K, f, m, inUse, outUse, ones));
    PeepedRefines(s, root);
  }

  /** The peepholes on a graph as it is numbered. */
  method PeepBlocks(ghost orig: Pool, pool: Pool, level: seq<nat>, levels: seq<seq<int>>, m: set<int>, root: int,
      ghost r: map<int, nat>, table: Table, val: seq<Vals>, ghost oval: seq<nat>, ghost f: Found, ghost alter: bool)
      returns (peeped: Pool, ghost s: Step)
    requires Ranked(GraphOf(orig), r) && Leveled(orig, level, levels, m, root) && AllTestOwn(orig)
    requires if alter then AllRewritten(table.keys, orig, pool, f, m) else pool == orig
    requires table.Valid() && NumbersFound(table.keys, orig, pool, m, root, val, oval, f)
      && m == Reach(GraphOf(orig), r, root)
    ensures PeepStep(s, orig, pool, r, root, peeped, alter)
  {
    hide *;
    PeepReady(table.keys, orig, pool, level, levels, m, root, val, oval, f);
    var u := new Usage(pool, level, levels);
    u.FindUd(root, m);
    LiveLengths(pool, m, u.inUse, u.outUse);
    var x := new Peeper(pool, level, levels, u.outUse, table, val);
    x.PeepAll(root, orig, m, f);
    peeped := x.pool;
    s := IsPeepStep(table.keys, orig, pool, peeped, r, level, levels, m, root, f, alter, u.inUse, u.outUse, x.ones);
  }

  lemma LiveLengths(pool: Pool, m: set<int>, inUse: seq<AtomSet>, outUse: seq<AtomSet>)
    requires LiveSets(pool, m, inUse, outUse)
    ensures |inUse| == |outUse| == |pool|
  {
  }

  /** The peepholes without rewriting, as in a round of the branch optimizer. */
  method PeepGraph(pool: Pool, root: int, ghost r: map<int, nat>, hash: Key -> nat)
      returns (peeped: Pool, ghost s: Step)
    requires Ranked(GraphOf(pool), r) && LeavesEnd(pool) && 0 <= root < |pool| && AllTestOwn(pool)
    ensures s.pool == pool && s.r == r && s.next == peeped && s.r' == r && s.how.Peeps? && !s.how.alter
    ensures Improves(pool, r, peeped, r, root, [s]) && KeepsTests(pool, peeped)
  {
    hide AllTestOwn, KeepsTests, AllMild, Refines, NumbersFound, Justified;
    var level, levels, m := Level(pool, root, r);
    var ok, same, table, val, oval;
    ghost var f, stop;
    ok, same, table, val, oval, f, stop := FindNumbers(pool, level, levels, m, root, r, hash, false);
    peeped, s := PeepBlocks(pool, pool, level, levels, m, root, r, table, val, oval, f, false);
    PeepsImprove(s, root);
  }

  // -------------------------------------------------------------- statements

  /** Rewriting alone: no packet that gets through sees a difference. */
  lemma RewrittenImproves(K: seq<Key>, pool: Pool, pool': Pool, r: map<int, nat>, level: seq<nat>,
      levels: seq<seq<int>>, m: set<int>, root: int, val: seq<Vals>, oval: seq<nat>, f: Found)
    requires Ranked(GraphOf(pool), r) && Leveled(pool, level, levels, m, root) && AllTestOwn(pool)
    requires NumbersFound(K, pool, pool', m, root, val, oval, f) && AllRewritten(K, pool, pool', f, m)
    requires m == Reach(GraphOf(pool), r, root)
    ensures Improves(pool, r, pool', r, root, Safely(pool, r, pool', r, Rewrites(K, f)))
  {
    hide AllTestOwn, AllFound, AllAgreed, AllRewritten, GraphKnown;
    OwnKnown(K, pool, pool', m, f);
    RewrittenShape(K, pool, pool', m, root, val, oval, f);
    Conclude(K, pool, pool', r, m, f, root, level, levels);
    SafeImproves(pool, r, pool', r, root, Rewrites(K, f));
  }

  /** The statements have been rewritten, and in a round that need not be safe the
      peepholes applied to what they have become. */
  ghost predicate RewriteStep(s: Step, safe: bool) {
    if safe then s.how.Safe? && s.how.work.Rewrites? else s.how.Peeps? && s.how.alter
  }

  /** opt_blks with changes to statements, and the peepholes unless it is to be
      safe. It fails exactly where it comes to a division of a constant by the
      constant 0. */
  method RewriteGraph(pool: Pool, root: int, ghost r: map<int, nat>, hash: Key -> nat, safe: bool)
      returns (ok: bool, rewritten: Pool, ghost s: Step, ghost stop: Stop)
    requires Ranked(GraphOf(pool), r) && LeavesEnd(pool) && 0 <= root < |pool| && AllTestOwn(pool)
    ensures !ok ==> AnyDivision(pool)
    ensures !ok ==> Stops(stop, pool, Reach(GraphOf(pool), r, root))
    ensures s.pool == pool && s.r == r && s.next == rewritten && s.r' == r
    ensures ok ==> RewriteStep(s, safe) && Improves(pool, r, rewritten, r, root, [s])
  {
    hide AllTestOwn, KeepsTests, AllMild, Refines, NumbersFound, AllRewritten, Justified, Improves, Stops;
    var level, levels, m := Level(pool, root, r);
    var numbered, table, val, oval;
    ghost var f;
    ok, numbered, table, val, oval, f, stop := FindNumbers(pool, level, levels, m, root, r, hash, true);
    rewritten := numbered;
    s := Step(pool, r, rewritten, r, Safe(Rewrites(table.keys, f)));
    if ok && safe {
      RewrittenImproves(table.keys, pool, rewritten, r, level, levels, m, root, val, oval, f);
    } else if ok {
      rewritten, s := PeepBlocks(pool, numbered, level, levels, m, root, r, table, val, oval, f, true);
      PeepsImprove(s, root);
    }
  }

  // ------------------------------------------------------------- dead stores

  lemma {:induction false} MasksLive(ss: seq<Stmt>)
    requires forall i | 0 <= i < |ss| :: Masks(ss[i])
    ensures A_ATOM in LiveAt(ss, {A_ATOM})
  {
    if ss != [] {
      MasksLive(ss[1..]);
    }
  }

  /** A plain test that still loads what it tests has kept its load. */
  lemma StaysPlain(b: Block, n: Block)
    requires PlainTest(b) && Thinned(b.stmts, n.stmts) && n.s == b.s && TestsOwn(n)
    ensures PlainTest(n)
  {
    if n.stmts[0] == Nop {
      MasksLive(n.stmts);
    }
  }

  lemma {:induction false} StripFront(ss: seq<Stmt>, end: set<int>, i: nat)
    requires i <= |ss|
    ensures Strip(ss, end)[..i] == Strip(ss[..i], LiveAt(ss[i..], end))
  {
    hide AtomUse, AtomDef, Atoms;
    if i > 0 {
      StripFront(ss[1..], end, i - 1);
      assert ss[1..][..i - 1] == ss[..i][1..] && ss[1..][i - 1..] == ss[i..];
      assert ss[..i][1..] + ss[i..] == ss[1..];
      LiveAtConcat(ss[..i][1..], ss[i..], end);
      assert Strip(ss, end)[..i] == [Strip(ss, end)[0]] + Strip(ss[1..], end)[..i - 1];
    }
  }

  /** A mask that is kept is set as before. */
  lemma StripMask(ss: seq<Stmt>, end: set<int>, i: nat)
    requires i < |ss| && Strip(ss, end)[i] == AluX(AND) && OtherMask(ss, i)
    ensures OtherMask(Strip(ss, end), i)
  {
    var E := LiveAt(ss[i..], end);
    StripAt(ss, end, i);
    assert ss[i] == AluX(AND) && ss[i..][0] == ss[i] && X_ATOM in E;
    StripFront(ss, end, i);
    StripLive(ss[..i], E, {X_ATOM});
    var p, st :| ExecAll(ss[..i], p, st).Some? && ExecAll(ss[..i], p, st).value[X_ATOM] != ALL_ONES;
    StripKeeps(ss[..i], E, p, st, st);
  }

  lemma StripMild(b: Block, n: Block, end: set<int>)
    requires Mild(b) && n.s == b.s && n.stmts == Strip(b.stmts, end)
    ensures Mild(n)
  {
    hide OtherMask;
    forall i | 0 <= i < |b.stmts|
      ensures n.stmts[i] != AluK(AND, ALL_ONES) && (n.stmts[i] == AluX(AND) ==> OtherMask(n.stmts, i))
    {
      StripAt(b.stmts, end, i);
      if n.stmts[i] == AluX(AND) {
        StripMask(b.stmts, end, i);
      }
    }
  }

  lemma StrippedOne(b: Block, n: Block, outUse: AtomSet)
    requires n.s == b.s && n.stmts == Strip(b.stmts, End(b, outUse))
    ensures Thinned(b.stmts, n.stmts) && (TestsOwn(b) ==> TestsOwn(n)) && (Mild(b) ==> Mild(n))
    ensures TestsOwn(b) && PlainTest(b) ==> PlainTest(n)
  {
    if Mild(b) {
      StripMild(b, n, End(b, outUse));
    }
    hide Mild;
    StripThins(b.stmts, End(b, outUse));
    StripLive(b.stmts, End(b, outUse), Atoms(BranchUse(b.s)));
    if TestsOwn(b) && PlainTest(b) {
      StaysPlain(b, n);
    }
  }

  lemma StrippedKeeps(pool: Pool, pool': Pool, m: set<int>, outUse: seq<AtomSet>)
    requires Stripped(pool, pool', m, outUse) && LeavesEnd(pool)
    ensures KeepsTests(pool, pool') && LeavesEnd(pool')
  {
    hide TestsOwn, PlainTest, Mild, Thinned;
    forall b | 0 <= b < |pool|
      ensures (pool'[b].s.Jmp? <==> pool[b].s.Jmp?) && Thinned(pool[b].stmts, pool'[b].stmts)
      ensures pool[b].s.Jmp? ==> (TestsOwn(pool[b]) ==> TestsOwn(pool'[b])) && (Mild(pool[b]) ==> Mild(pool'[b]))
      ensures pool[b].s.Jmp? && TestsOwn(pool[b]) && PlainTest(pool[b]) ==> PlainTest(pool'[b])
      ensures pool[b].s.Ret? ==> pool'[b].stmts == [] && pool'[b].jt == pool[b].jt && pool'[b].jf == pool[b].jf
    {
      if b in m && pool[b].s.Jmp? {
        StrippedOne(pool[b], pool'[b], outUse[b]);
      } else {
        SameThins(pool[b].stmts);
      }
    }
  }

  /** find_ud, and then the dead stores of every block: they go, and nothing else. */
  method StripGraph(pool: Pool, root: int, ghost r: map<int, nat>) returns (pool': Pool, ghost w: Work)
    requires Ranked(GraphOf(pool), r) && LeavesEnd(pool) && 0 <= root < |pool|
    ensures w.Strips? && Improves(pool, r, pool', r, root, Safely(pool, r, pool', r, w)) && KeepsTests(pool, pool')
    ensures DeadGone(pool, pool', Reach(GraphOf(pool), r, root), w.outUse)
  {
    hide LiveSets, DeadGone, Improves, KeepsTests;
    var level, levels, m := Level(pool, root, r);
    var u := new Usage(pool, level, levels);
    u.FindUd(root, m);
    var c := new Cleaner(pool, level, levels, u.outUse);
    c.StripAll(root, r, m, u.inUse);
    pool' := c.pool;
    w := Strips(u.inUse, u.outUse);
    StrippedKeeps(pool, pool', m, u.outUse);
    StrippedGone(pool, pool', m, u.outUse);
    SafeImproves(pool, r, pool', r, root, w);
  }

  // ---------------------------------------------------------------- pull-ups

  lemma {:induction false} MasksPass(ss: seq<Stmt>, p: Packet, st: State)
    requires forall i | 0 <= i < |ss| :: Masks(ss[i])
    ensures ExecAll(ss, p, st).Some?
  {
    if ss != [] {
      MasksPass(ss[1..], p, Exec(ss[0], p, st).value);
    }
  }

  /** A plain test rejects what its load rejects. */
  lemma PlainFaults(b: Block, p: Packet)
    requires PlainTest(b)
    ensures Faults(b, p) <==> Exec(b.stmts[0], p, Zero()).None?
  {
    if Exec(b.stmts[0], p, Zero()).Some? {
      MasksPass(b.stmts[1..], p, Exec(b.stmts[0], p, Zero()).value);
    }
  }

  /** The numbers that the accumulator has in a plain test denote a value for
      the packets that its load does not reject. */
  lemma {:induction false} PlainNumber(K: seq<Key>, vals: seq<Vals>, b: Block, i: nat, p: Packet)
    requires Ordered(K) && PlainTest(b) && Traced(K, vals, b.stmts, b.stmts) && 0 < i <= |b.stmts|
    ensures Den(K, vals[i][A_ATOM], p).Some? <==> Exec(b.stmts[0], p, Zero()).Some?
  {
    assert StepAt(K, vals, b.stmts, b.stmts, i - 1);
    var s, v := b.stmts[i - 1], vals[i][A_ATOM];
    if i > 1 {
      PlainNumber(K, vals, b, i - 1, p);
    }
    if !s.Nop? {
      assert Named(K, vals[i - 1], s, v) && Fits(K[v - 1], v - 1);
      if s.AluK? {
        ConstDen(K, K[v - 1].v1.n, s.k, p);
      }
    }
  }

  /** So plain tests that leave the same number reject the same packets. */
  lemma PlainAlike(K: seq<Key>, pool: Pool, m: set<int>, root: int, f: Found, accNo: seq<int>)
    requires NumbersFound(K, pool, pool, m, root, f.val, f.oval, f) && AllPlain(pool) && AccNumbers(pool, m, f, accNo)
    ensures LoadAlike(pool, m, accNo)
  {
    hide PlainTest, Traced, Den, Faults, Exec;
    forall b, p | b in m && 0 <= b < |pool| && pool[b].s.Jmp?
      ensures |f.val[b]| == N_ATOMS && (Faults(pool[b], p) <==> Den(K, f.val[b][A_ATOM], p).None?)
    {
      PlainFound(K, pool, f, b, p);
    }
  }

  lemma PlainFound(K: seq<Key>, pool: Pool, f: Found, b: int, p: Packet)
    requires Ordered(K) && BlockFound(K, pool, pool, f, b) && PlainTest(pool[b])
    ensures |f.val[b]| == N_ATOMS && (Faults(pool[b], p) <==> Den(K, f.val[b][A_ATOM], p).None?)
  {
    PlainFaults(pool[b], p);
    PlainNumber(K, f.traces[b], pool[b], |pool[b].stmts|, p);
  }

  /** Everything that pull-ups go by, from the graph itself. */
  method NewPuller(pool: Pool, root: int, ghost r: map<int, nat>, hash: Key -> nat)
      returns (x: Puller, m: set<int>, ghost K: seq<Key>, ghost f: Found)
    requires Ranked(GraphOf(pool), r) && LeavesEnd(pool) && 0 <= root < |pool|
    ensures fresh(x) && x.Valid() && x.pool == pool && x.root == root && x.r == r
      && x.m == m == Reach(GraphOf(pool), r, root)
    ensures PullBasis(pool, m, root, K, f, x.dom, x.accNo)
  {
    var level, levels;
    level, levels, m := Level(pool, root, r);
    var d := new Dominator(pool, level, levels);
    d.FindDom(root, m);
    var inEdges := FindInEdges(pool, level, levels, root, m);
    var ok, same, table, val, oval;
    ghost var stop;
    ok, same, table, val, oval, f, stop := FindNumbers(pool, level, levels, m, root, r, hash, false);
    K := table.keys;
    var accNo: seq<int> := seq(|val|, b requires 0 <= b < |val| => if |val[b]| == N_ATOMS then val[b][A_ATOM] else 0);
    x := new Puller(pool, level, levels, d.dom, inEdges, accNo, root, r, m);
    forall b | b in m ensures 0 <= b < |pool| && |f.val[b]| == N_ATOMS {
      assert BlockFound(K, pool, pool, f, b);
    }
  }

  method PullAt(x: Puller, b: int, side: bool) returns (ghost xs: seq<int>, ghost us: seq<int>)
    requires x.Valid() && b in x.m && 0 <= b < |x.pool| && x.pool[b].s.Jmp? && LeavesEnd(x.pool)
    modifies x`pool, x`done
    ensures xs == [] ==> x.pool == old(x.pool) && NotPullable(x.pool, x.m, x.dom, x.accNo, b, side)
    ensures xs != [] ==> PulledUp(old(x.pool), x.pool, x.r, x.root, x.m, x.accNo, side, xs) && LeavesEnd(x.pool)
    ensures xs != [] ==>
      |us| >= |xs| && us[|us| - |xs|..] == xs
      && Pullable(old(x.pool), x.m, x.dom, x.accNo, b, side, us, |us| - |xs|)
  {
    hide Leveled, LeavesKept, LeavesEnd, PulledUp, Pullable, NotPullable;
    ghost var was := x.pool;
    xs, us := x.Pullup(b, side);
    if xs != [] {
      PulledTests(was, x.pool, x.r, x.root, x.m, x.accNo, side, xs);
      LeavesStay(was, x.pool);
    }
  }

  lemma PulledTests(pool: Pool, pool': Pool, r: map<int, nat>, root: int, m: set<int>, accNo: seq<int>, side: bool,
      xs: seq<int>)
    requires PulledUp(pool, pool', r, root, m, accNo, side, xs)
    ensures SameTests(pool, pool')
  {
    hide SameTests, OnlyChain, Chain;
  }

  /** or_pullup (side false) or and_pullup at block b. It leaves the graph alone
      exactly if the analyses find no test to pull; otherwise a packet that gets
      through sees no difference if and only if it does not come to the chain, or
      stays on it up to the pulled test, or is not rejected by that. */
  method PullGraph(pool: Pool, root: int, ghost r: map<int, nat>, hash: Key -> nat, b: int, side: bool)
      returns (pulled: Pool, ghost s: Step)
    requires Ranked(GraphOf(pool), r) && LeavesEnd(pool) && 0 <= root < |pool| && AllTestOwn(pool)
    ensures SameTests(pool, pulled) && Ranked(GraphOf(pulled), s.r') && Tries(s, b, side)
    ensures s.pool == pool && s.r == r && s.next == pulled && Improves(pool, r, pulled, s.r', root, [s])
    ensures forall p, st | Run(GraphOf(pool), r, root, p, st).Some? ::
      Run(GraphOf(pulled), s.r', root, p, st) == Run(GraphOf(pool), r, root, p, st) <==> !HitsAny([s], root, p, st)
  {
    hide AllTestOwn, Improves, PullBasis, PulledUp, Pullable, NotPullable, Leveled, Falls, HitsAny;
    var x, m;
    ghost var K, f, xs, us;
    x, m, K, f := NewPuller(pool, root, r, hash);
    pulled, xs := pool, [];
    if b in m && pool[b].s.Jmp? {
      xs, us := PullAt(x, b, side);
      pulled := x.pool;
    }
    if xs == [] {
      s := StayStep(pool, r, root, m, K, f, x.dom, x.accNo, b, side);
    } else {
      s := PullImproves(K, pool, pulled, r, root, m, f, x.dom, x.accNo, b, side, us, xs);
    }
  }

  lemma StayStep(pool: Pool, r: map<int, nat>, root: int, m: set<int>, K: seq<Key>, f: Found, dom: seq<set<int>>,
      accNo: seq<int>, b: int, side: bool)
      returns (s: Step)
    requires Ranked(GraphOf(pool), r) && LeavesEnd(pool) && 0 <= root < |pool| && m == Reach(GraphOf(pool), r, root)
    requires PullBasis(pool, m, root, K, f, dom, accNo)
    requires b in m && 0 <= b < |pool| && pool[b].s.Jmp? ==> NotPullable(pool, m, dom, accNo, b, side)
    ensures s.pool == pool && s.r == s.r' == r && s.next == pool && Tries(s, b, side) && SameTests(pool, pool)
    ensures Improves(pool, r, pool, r, root, [s]) && forall p, st :: !HitsAny([s], root, p, st)
  {
    hide PullBasis, NotPullable, Improves;
    s := Step(pool, r, pool, r, Safe(Stays(K, f, dom, accNo, b, side)));
    SafeImproves(pool, r, pool, r, root, s.how.work);
    SafeHarmless([s], root);
  }

  lemma AllContained(pool: Pool)
    requires AllTestOwn(pool)
    ensures AllSelfContained(pool)
  {
    forall b | 0 <= b < |pool| ensures SelfContained(pool[b]) {
      if pool[b].s.Jmp? {
        OwnContained(pool[b]);
      }
    }
  }

  lemma OwnSame(pool: Pool, pool': Pool)
    requires SameTests(pool, pool') && AllTestOwn(pool)
    ensures AllTestOwn(pool')
  {
    hide LiveAt;
  }

  /** A pull on runs of the machine. */
  lemma PulledRuns(s: Step, root: int)
    requires Justified(s, root) && s.how.Pull? && AllTestOwn(s.pool)
    ensures SameTests(s.pool, s.next)
    ensures forall p, st | Run(GraphOf(s.pool), s.r, root, p, st).Some? ::
      Run(GraphOf(s.next), s.r', root, p, st) == Run(GraphOf(s.pool), s.r, root, p, st) <==> !Hits(s, root, p, st)
  {
    hide OnlyChain, Chain, PullBasis, Pullable, SameIn, PulledRank, Spoils, TestsOwn, LiveAt;
    OwnSame(s.pool, s.next);
    AllContained(s.pool);
    AllContained(s.next);
    hide AllSelfContained, AllTestOwn, SameTests;
    forall p, st | Run(GraphOf(s.pool), s.r, root, p, st).Some?
      ensures Run(GraphOf(s.next), s.r', root, p, st) == Run(GraphOf(s.pool), s.r, root, p, st) <==>
              !Hits(s, root, p, st)
    {
      GoRun(s.pool, s.r, root, p, st);
      GoRun(s.next, s.r', root, p, st);
    }
  }

  lemma HitsOne(s: Step, root: int, p: Packet, st: State)
    ensures HitsAny([s], root, p, st) <==> Hits(s, root, p, st)
  {
    hide Hits;
    assert [s][0] == s;
  }

  lemma PullRefines(s: Step, root: int)
    requires Justified(s, root) && s.how.Pull? && AllTestOwn(s.pool)
    ensures SameTests(s.pool, s.next) && Refines(s.pool, s.r, s.next, s.r', root, [s])
    ensures forall p, st | Run(GraphOf(s.pool), s.r, root, p, st).Some? ::
      Run(GraphOf(s.next), s.r', root, p, st) == Run(GraphOf(s.pool), s.r, root, p, st) <==> !HitsAny([s], root, p, st)
  {
    PulledRuns(s, root);
    assert Ranked(GraphOf(s.pool), s.r) && Ranked(GraphOf(s.next), s.r') && 0 <= root < |s.pool| == |s.next|;
    hide Justified, Hits, HitsAny, SameTests, AllTestOwn, Ranked;
    forall p, st ensures HitsAny([s], root, p, st) <==> Hits(s, root, p, st) {
      HitsOne(s, root, p, st);
    }
  }

  /** What a pull-up has to do with the numbers of the accumulator. */
  lemma PullNumbers(s: Step, root: int)
    requires Justified(s, root) && s.how.Pull?
    ensures var h := s.how;
      && Ranked(GraphOf(s.pool), s.r) && 0 <= root < |s.pool| && h.m == Reach(GraphOf(s.pool), s.r, root)
      && NumbersFound(h.K, s.pool, s.pool, h.m, root, h.f.val, h.f.oval, h.f) && AccNumbers(s.pool, h.m, h.f, h.accNo)
      && |h.xs| >= 2 && AllTests(s.pool, h.xs) && h.xs[|h.xs| - 1] in h.m && h.xs[0] != root
      && |h.accNo| == |s.pool| && SameIn(s.pool, h.m, h.accNo, h.xs)
  {
    hide NumbersFound, AccNumbers, SameIn, Chain, Pulled, Spoils, Go, PulledRank, Pullable, Visits, Ranked;
  }

  lemma PlainMisses(s: Step, root: int, p: Packet, st: State)
    requires Justified(s, root) && s.how.Pull? && AllPlain(s.pool)
    ensures !HitsAny([s], root, p, st)
  {
    var h := s.how;
    PullNumbers(s, root);
    hide Justified, AllPlain, NumbersFound, AccNumbers, LoadAlike, SameIn, HitsAny, Spoils;
    PlainAlike(h.K, s.pool, h.m, root, h.f, h.accNo);
    PullSafe(s.pool, s.r, root, h.m, h.accNo, h.side, h.xs, p);
    HitsOne(s, root, p, st);
  }

  lemma PlainPullHarmless(s: Step, root: int)
    requires Justified(s, root) && s.how.Pull? && AllPlain(s.pool)
    ensures Harmless([s], root)
  {
    hide Justified, AllPlain, HitsAny;
    forall p, st ensures !HitsAny([s], root, p, st) {
      PlainMisses(s, root, p, st);
    }
  }

  lemma PulledRanks(pool: Pool, pool': Pool, r: map<int, nat>, root: int, m: set<int>, accNo: seq<int>, side: bool,
      xs: seq<int>)
    requires PulledUp(pool, pool', r, root, m, accNo, side, xs)
    ensures |xs| >= 2 && xs[0] in r && (forall x | 0 <= x < |pool| :: x in r) && |pool'| == |pool|
    ensures Ranked(GraphOf(pool'), PulledRank(pool, r, m, xs))
  {
    hide SameIn, PulledRank, Go, Spoils;
  }

  lemma PullStep(K: seq<Key>, pool: Pool, pool': Pool, r: map<int, nat>, root: int, m: set<int>, f: Found,
      dom: seq<set<int>>, accNo: seq<int>, b: int, side: bool, us: seq<int>, xs: seq<int>)
      returns (s: Step)
    requires Ranked(GraphOf(pool), r) && 0 <= root < |pool| && m == Reach(GraphOf(pool), r, root) && b in m
    requires PulledUp(pool, pool', r, root, m, accNo, side, xs) && PullBasis(pool, m, root, K, f, dom, accNo)
    requires |us| >= |xs| && us[|us| - |xs|..] == xs && Pullable(pool, m, dom, accNo, b, side, us, |us| - |xs|)
    ensures s.pool == pool && s.r == r && s.next == pool' && s.how.Pull? && Tries(s, b, side)
    ensures Justified(s, root) && Ranked(GraphOf(pool'), s.r')
  {
    hide PullBasis, PulledUp, Pullable, Ranked;
    PulledRanks(pool, pool', r, root, m, accNo, side, xs);
    s := Step(pool, r, pool', PulledRank(pool, r, m, xs), Pull(K, f, m, dom, accNo, b, side, us, xs));
    hide PulledRank;
  }

  lemma PullImproves(K: seq<Key>, pool: Pool, pool': Pool, r: map<int, nat>, root: int, m: set<int>, f: Found,
      dom: seq<set<int>>, accNo: seq<int>, b: int, side: bool, us: seq<int>, xs: seq<int>)
      returns (s: Step)
    requires Ranked(GraphOf(pool), r) && 0 <= root < |pool| && m == Reach(GraphOf(pool), r, root) && AllTestOwn(pool)
    requires PulledUp(pool, pool', r, root, m, accNo, side, xs) && LeavesEnd(pool') && b in m
    requires PullBasis(pool, m, root, K, f, dom, accNo)
    requires |us| >= |xs| && us[|us| - |xs|..] == xs && Pullable(pool, m, dom, accNo, b, side, us, |us| - |xs|)
    ensures s.pool == pool && s.r == r && s.next == pool' && Tries(s, b, side)
    ensures SameTests(pool, pool') && Ranked(GraphOf(pool'), s.r') && Improves(pool, r, pool', s.r', root, [s])
    ensures forall p, st | Run(GraphOf(pool), r, root, p, st).Some? ::
      Run(GraphOf(pool'), s.r', root, p, st) == Run(GraphOf(pool), r, root, p, st) <==> !HitsAny([s], root, p, st)
  {
    s := PullStep(K, pool, pool', r, root, m, f, dom, accNo, b, side, us, xs);
    hide Justified, AllTestOwn, AllMild, HitsAny, LeadsOn, LeavesEnd, PullBasis, PulledUp, Pullable, SameTests;
    PullRefines(s, root);
    PullHits(s, root);
    LeadsOne(s, root);
    if AllPlain(pool) {
      PlainPullHarmless(s, root);
    }
  }
}
