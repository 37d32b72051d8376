/** Jump threading: an edge skips a test whose outcome an edge that dominates
    it has settled. */
module Threading {
  import opened Bpf
  import opened Flow
  import opened Blocks
  import opened Levels
  import opened Dominators
  import opened Decisions

  /** The value numbers of a block: of each atom and of the operand of the
      branch; and the atoms that are used after the block. */
  datatype Values = Values(val: seq<nat>, oval: nat, outUse: set<int>)

  /** The same branch opcode. */
  predicate SameCode(a: Cond, b: Cond) {
    a.test == b.test && a.JmpK? == b.JmpK?
  }

  // ------------------------------------- what value numbers are relied on for

  /** Equal numbers stand for equal values, and a constant has one number. */
  ghost predicate AgreeOn(a: Block, va: Values, b: Block, vb: Values, p: Packet) {
    a.s.Jmp? && b.s.Jmp? && !Faults(a, p) && !Faults(b, p) && |va.val| == |vb.val| == N_ATOMS ==>
      && (va.val[A_ATOM] == vb.val[A_ATOM] ==> Acc(a, p) == Acc(b, p))
      && (SameCode(a.s.cond, b.s.cond) && va.oval == vb.oval ==> Operand(a, p) == Operand(b, p))
      && (a.s.cond.JmpK? && b.s.cond.JmpK? && a.s.cond.k == b.s.cond.k ==> va.oval == vb.oval)
  }

  ghost predicate Numbered(pool: Pool, m: set<int>, vals: seq<Values>) {
    && |vals| == |pool| && (forall b | 0 <= b < |pool| :: |vals[b].val| == N_ATOMS)
      && (forall b | b in m :: 0 <= b < |pool|)
    && forall a, b, p {:trigger AgreeOn(pool[a], vals[a], pool[b], vals[b], p)} | a in m && b in m ::
         AgreeOn(pool[a], vals[a], pool[b], vals[b], p)
  }

  // --------------------------------------------------------- a single step

  /** p leaves the block of edge e by edge e. */
  predicate Takes(pool: Pool, e: int, p: Packet)
    requires 0 <= e < 2 * |pool|
  {
    var b := pool[PredOf(pool, e)];
    b.s.Jmp? && !Faults(b, p) && Decide(b, p) == OnTrue(pool, e)
  }

  /** The branch of the block child, given that the edge e has been taken;
      NULL if that does not settle it. */
  function FoldEdge(pool: Pool, vals: seq<Values>, child: int, e: int): int
    requires |vals| == |pool| && 0 <= child < |pool| && 0 <= e < 2 * |pool|
    requires forall b | 0 <= b < |pool| :: |vals[b].val| == N_ATOMS
  {
    var pred := PredOf(pool, e);
    if pool[child].s.Ret? || pool[pred].s.Ret? || !SameCode(pool[child].s.cond, pool[pred].s.cond) then NULL
    else if vals[child].val[A_ATOM] != vals[pred].val[A_ATOM] then NULL
    else if vals[child].oval == vals[pred].oval then Succ(pool[child], OnTrue(pool, e))
    else if OnTrue(pool, e) && pool[child].s.cond.JmpK? && pool[child].s.cond.test == JEQ then pool[child].jf
    else NULL
  }

  /** What FoldEdge finds is the way the packet goes at child. */
  lemma FoldEdgeRight(pool: Pool, m: set<int>, vals: seq<Values>, child: int, e: int, p: Packet)
    requires Numbered(pool, m, vals) && child in m && 0 <= e < 2 * |pool| && PredOf(pool, e) in m
    requires FoldEdge(pool, vals, child, e) != NULL && Takes(pool, e, p) && !Faults(pool[child], p)
    ensures FoldEdge(pool, vals, child, e) == Succ(pool[child], Decide(pool[child], p))
  {
    var pred := PredOf(pool, e);
    assert AgreeOn(pool[child], vals[child], pool[pred], vals[pred], p);
  }

  /** To go from block b straight to succ would lose an exit value: an atom that
      is used after succ has another number there. */
  ghost predicate Loses(vals: seq<Values>, b: int, succ: int) {
    && 0 <= b < |vals| && 0 <= succ < |vals| && |vals[b].val| == |vals[succ].val| == N_ATOMS
    && exists atom :: 0 <= atom < N_ATOMS && atom in vals[succ].outUse && vals[b].val[atom] != vals[succ].val[atom]
  }

  /** The blocks of c and of edge k have the same opcode and the same number in
      the accumulator. */
  ghost predicate SameQuestion(pool: Pool, vals: seq<Values>, c: int, k: int) {
    && 0 <= k < 2 * |pool| && 0 <= c < |pool| == |vals|
    && var p := PredOf(pool, k);
      && pool[c].s.Jmp? && pool[p].s.Jmp? && |vals[c].val| == |vals[p].val| == N_ATOMS
      && pool[c].s.cond.test == pool[p].s.cond.test && (pool[c].s.cond.JmpK? <==> pool[p].s.cond.JmpK?)
      && vals[c].val[A_ATOM] == vals[p].val[A_ATOM]
  }

  /** Edge k, a dominator of an edge from block b to the test c, gives no reason to
      move that edge, or a move would lose an exit value: if both test the same
      value against the same operand, the one of k goes the same way; if they test
      it for equality with different constants and k is a true branch, the test of
      c fails. */
  ghost predicate NoReason(pool: Pool, vals: seq<Values>, b: int, c: int, k: int) {
    SameQuestion(pool, vals, c, k) ==>
      var p := PredOf(pool, k);
      && (vals[c].oval == vals[p].oval ==> Loses(vals, b, if k < |pool| then pool[c].jt else pool[c].jf))
      && (vals[c].oval != vals[p].oval && k < |pool| && pool[c].s.cond.JmpK? && pool[c].s.cond.test == JEQ ==>
            Loses(vals, b, pool[c].jf))
  }

  /** The edge numbered e leads to a leaf, or to a test that no dominator settles,
      or only if an exit value is lost. */
  ghost predicate Threaded(pool: Pool, vals: seq<Values>, edom: seq<set<int>>, e: int) {
    && 0 <= e < 2 * |pool| == |edom| && 0 <= SuccOf(pool, e) < |pool|
    && (pool[SuccOf(pool, e)].s.Jmp? ==>
          forall k | 0 <= k < 2 * |pool| && k in edom[e] :: NoReason(pool, vals, PredOf(pool, e), SuccOf(pool, e), k))
  }

  /** The edge numbered e leads to a test both of whose branches go the same way,
      and no exit value is lost if it is moved on. */
  ghost predicate CouldSkip(pool: Pool, vals: seq<Values>, e: int) {
    && 0 <= e < 2 * |pool| && 0 <= SuccOf(pool, e) < |pool|
    && var c := pool[SuccOf(pool, e)];
       c.s.Jmp? && c.jt == c.jf && !Loses(vals, PredOf(pool, e), c.jt)
  }

  /** The edge numbered e, if it led to a test whose branches have come to go the
      same way, has been moved on, unless an exit value would be lost. */
  ghost predicate Skipped(orig: Pool, pool: Pool, vals: seq<Values>, e: int) {
    && 0 <= e < 2 * |orig| && |pool| == |orig| && 0 <= SuccOf(orig, e) < |pool|
    && var c := pool[SuccOf(orig, e)];
       c.s.Jmp? && c.jt == c.jf && !Loses(vals, PredOf(orig, e), c.jt) ==> SuccOf(pool, e) != SuccOf(orig, e)
  }

  /** No more can be done for it. */
  ghost predicate Exhausted(orig: Pool, pool: Pool, vals: seq<Values>, edom: seq<set<int>>, e: int) {
    Threaded(pool, vals, edom, e) && Skipped(orig, pool, vals, e)
  }

  lemma FoldWays(pool: Pool, vals: seq<Values>, c: int, k: int)
    requires |vals| == |pool| && 0 <= c < |pool| && 0 <= k < 2 * |pool|
    requires forall x | 0 <= x < |pool| :: |vals[x].val| == N_ATOMS
    ensures var t := FoldEdge(pool, vals, c, k);
      t != NULL ==> pool[c].s.Jmp? && (t == pool[c].jt || t == pool[c].jf)
  {
  }

  /** Where no answer is found, or none that loses nothing, there is no reason to
      move. */
  lemma FoldNoReason(pool: Pool, vals: seq<Values>, b: int, c: int, k: int)
    requires |vals| == |pool| && 0 <= c < |pool| && 0 <= k < 2 * |pool|
    requires forall x | 0 <= x < |pool| :: |vals[x].val| == N_ATOMS
    requires pool[c].s.Jmp? ==> pool[c].jt != NULL && pool[c].jf != NULL
    requires FoldEdge(pool, vals, c, k) != NULL ==> Loses(vals, b, FoldEdge(pool, vals, c, k))
    ensures NoReason(pool, vals, b, c, k)
  {
    hide Loses;
  }

  /** Edge e now leads to t. */
  function WithSucc(pool: Pool, e: int, t: int): (pool': Pool)
    requires 0 <= e < 2 * |pool|
  {
    var b := PredOf(pool, e);
    pool[b := if OnTrue(pool, e) then pool[b].(jt := t) else pool[b].(jf := t)]
  }

  lemma MovedRanked(pool: Pool, r: map<int, nat>, e: int, t: int)
    requires Ranked(GraphOf(pool), r) && 0 <= e < 2 * |pool| && pool[PredOf(pool, e)].s.Jmp?
    requires 0 <= t < |pool| && r[t] < r[PredOf(pool, e)]
    ensures Ranked(GraphOf(WithSucc(pool, e, t)), r)
  {
    var g, g' := GraphOf(pool), GraphOf(WithSucc(pool, e, t));
    forall b | b in g' ensures Falls(g', r, b) {
      assert Falls(g, r, b);
      assert b != PredOf(pool, e) ==> g'[b] == g[b];
    }
  }

  /** An edge may skip the block that it leads to, to the branch t which every
      packet takes there that comes along the edge. */
  lemma SkipKeeps(pool: Pool, r: map<int, nat>, root: int, e: int, t: int, p: Packet)
    requires Ranked(GraphOf(pool), r) && 0 <= root < |pool| && 0 <= e < 2 * |pool| && pool[PredOf(pool, e)].s.Jmp?
    requires 0 <= SuccOf(pool, e) < |pool| && pool[SuccOf(pool, e)].s.Jmp?
    requires 0 <= t < |pool| && r[t] < r[PredOf(pool, e)] && Ranked(GraphOf(WithSucc(pool, e, t)), r)
    requires Go(pool, r, root, p).Some?
    requires PredOf(pool, e) in Visits(pool, r, root, p) && Takes(pool, e, p) && !Faults(pool[SuccOf(pool, e)], p) ==>
      var c := pool[SuccOf(pool, e)]; t == Succ(c, Decide(c, p))
    ensures Go(WithSucc(pool, e, t), r, root, p) == Go(pool, r, root, p)
  {
    var pool', b := WithSucc(pool, e, t), PredOf(pool, e);
    assert Falls(GraphOf(pool), r, b) && Falls(GraphOf(pool'), r, b);
    assert GraphOf(pool)[b] == NodeOf(pool[b]) && GraphOf(pool')[b] == NodeOf(pool'[b]);
    if b in Visits(pool, r, root, p) && !Faults(pool[b], p) {
      VisitsSafe(pool, r, root, p, b);
      assert Go(pool, r, b, p) == Go(pool, r, Succ(pool[b], Decide(pool[b], p)), p);
    }
    GoMoved(pool, pool', r, b, root, p);
  }

  /** Every packet that comes along e takes branch t of the block it leads to. */
  ghost predicate Settles(pool: Pool, r: map<int, nat>, root: int, e: int, t: int)
    requires Ranked(GraphOf(pool), r) && 0 <= root < |pool| && 0 <= e < 2 * |pool|
  {
    var c := SuccOf(pool, e);
    && 0 <= c < |pool| && pool[c].s.Jmp?
    && forall p | PredOf(pool, e) in Visits(pool, r, root, p) && Takes(pool, e, p) && !Faults(pool[c], p) ::
         t == Succ(pool[c], Decide(pool[c], p))
  }

  lemma MovedMeaning(pool: Pool, r: map<int, nat>, root: int, e: int, t: int)
    requires Ranked(GraphOf(pool), r) && 0 <= root < |pool| && 0 <= e < 2 * |pool| && pool[PredOf(pool, e)].s.Jmp?
    requires 0 <= SuccOf(pool, e) < |pool| && pool[SuccOf(pool, e)].s.Jmp?
    requires t == pool[SuccOf(pool, e)].jt || t == pool[SuccOf(pool, e)].jf
    requires Settles(pool, r, root, e, t)
    ensures 0 <= t < |pool| && r[t] < r[SuccOf(pool, e)]
    ensures Ranked(GraphOf(WithSucc(pool, e, t)), r) && SameMeaning(pool, WithSucc(pool, e, t), r, root)
  {
    var c, b := SuccOf(pool, e), PredOf(pool, e);
    assert GraphOf(pool)[c] == NodeOf(pool[c]) && GraphOf(pool)[b] == NodeOf(pool[b]);
    assert Falls(GraphOf(pool), r, c) && Falls(GraphOf(pool), r, b);
    MovedRanked(pool, r, e, t);
    forall p | Go(pool, r, root, p).Some? ensures Go(WithSucc(pool, e, t), r, root, p) == Go(pool, r, root, p) {
      SkipKeeps(pool, r, root, e, t, p);
    }
  }

  lemma NumberedSame(pool: Pool, pool': Pool, m: set<int>, vals: seq<Values>)
    requires Numbered(pool, m, vals) && SameTests(pool, pool')
    ensures Numbered(pool', m, vals)
  {
    forall a, b, p | a in m && b in m ensures AgreeOn(pool'[a], vals[a], pool'[b], vals[b], p) {
      assert AgreeOn(pool[a], vals[a], pool[b], vals[b], p);
    }
  }

  // ----------------------------------------------- why dominators stay valid

  /** The blocks of m at level n and above have the branches they had when the
      dominators were computed. */
  ghost predicate Untouched(orig: Pool, pool: Pool, level: seq<nat>, m: set<int>, n: nat) {
    |pool| == |orig| == |level| && forall x | x in m && 0 <= x < |pool| && level[x] >= n :: pool[x] == orig[x]
  }

  /** Blocks of m branch to blocks of m on lower levels. */
  ghost predicate LevelsFall(pool: Pool, level: seq<nat>, m: set<int>) {
    && |pool| == |level|
    && forall x | x in m ::
         && 0 <= x < |pool|
         && (pool[x].s.Jmp? ==>
              && pool[x].jt in m && 0 <= pool[x].jt < |pool| && level[pool[x].jt] < level[x]
              && pool[x].jf in m && 0 <= pool[x].jf < |pool| && level[pool[x].jf] < level[x])
  }

  lemma LeveledFalls(pool: Pool, level: seq<nat>, levels: seq<seq<int>>, m: set<int>, root: int)
    requires Leveled(pool, level, levels, m, root)
    ensures LevelsFall(pool, level, m)
  {
    forall x | x in m ensures NodeLeveled(pool, level, m, x) {
    }
  }

  lemma MovedFalls(pool: Pool, level: seq<nat>, m: set<int>, e: int, t: int)
    requires LevelsFall(pool, level, m) && 0 <= e < 2 * |pool| && PredOf(pool, e) in m && pool[PredOf(pool, e)].s.Jmp?
    requires pool[SuccOf(pool, e)].s.Jmp? && (t == pool[SuccOf(pool, e)].jt || t == pool[SuccOf(pool, e)].jf)
    ensures LevelsFall(WithSucc(pool, e, t), level, m)
    ensures SuccOf(WithSucc(pool, e, t), e) == t && t in m && level[t] < level[SuccOf(pool, e)]
  {
  }

  lemma {:induction false} VisitsStay(pool: Pool, r: map<int, nat>, level: seq<nat>, m: set<int>, b: int, p: Packet,
      x: int)
    requires Ranked(GraphOf(pool), r) && LevelsFall(pool, level, m) && b in m
    requires 0 <= b < |pool| && x in Visits(pool, r, b, p)
    ensures x in m
    decreases r[b]
  {
    assert GraphOf(pool)[b] == NodeOf(pool[b]) && Falls(GraphOf(pool), r, b);
    if x != b {
      VisitsStay(pool, r, level, m, Succ(pool[b], Decide(pool[b], p)), p, x);
    }
  }

  /** A packet that comes to block b has taken every edge that dominates an
      edge e of b, as long as no block above b has been touched: dominators
      computed before the pass hold on the way up to the block in work. */
  lemma {:induction false} DominatorsTaken(orig: Pool, pool: Pool, r: map<int, nat>, root: int, level: seq<nat>,
      m: set<int>, edom: seq<set<int>>, e: int, f: int, p: Packet)
    requires SameTests(orig, pool) && Ranked(GraphOf(pool), r) && LevelsFall(pool, level, m) && root in m
    requires Swept(EdgeNext(orig), EdgesIn(orig, m), {root, |orig| + root}, edom, EdgesIn(orig, m))
    requires 0 <= root < |pool| && 0 <= e < 2 * |pool| && 0 <= f < 2 * |pool| && e != f && f in edom[e]
    requires Untouched(orig, pool, level, m, level[PredOf(pool, e)] + 1)
    requires PredOf(pool, e) in Visits(pool, r, root, p) && PredOf(pool, e) in m
    ensures PredOf(pool, f) in Visits(pool, r, root, p) && Takes(pool, f, p)
    decreases level[root] as int - level[PredOf(pool, e)]
  {
    var b := PredOf(pool, e);
    VisitsLevel(pool, r, level, m, root, p, b);
    EdomUp(orig, m, root, edom, e, f);
    hide Swept;
    var y := VisitsPred(pool, r, root, p, b);
    VisitsStay(pool, r, level, m, root, p, y);
    VisitsLevel(pool, r, level, m, root, p, y);
    var d := if Decide(pool[y], p) then y else |pool| + y;
    assert pool[y] == orig[y] && SuccOf(orig, d) == b && d in EdgesIn(orig, m);
    if f != d {
      DominatorsTaken(orig, pool, r, root, level, m, edom, d, f, p);
    }
  }

  lemma FoldAt(orig: Pool, pool: Pool, r: map<int, nat>, root: int, level: seq<nat>, m: set<int>,
               edom: seq<set<int>>, vals: seq<Values>, e: int, k: int, p: Packet)
    requires SameTests(orig, pool) && Ranked(GraphOf(pool), r) && LevelsFall(pool, level, m) && root in m
      && 0 <= root < |pool|
    requires Swept(EdgeNext(orig), EdgesIn(orig, m), {root, |orig| + root}, edom, EdgesIn(orig, m))
      && Numbered(pool, m, vals)
    requires 0 <= e < 2 * |pool| && PredOf(pool, e) in m && 0 <= k < 2 * |pool| && k in edom[e]
    requires SuccOf(pool, e) in m && 0 <= SuccOf(pool, e) < |pool|
    requires Untouched(orig, pool, level, m, level[PredOf(pool, e)] + 1)
    requires FoldEdge(pool, vals, SuccOf(pool, e), k) != NULL
    requires PredOf(pool, e) in Visits(pool, r, root, p) && Takes(pool, e, p) && !Faults(pool[SuccOf(pool, e)], p)
    ensures FoldEdge(pool, vals, SuccOf(pool, e), k) == Succ(pool[SuccOf(pool, e)], Decide(pool[SuccOf(pool, e)], p))
  {
    hide FoldEdge, Takes, Decide, Faults;
    if k != e {
      DominatorsTaken(orig, pool, r, root, level, m, edom, e, k, p);
      VisitsStay(pool, r, level, m, root, p, PredOf(pool, k));
    }
    FoldEdgeRight(pool, m, vals, SuccOf(pool, e), k, p);
  }

  lemma FoldAll(orig: Pool, pool: Pool, r: map<int, nat>, root: int, level: seq<nat>, m: set<int>,
                edom: seq<set<int>>, vals: seq<Values>, e: int, k: int)
    requires SameTests(orig, pool) && Ranked(GraphOf(pool), r) && LevelsFall(pool, level, m) && root in m
      && 0 <= root < |pool|
    requires Swept(EdgeNext(orig), EdgesIn(orig, m), {root, |orig| + root}, edom, EdgesIn(orig, m))
      && Numbered(pool, m, vals)
    requires 0 <= e < 2 * |pool| && PredOf(pool, e) in m && 0 <= k < 2 * |pool| && k in edom[e]
    requires SuccOf(pool, e) in m && 0 <= SuccOf(pool, e) < |pool|
    requires Untouched(orig, pool, level, m, level[PredOf(pool, e)] + 1)
    requires FoldEdge(pool, vals, SuccOf(pool, e), k) != NULL
    ensures pool[SuccOf(pool, e)].s.Jmp? ==> Settles(pool, r, root, e, FoldEdge(pool, vals, SuccOf(pool, e), k))
  {
    assert |vals| == |pool| && forall b | 0 <= b < |pool| :: |vals[b].val| == N_ATOMS;
    hide Swept, Numbered, LevelsFall, SameTests, Untouched, FoldEdge, Faults, Takes, Visits, Decide, EdgeNext, EdgesIn;
    forall p | PredOf(pool, e) in Visits(pool, r, root, p) && Takes(pool, e, p) && !Faults(pool[SuccOf(pool, e)], p)
      ensures FoldEdge(pool, vals, SuccOf(pool, e), k) == Succ(pool[SuccOf(pool, e)], Decide(pool[SuccOf(pool, e)], p))
    {
      FoldAt(orig, pool, r, root, level, m, edom, vals, e, k, p);
    }
  }

  lemma {:induction false} VisitsLevel(pool: Pool, r: map<int, nat>, level: seq<nat>, m: set<int>, b: int, p: Packet,
      x: int)
    requires Ranked(GraphOf(pool), r) && LevelsFall(pool, level, m) && b in m
    requires 0 <= b < |pool| && x in Visits(pool, r, b, p)
    ensures 0 <= x < |pool| && level[x] <= level[b]
    decreases r[b]
  {
    assert GraphOf(pool)[b] == NodeOf(pool[b]) && Falls(GraphOf(pool), r, b);
    if x != b {
      VisitsLevel(pool, r, level, m, Succ(pool[b], Decide(pool[b], p)), p, x);
    }
  }

  /** Only edge e may have moved, downwards; `done` is lost if it has. */
  ghost predicate Advanced(level: seq<nat>, e: int, was: Pool, wasDone: bool, pool: Pool, done: bool) {
    && |was| == |pool| == |level| && 0 <= e < 2 * |pool|
    && pool == WithSucc(was, e, SuccOf(pool, e))
    && 0 <= SuccOf(pool, e) < |pool| && 0 <= SuccOf(was, e) < |pool|
    && (if pool == was then done == wasDone else !done && level[SuccOf(pool, e)] < level[SuccOf(was, e)])
  }

  lemma AdvancedTwice(level: seq<nat>, e: int, a: Pool, da: bool, b: Pool, db: bool, c: Pool, dc: bool)
    requires Advanced(level, e, a, da, b, db) && Advanced(level, e, b, db, c, dc)
    ensures Advanced(level, e, a, da, c, dc)
  {
    assert WithSucc(WithSucc(a, e, SuccOf(b, e)), e, SuccOf(c, e)) == WithSucc(a, e, SuccOf(c, e));
  }

  lemma NotAdvanced(level: seq<nat>, e: int, a: Pool, d: bool)
    requires |a| == |level| && 0 <= e < 2 * |a| && 0 <= SuccOf(a, e) < |a|
    ensures Advanced(level, e, a, d, a, d)
  {
  }

  /** An edge that has moved is not moved back. */
  lemma NotBack(level: seq<nat>, e: int, a: Pool, da: bool, b: Pool, db: bool, c: Pool, dc: bool)
    requires Advanced(level, e, a, da, b, db) && Advanced(level, e, b, db, c, dc)
    ensures b != a ==> c != a
  {
  }

  /** Edges have moved downwards. */
  ghost predicate Lowered(orig: Pool, pool: Pool, level: seq<nat>) {
    |orig| == |pool| == |level| && forall f {:trigger SuccOf(pool, f)} | 0 <= f < 2 * |pool| ::
      Below(orig, pool, level, f)
  }

  ghost predicate Below(orig: Pool, pool: Pool, level: seq<nat>, f: int)
    requires |orig| == |pool| == |level| && 0 <= f < 2 * |pool|
  {
    var a, b := SuccOf(orig, f), SuccOf(pool, f);
    b == a || (0 <= a < |level| && 0 <= b < |level| && level[b] < level[a])
  }

  lemma LoweredMore(orig: Pool, level: seq<nat>, e: int, was: Pool, wasDone: bool, pool: Pool, done: bool)
    requires Lowered(orig, was, level) && Advanced(level, e, was, wasDone, pool, done)
    ensures Lowered(orig, pool, level)
  {
    forall f | 0 <= f < 2 * |pool| ensures Below(orig, pool, level, f) {
      assert Below(orig, was, level, f);
      assert f != e ==> SuccOf(pool, f) == SuccOf(was, f);
    }
  }

  lemma StaysSkipped(orig: Pool, was: Pool, pool: Pool, vals: seq<Values>, e: int, f: int)
    requires Skipped(orig, was, vals, e) && |pool| == |was| && 0 <= f < 2 * |pool| && f != e
    requires pool == WithSucc(was, f, SuccOf(pool, f)) && PredOf(pool, f) != SuccOf(orig, e)
    ensures Skipped(orig, pool, vals, e)
  {
    hide Loses;
    assert SuccOf(pool, e) == SuccOf(was, e) && pool[SuccOf(orig, e)] == was[SuccOf(orig, e)];
  }

  /** An edge that has moved if it could skip a test has skipped it. */
  lemma MovedSkipped(orig: Pool, level: seq<nat>, vals: seq<Values>, e: int, was: Pool, wasDone: bool, pool: Pool,
      done: bool)
    requires Advanced(level, e, was, wasDone, pool, done) && Lowered(orig, was, level)
    requires PredOf(was, e) != SuccOf(orig, e) && 0 <= SuccOf(orig, e) < |orig|
    requires CouldSkip(was, vals, e) ==> pool != was
    ensures Skipped(orig, pool, vals, e)
  {
    hide Loses;
    assert Below(orig, was, level, e);
    assert pool[SuccOf(orig, e)] == was[SuccOf(orig, e)];
  }

  /** Moves of other edges above do not unsettle an edge. */
  lemma StaysThreaded(was: Pool, pool: Pool, vals: seq<Values>, edom: seq<set<int>>, e: int, f: int)
    requires Threaded(was, vals, edom, e) && |pool| == |was| == |vals| && 0 <= f < 2 * |pool| && f != e
    requires pool == WithSucc(was, f, SuccOf(pool, f)) && PredOf(pool, f) != SuccOf(was, e)
    ensures Threaded(pool, vals, edom, e) && SuccOf(pool, e) == SuccOf(was, e)
  {
    hide Loses;
    assert SuccOf(pool, e) == SuccOf(was, e) && pool[SuccOf(was, e)] == was[SuccOf(was, e)];
    if pool[SuccOf(pool, e)].s.Jmp? {
      forall k | 0 <= k < 2 * |pool| && k in edom[e]
        ensures NoReason(pool, vals, PredOf(pool, e), SuccOf(pool, e), k)
      {
        assert NoReason(was, vals, PredOf(was, e), SuccOf(was, e), k);
      }
    }
  }

  lemma StaysExhausted(orig: Pool, was: Pool, pool: Pool, level: seq<nat>, m: set<int>, vals: seq<Values>,
      edom: seq<set<int>>, e: int, f: int)
    requires Exhausted(orig, was, vals, edom, e) && |pool| == |was| == |vals| && 0 <= f < 2 * |pool| && f != e
    requires pool == WithSucc(was, f, SuccOf(pool, f)) && LevelsFall(was, level, m) && LevelsFall(orig, level, m)
    requires PredOf(was, e) in m && 0 <= e < 2 * |was| && 0 <= PredOf(was, e) < |was| && 0 <= PredOf(pool, f) < |was|
    requires was[PredOf(was, e)].s.Jmp? && orig[PredOf(was, e)].s.Jmp?
      && level[PredOf(was, e)] <= level[PredOf(pool, f)]
    ensures Exhausted(orig, pool, vals, edom, e)
  {
    hide Threaded, Skipped;
    assert PredOf(orig, e) == PredOf(was, e) && PredOf(pool, f) == PredOf(was, f);
    StaysThreaded(was, pool, vals, edom, e, f);
    StaysSkipped(orig, was, pool, vals, e, f);
  }

  /** The edges of fin leave tests of m on level i or below, and nothing more can be
      done for them. */
  ghost predicate Finished(orig: Pool, pool: Pool, level: seq<nat>, m: set<int>, vals: seq<Values>, edom: seq<set<int>>,
      fin: set<int>, i: int) {
    && |pool| == |level| == |orig|
    && (forall f | f in fin :: LeavesTest(pool, level, m, f, i))
    && (forall f {:trigger Exhausted(orig, pool, vals, edom, f)} | f in fin :: Exhausted(orig, pool, vals, edom, f))
    && Lowered(orig, pool, level)
  }

  ghost predicate LeavesTest(pool: Pool, level: seq<nat>, m: set<int>, f: int, i: int) {
    && 0 <= f < 2 * |pool| && PredOf(pool, f) in m && 0 <= PredOf(pool, f) < |pool| == |level|
    && pool[PredOf(pool, f)].s.Jmp? && level[PredOf(pool, f)] <= i
  }

  lemma FinishedStays(orig: Pool, was: Pool, pool: Pool, level: seq<nat>, m: set<int>, vals: seq<Values>,
      edom: seq<set<int>>, fin: set<int>, i: int, e: int, wasDone: bool, done: bool)
    requires Finished(orig, was, level, m, vals, edom, fin, i) && Advanced(level, e, was, wasDone, pool, done)
    requires LevelsFall(was, level, m) && LevelsFall(orig, level, m) && |vals| == |was| && SameTests(orig, pool)
    requires SameTests(orig, was) && (CouldSkip(was, vals, e) ==> pool != was) && Threaded(pool, vals, edom, e)
    requires LeavesTest(pool, level, m, e, i) && level[PredOf(pool, e)] == i
    ensures Finished(orig, pool, level, m, vals, edom, fin + {e}, i)
  {
    LoweredMore(orig, level, e, was, wasDone, pool, done);
    assert orig[PredOf(pool, e)].s.Jmp? && PredOf(orig, e) == PredOf(pool, e) == PredOf(was, e);
    hide Threaded, Skipped, Exhausted, CouldSkip, Lowered, Faults, Decide;
    MovedSkipped(orig, level, vals, e, was, wasDone, pool, done);
    assert pool == WithSucc(was, e, SuccOf(pool, e));
    forall f | f in fin + {e} ensures Exhausted(orig, pool, vals, edom, f) && LeavesTest(pool, level, m, f, i) {
      if f == e {
        IsExhausted(orig, pool, vals, edom, e);
      } else {
        assert Exhausted(orig, was, vals, edom, f) && LeavesTest(was, level, m, f, i);
        StaysExhausted(orig, was, pool, level, m, vals, edom, f, e);
      }
    }
  }

  lemma IsExhausted(orig: Pool, pool: Pool, vals: seq<Values>, edom: seq<set<int>>, e: int)
    requires Threaded(pool, vals, edom, e) && Skipped(orig, pool, vals, e)
    ensures Exhausted(orig, pool, vals, edom, e)
  {
  }

  // ---------------------------------------------------------------- the pass

  class Threader {
    const orig: Pool
    const level: seq<nat>
    const levels: seq<seq<int>>
    const edom: seq<set<int>>
    const vals: seq<Values>
    ghost const r: map<int, nat>
    const root: int
    ghost const m: set<int>
    var pool: Pool
    var done: bool

    constructor (pool: Pool, level: seq<nat>, levels: seq<seq<int>>, edom: seq<set<int>>, vals: seq<Values>,
                 root: int, ghost r: map<int, nat>, ghost m: set<int>)
      requires Ranked(GraphOf(pool), r) && Leveled(pool, level, levels, m, root) && Numbered(pool, m, vals)
      requires Swept(EdgeNext(pool), EdgesIn(pool, m), {root, |pool| + root}, edom, EdgesIn(pool, m))
      ensures Valid() && this.pool == orig == pool && done
      ensures this.level == level && this.levels == levels && this.edom == edom && this.vals == vals
      ensures this.r == r && this.root == root && this.m == m
    {
      LeveledFalls(pool, level, levels, m, root);
      this.orig, this.pool, this.level, this.levels, this.edom, this.vals := pool, pool, level, levels, edom, vals;
      this.r, this.root, this.m := r, root, m;
      done := true;
    }

    /** The analyses are those of the original graph; the graph in work has the
        same blocks and branches downwards. */
    ghost predicate Valid()
      reads this
    {
      && SameTests(orig, pool) && Leveled(orig, level, levels, m, root) && LeavesEnd(pool)
      && Swept(EdgeNext(orig), EdgesIn(orig, m), {root, |orig| + root}, edom, EdgesIn(orig, m))
      && Numbered(pool, m, vals)
      && Ranked(GraphOf(pool), r) && LevelsFall(pool, level, m)
    }

    /** use_conflict: an exit value that is used after succ differs from that of
        block b. */
    method UseConflict(b: int, succ: int) returns (conflict: bool)
      requires 0 <= b < |vals| && 0 <= succ < |vals|
      requires |vals[b].val| == N_ATOMS && |vals[succ].val| == N_ATOMS
      ensures conflict <==> Loses(vals, b, succ)
    {
      var use := vals[succ].outUse;
      if use == {} {
        return false;
      }
      var atom := 0;
      while atom < N_ATOMS
        invariant 0 <= atom <= N_ATOMS
        invariant forall a | 0 <= a < atom :: a in use ==> vals[b].val[a] == vals[succ].val[a]
      {
        if atom in use && vals[b].val[atom] != vals[succ].val[atom] {
          return true;
        }
        atom := atom + 1;
      }
      conflict := false;
    }

    ghost predicate BranchesDown(c: int)
      reads this
      requires 0 <= c < |pool| == |level|
    {
      && pool[c].jt in m && 0 <= pool[c].jt < |pool| && level[pool[c].jt] < level[c]
      && pool[c].jf in m && 0 <= pool[c].jf < |pool| && level[pool[c].jf] < level[c]
    }

    /** What the passes need of Valid for edge e. */
    lemma Basics(e: int)
      requires Valid() && 0 <= e < 2 * |pool| && PredOf(pool, e) in m && pool[PredOf(pool, e)].s.Jmp?
      ensures |vals| == |pool| == |level| == |orig| && |edom| == 2 * |pool| && forall b | 0 <= b < |pool| ::
        |vals[b].val| == N_ATOMS
      ensures SuccOf(pool, e) in m && 0 <= SuccOf(pool, e) < |pool| && level[SuccOf(pool, e)] < level[PredOf(pool, e)]
      ensures pool[SuccOf(pool, e)].s.Ret? <==> pool[SuccOf(pool, e)].jt == NULL
      ensures pool[SuccOf(pool, e)].s.Jmp? ==> BranchesDown(SuccOf(pool, e))
    {
    }

    /** Moves edge e one block on. */
    method Move(e: int, t: int)
      requires Valid() && 0 <= e < 2 * |pool| && PredOf(pool, e) in m && pool[PredOf(pool, e)].s.Jmp?
      requires 0 <= SuccOf(pool, e) < |pool| && pool[SuccOf(pool, e)].s.Jmp?
      requires t == pool[SuccOf(pool, e)].jt || t == pool[SuccOf(pool, e)].jf
      requires Settles(pool, r, root, e, t)
      modifies `pool, `done
      ensures Valid() && !done && pool == WithSucc(old(pool), e, t)
      ensures SameMeaning(old(pool), pool, r, root)
      ensures SuccOf(pool, e) == t && t in m && level[t] < level[SuccOf(old(pool), e)]
    {
      MovedMeaning(pool, r, root, e, t);
      NumberedSame(pool, WithSucc(pool, e, t), m, vals);
      MovedFalls(pool, level, m, e, t);
      done := false;
      pool := WithSucc(pool, e, t);
    }

    lemma RootKnown(e: int, k: int)
      requires Valid() && 0 <= e < 2 * |pool| && 0 <= k < 2 * |pool| && 0 <= SuccOf(pool, e) < |pool|
      ensures root in m && 0 <= root < |pool| == |vals| && forall b | 0 <= b < |pool| :: |vals[b].val| == N_ATOMS
      ensures FoldEdge(pool, vals, SuccOf(pool, e), k) != NULL ==> pool[SuccOf(pool, e)].s.Jmp?
    {
      hide Swept, LevelsFall, SameTests, Ranked, LeavesEnd;
    }

    /** What a dominator of edge e settles, it settles for every packet that
        comes along e. */
    lemma FoldJustified(e: int, k: int)
      requires Valid() && 0 <= e < 2 * |pool| && PredOf(pool, e) in m && 0 <= k < 2 * |pool| && k in edom[e]
      requires SuccOf(pool, e) in m && 0 <= SuccOf(pool, e) < |pool|
      requires Untouched(orig, pool, level, m, level[PredOf(pool, e)] + 1)
      requires FoldEdge(pool, vals, SuccOf(pool, e), k) != NULL
      ensures pool[SuccOf(pool, e)].s.Jmp? && Settles(pool, r, root, e, FoldEdge(pool, vals, SuccOf(pool, e), k))
    {
      hide Swept, Leveled, Numbered, LevelsFall, SameTests, Untouched, FoldEdge, Settles, LeavesEnd, EdgeNext, EdgesIn,
        Falls, Ranked;
      RootKnown(e, k);
      FoldAll(orig, pool, r, root, level, m, edom, vals, e, k);
    }

    /** The first n edges give no reason to move edge e. */
    ghost predicate Stuck(e: int, n: int)
      reads this
      requires 0 <= e < 2 * |pool| == |edom|
    {
      forall k | 0 <= k < n && k in edom[e] :: NoReason(pool, vals, PredOf(pool, e), SuccOf(pool, e), k)
    }

    /** No more can be done for the edges of block x. */
    ghost predicate BlockFinished(x: int)
      reads this
    {
      && 0 <= x < |pool|
      && (pool[x].s.Jmp? ==>
           Exhausted(orig, pool, vals, edom, x) && Exhausted(orig, pool, vals, edom, |pool| + x))
    }

    /** A test with equal branches is skipped. */
    method SkipCommon(e: int)
      requires Valid() && 0 <= e < 2 * |pool| && PredOf(pool, e) in m && pool[PredOf(pool, e)].s.Jmp?
      modifies `pool, `done
      ensures Valid() && SameMeaning(old(pool), pool, r, root)
      ensures Advanced(level, e, old(pool), old(done), pool, done)
      ensures pool != old(pool) <==> CouldSkip(old(pool), vals, e)
    {
      NotAdvanced(level, e, pool, done);
      if pool[SuccOf(pool, e)].jt != NULL && pool[SuccOf(pool, e)].jt == pool[SuccOf(pool, e)].jf {
        var conflict := UseConflict(PredOf(pool, e), pool[SuccOf(pool, e)].jt);
        if !conflict {
          Move(e, pool[SuccOf(pool, e)].jt);
        }
      }
    }

    lemma UntouchedAbove(was: Pool, e: int)
      requires 0 <= e < 2 * |pool| && |was| == |pool| == |level| && pool == WithSucc(was, e, SuccOf(pool, e))
      requires Untouched(orig, was, level, m, level[PredOf(pool, e)] + 1)
      ensures Untouched(orig, pool, level, m, level[PredOf(pool, e)] + 1)
    {
    }

    /** Edge e may have moved since the pool was `was`, without harm. */
    ghost predicate Folding(e: int, was: Pool, wasDone: bool)
      reads this
    {
      && Valid() && Ranked(GraphOf(was), r) && |was| == |pool| && SameMeaning(was, pool, r, root)
      && Advanced(level, e, was, wasDone, pool, done)
      && PredOf(pool, e) in m && pool[PredOf(pool, e)].s.Jmp?
        && Untouched(orig, pool, level, m, level[PredOf(pool, e)] + 1)
    }

    /** Again and again, as long as the edge moves. */
    method Fold(e: int)
      requires Valid() && 0 <= e < 2 * |pool| && PredOf(pool, e) in m && pool[PredOf(pool, e)].s.Jmp?
      requires Untouched(orig, pool, level, m, level[PredOf(pool, e)] + 1)
      modifies `pool, `done
      ensures Valid() && SameMeaning(old(pool), pool, r, root)
      ensures Advanced(level, e, old(pool), old(done), pool, done)
      ensures Threaded(pool, vals, edom, e)
    {
      ghost var was, wasDone := pool, done;
      Basics(e);
      NotAdvanced(level, e, pool, done);
      var again := true;
      while again
        invariant Folding(e, was, wasDone)
        invariant !again ==> Threaded(pool, vals, edom, e)
        decreases level[SuccOf(pool, e)], again
      {
        again := FoldMore(e, was, wasDone);
      }
    }

    method FoldMore(e: int, ghost was: Pool, ghost wasDone: bool) returns (again: bool)
      requires Folding(e, was, wasDone)
      modifies `pool, `done
      ensures Folding(e, was, wasDone)
      ensures !again ==> Threaded(pool, vals, edom, e)
      ensures again ==> level[SuccOf(pool, e)] < level[SuccOf(old(pool), e)]
      ensures !again ==> level[SuccOf(pool, e)] <= level[SuccOf(old(pool), e)]
    {
      ghost var now, nowDone := pool, done;
      again := FoldOnce(e);
      AdvancedTwice(level, e, was, wasDone, now, nowDone, pool, done);
      UntouchedAbove(now, e);
      MeaningTwice(was, now, pool, r, root);
    }

    /** Looks through the dominators of e once, up to the first that moves it;
        again, unless that was the last move e can make. */
    method FoldOnce(e: int) returns (again: bool)
      requires Valid() && 0 <= e < 2 * |pool| && PredOf(pool, e) in m && pool[PredOf(pool, e)].s.Jmp?
      requires Untouched(orig, pool, level, m, level[PredOf(pool, e)] + 1)
      modifies `pool, `done
      ensures Valid() && SameMeaning(old(pool), pool, r, root)
      ensures Advanced(level, e, old(pool), old(done), pool, done)
      ensures again ==> pool != old(pool)
      ensures !again ==> Threaded(pool, vals, edom, e)
    {
      hide Leveled, Swept, Numbered, LevelsFall, LeavesEnd, SameTests, Untouched, Loses, NoReason, FoldEdge;
      Basics(e);
      NotAdvanced(level, e, pool, done);
      var k := 0;
      while k < 2 * |pool|
        invariant pool == old(pool) && done == old(done) && Valid()
        invariant 0 <= k <= 2 * |pool| && Stuck(e, k)
      {
        if k in edom[e] {
          var target := FoldEdge(pool, vals, SuccOf(pool, e), k);
          FoldWays(pool, vals, SuccOf(pool, e), k);
          if target != NULL {
            FoldJustified(e, k);
            var conflict := UseConflict(PredOf(pool, e), target);
            if !conflict {
              Move(e, target);
              Basics(e);
              return pool[target].jt != NULL;
            }
          }
          FoldNoReason(pool, vals, PredOf(pool, e), SuccOf(pool, e), k);
        }
        k := k + 1;
      }
      again := false;
    }

    method OptJ(e: int)
      requires Valid() && 0 <= e < 2 * |pool| && PredOf(pool, e) in m && pool[PredOf(pool, e)].s.Jmp?
      requires Untouched(orig, pool, level, m, level[PredOf(pool, e)] + 1)
      modifies `pool, `done
      ensures Valid() && SameMeaning(old(pool), pool, r, root)
      ensures Advanced(level, e, old(pool), old(done), pool, done)
      ensures Threaded(pool, vals, edom, e)
      ensures CouldSkip(old(pool), vals, e) ==> pool != old(pool)
    {
      Basics(e);
      hide Leveled, Swept, Numbered, LevelsFall, LeavesEnd, SameTests, Ranked, Loses;
      ghost var was, wasDone := pool, done;
      SkipCommon(e);
      Basics(e);
      ghost var now, nowDone := pool, done;
      UntouchedAbove(was, e);
      if pool[SuccOf(pool, e)].jt != NULL {
        Fold(e);
        AdvancedTwice(level, e, was, wasDone, now, nowDone, pool, done);
        NotBack(level, e, was, wasDone, now, nowDone, pool, done);
      }
    }

    /** Both edges of the tests of xs. */
    ghost predicate Holds(fin: set<int>, xs: seq<int>) {
      forall x | x in xs :: x in fin && |orig| + x in fin
    }

    /** The pass has come to level i since the pool was `was`, without harm, and
        has finished the edges of fin. */
    ghost predicate Going(was: Pool, wasDone: bool, i: nat, fin: set<int>)
      reads this
    {
      && Valid() && |was| == |pool| && Ranked(GraphOf(was), r) && SameMeaning(was, pool, r, root)
      && Untouched(orig, pool, level, m, i + 1) && Finished(orig, pool, level, m, vals, edom, fin, i)
      && (done ==> wasDone && pool == was)
    }

    /** One edge of a block of level i. */
    method ThreadEdge(e: int, i: nat, ghost fin: set<int>, ghost was: Pool, ghost wasDone: bool)
      requires Going(was, wasDone, i, fin) && 0 <= e < 2 * |pool| && PredOf(pool, e) in m
      requires pool[PredOf(pool, e)].s.Jmp? && level[PredOf(pool, e)] == i
      modifies `pool, `done
      ensures Going(was, wasDone, i, fin + {e})
    {
      ghost var now, nowDone := pool, done;
      assert LevelsFall(now, level, m) && |vals| == |now| && Ranked(GraphOf(now), r);
      LeveledFalls(orig, level, levels, m, root);
      hide Swept, Numbered, SameMeaning, Untouched, Advanced, Threaded, Exhausted, CouldSkip, Lowered, Ranked, Leveled,
        LeavesEnd, LevelsFall;
      OptJ(e);
      EdgeDone(now, nowDone, e, i);
      MeaningTwice(was, now, pool, r, root);
      FinishedStays(orig, now, pool, level, m, vals, edom, fin, i, e, nowDone, done);
    }

    lemma EdgeDone(was: Pool, wasDone: bool, e: int, i: nat)
      requires 0 <= e < 2 * |pool| && |was| == |pool| == |level| && 0 <= PredOf(pool, e) < |pool|
        && level[PredOf(pool, e)] == i
      requires Advanced(level, e, was, wasDone, pool, done) && Untouched(orig, was, level, m, i + 1)
      ensures Untouched(orig, pool, level, m, i + 1) && (done ==> wasDone && pool == was)
    {
    }

    lemma ListedTest(i: nat, k: nat)
      requires Valid() && 1 <= i < |levels| && k < |levels[i]|
      ensures var x := levels[i][k];
        x in m && 0 <= x < |pool| == |level| && pool[x].s.Jmp? && level[x] == i
        && PredOf(pool, x) == x && PredOf(pool, |pool| + x) == x
    {
      var x := levels[i][k];
      assert x in levels[i] && NodeLeveled(orig, level, m, x);
    }

    /** Both edges of block k of level i, the true one first. */
    method ThreadBlock(k: nat, i: nat, ghost fin: set<int>, ghost was: Pool, ghost wasDone: bool)
        returns (ghost fin': set<int>)
      requires Going(was, wasDone, i, fin) && 1 <= i < |levels| && k < |levels[i]|
      modifies `pool, `done
      ensures Going(was, wasDone, i, fin') && fin <= fin' && levels[i][k] in fin' && |orig| + levels[i][k] in fin'
    {
      hide *;
      var x := levels[i][k];
      ListedGoing(was, wasDone, i, fin, k);
      ThreadEdge(x, i, fin, was, wasDone);
      ListedGoing(was, wasDone, i, fin + {x}, k);
      ThreadEdge(|pool| + x, i, fin + {x}, was, wasDone);
      fin' := fin + {x} + {|orig| + x};
    }

    lemma ListedGoing(was: Pool, wasDone: bool, i: nat, fin: set<int>, k: nat)
      requires Going(was, wasDone, i, fin) && 1 <= i < |levels| && k < |levels[i]|
      ensures var x := levels[i][k];
        x in m && 0 <= x < |pool| == |level| == |orig| && pool[x].s.Jmp? && level[x] == i
        && PredOf(pool, x) == x && PredOf(pool, |pool| + x) == x
    {
      ListedTest(i, k);
    }

    method ThreadLevel(i: nat, ghost fin: set<int>, ghost was: Pool, ghost wasDone: bool) returns (ghost fin': set<int>)
      requires Going(was, wasDone, i, fin) && 1 <= i < |levels|
      modifies `pool, `done
      ensures Going(was, wasDone, i, fin') && fin <= fin' && Holds(fin', levels[i])
    {
      hide Going;
      fin' := fin;
      var k := 0;
      while k < |levels[i]|
        invariant 0 <= k <= |levels[i]| && fin <= fin' && Going(was, wasDone, i, fin') && Holds(fin', levels[i][..k])
      {
        fin' := ThreadBlock(k, i, fin', was, wasDone);
        assert levels[i][..k + 1] == levels[i][..k] + [levels[i][k]];
        k := k + 1;
      }
      assert levels[i][..k] == levels[i];
    }

    /** Threads every edge, from the lowest level up: in the end nothing more can
        be done for any. */
    method ThreadAll()
      requires Valid() && pool == orig
      modifies `pool, `done
      ensures Valid() && SameMeaning(orig, pool, r, root)
      ensures done ==> old(done) && pool == orig
      ensures forall x {:trigger BlockFinished(x)} | x in m :: BlockFinished(x)
    {
      ghost var fin, wasDone := {}, done;
      GoingFirst();
      var i := 1;
      while i <= level[root]
        invariant 1 <= i && Going(orig, wasDone, i, fin)
        invariant forall j | 1 <= j < i && j < |levels| :: Holds(fin, levels[j])
      {
        assert level[root] < |levels|;
        fin := ThreadLevel(i, fin, orig, wasDone);
        GoingUp(i, fin, wasDone);
        i := i + 1;
      }
      AllFinished(fin, i, wasDone);
    }

    lemma GoingFirst()
      requires Valid() && pool == orig
      ensures Going(orig, done, 1, {}) && 0 <= root < |level|
    {
      assert Lowered(orig, pool, level) by {
        forall f | 0 <= f < 2 * |pool| ensures Below(orig, pool, level, f) {
        }
      }
    }

    lemma GoingUp(i: nat, fin: set<int>, wasDone: bool)
      requires Going(orig, wasDone, i, fin)
      ensures Going(orig, wasDone, i + 1, fin) && 0 <= root < |level| && level[root] < |levels|
    {
    }

    lemma AllFinished(fin: set<int>, i: nat, wasDone: bool)
      requires Going(orig, wasDone, i, fin) && 0 <= root < |level| && i > level[root]
      requires forall j | 1 <= j < i && j < |levels| :: Holds(fin, levels[j])
      ensures Valid() && SameMeaning(orig, pool, r, root) && (done ==> wasDone && pool == orig)
      ensures forall x {:trigger BlockFinished(x)} | x in m :: BlockFinished(x)
    {
      hide Swept, Numbered, Ranked, LevelsFall, Threaded;
      forall x | x in m ensures BlockFinished(x) {
        assert NodeLeveled(orig, level, m, x);
        if pool[x].s.Jmp? {
          assert x in levels[level[x]] && Holds(fin, levels[level[x]]);
        }
      }
    }
  }
}
