/** Block levels: the length of the longest way to a leaf, and the lists of the
    blocks at each level. */
module Levels {
  import opened Basics
  import opened Flow
  import opened Blocks

  /** The level of x is the length of the longest way from x to a leaf. */
  ghost predicate LevelAt(pool: Pool, level: seq<nat>, x: int)
    requires |level| == |pool| && 0 <= x < |pool|
  {
    if pool[x].s.Ret? then level[x] == 0 else
    var t, f := pool[x].jt, pool[x].jf;
    && 0 <= t < |pool| && 0 <= f < |pool|
    && level[x] == 1 + if level[t] > level[f] then level[t] else level[f]
  }

  ghost predicate NodeLeveled(pool: Pool, level: seq<nat>, m: set<int>, x: int) {
    && 0 <= x < |pool| == |level| && LevelAt(pool, level, x)
    && (pool[x].s.Jmp? ==> pool[x].jt in m && pool[x].jf in m)
  }

  /** The blocks of m have their levels. */
  ghost predicate AllLeveled(pool: Pool, level: seq<nat>, m: set<int>) {
    forall x {:trigger NodeLeveled(pool, level, m, x)} | x in m :: NodeLeveled(pool, level, m, x)
  }

  /** List i holds the blocks of m at level i, each once. */
  ghost predicate Listed(level: seq<nat>, levels: seq<seq<int>>, m: set<int>) {
    && |levels| == |level| && (forall x | x in m :: 0 <= x < |level|)
    && (forall i, x | 0 <= i < |levels| :: x in levels[i] <==> x in m && level[x] == i)
    && forall i | 0 <= i < |levels| :: NoDups(levels[i])
  }

  lemma SubsetSize(a: set<int>, b: set<int>)
    requires a <= b
    ensures |a| <= |b|
  {
    assert b == a + (b - a);
  }

  lemma {:induction false} RangeSize(a: set<int>, n: nat)
    requires forall x :: x in a ==> 0 <= x < n
    ensures |a| <= n
  {
    if n == 0 {
      assert forall x :: x in a ==> false;
      assert a == {};
    } else {
      RangeSize(a - {n - 1}, n - 1);
      assert a <= (a - {n - 1}) + {n - 1};
    }
  }

  /** A block reaches what its successors reach, and they do not reach it. */
  lemma ReachBelow(pool: Pool, r: map<int, nat>, x: int)
    requires Ranked(GraphOf(pool), r) && 0 <= x < |pool| && pool[x].s.Jmp?
    ensures var g, t, f := GraphOf(pool), pool[x].jt, pool[x].jf;
      && 0 <= t < |pool| && r[t] < r[x] && 0 <= f < |pool| && r[f] < r[x]
      && Reach(g, r, x) == {x} + Reach(g, r, t) + Reach(g, r, f)
      && x !in Reach(g, r, t) && x !in Reach(g, r, f)
  {
    var g := GraphOf(pool);
    assert g[x] == NodeOf(pool[x]) && Falls(g, r, x);
    if x in Reach(g, r, pool[x].jt) {
      ReachClosed(g, r, pool[x].jt, x);
    }
    if x in Reach(g, r, pool[x].jf) {
      ReachClosed(g, r, pool[x].jf, x);
    }
  }

  lemma {:induction false} LeveledReach(pool: Pool, r: map<int, nat>, level: seq<nat>, m: set<int>, x: int)
    requires Ranked(GraphOf(pool), r) && AllLeveled(pool, level, m) && x in m && 0 <= x < |pool|
    ensures Reach(GraphOf(pool), r, x) <= m
    decreases r[x]
  {
    var g := GraphOf(pool);
    assert NodeLeveled(pool, level, m, x) && g[x] == NodeOf(pool[x]) && Falls(g, r, x);
    if pool[x].s.Jmp? {
      LeveledReach(pool, r, level, m, pool[x].jt);
      LeveledReach(pool, r, level, m, pool[x].jf);
    }
  }

  /** A way down from x visits each block once: levels stay below the number of
      blocks. */
  lemma {:induction false} LevelBound(pool: Pool, r: map<int, nat>, level: seq<nat>, m: set<int>, x: int)
    requires Ranked(GraphOf(pool), r) && AllLeveled(pool, level, m) && x in m && 0 <= x < |pool| == |level|
    ensures level[x] < |Reach(GraphOf(pool), r, x)| <= |pool|
    decreases r[x]
  {
    assert NodeLeveled(pool, level, m, x);
    if pool[x].s.Jmp? {
      ReachBelow(pool, r, x);
      LevelBound(pool, r, level, m, pool[x].jt);
      LevelBound(pool, r, level, m, pool[x].jf);
      SubsetSize({x} + Reach(GraphOf(pool), r, pool[x].jt), Reach(GraphOf(pool), r, x));
      SubsetSize({x} + Reach(GraphOf(pool), r, pool[x].jf), Reach(GraphOf(pool), r, x));
    } else {
      SubsetSize({x}, Reach(GraphOf(pool), r, x));
    }
    RangeSize(Reach(GraphOf(pool), r, x), |pool|);
  }

  /** No block is above the one from which it is reached. */
  lemma {:induction false} LevelTop(pool: Pool, r: map<int, nat>, level: seq<nat>, m: set<int>, b: int, x: int)
    requires Ranked(GraphOf(pool), r) && AllLeveled(pool, level, m) && b in m && 0 <= b < |pool| == |level|
    requires x in Reach(GraphOf(pool), r, b)
    ensures 0 <= x < |pool| && (x == b || level[x] < level[b])
    decreases r[b]
  {
    assert NodeLeveled(pool, level, m, b);
    if x != b {
      ReachBelow(pool, r, b);
      assert GraphOf(pool)[b] == NodeOf(pool[b]);
      if x in Reach(GraphOf(pool), r, pool[b].jt) {
        LevelTop(pool, r, level, m, pool[b].jt, x);
      } else {
        LevelTop(pool, r, level, m, pool[b].jf, x);
      }
    }
  }

  lemma ListOne(level: seq<nat>, levels: seq<seq<int>>, m: set<int>, p: int, n: nat)
    requires Listed(level, levels, m) && 0 <= p < |level| && p !in m && n < |levels|
    ensures Listed(level[p := n], levels[n := [p] + levels[n]], m + {p})
  {
    var level', levels' := level[p := n], levels[n := [p] + levels[n]];
    forall i, x | 0 <= i < |levels'| ensures x in levels'[i] <==> x in m + {p} && level'[x] == i {
      assert x in [p] + levels[n] <==> x == p || x in levels[n];
      assert x in levels[i] <==> x in m && level[x] == i;
    }
  }

  function Above(level: seq<nat>, t: int, f: int): nat
    requires 0 <= t < |level| && 0 <= f < |level|
  {
    1 + if level[t] > level[f] then level[t] else level[f]
  }

  /** One more block gets its level, one above its successors. */
  lemma LevelOne(pool: Pool, level: seq<nat>, m: set<int>, p: int, n: nat)
    requires AllLeveled(pool, level, m) && 0 <= p < |pool| == |level| && p !in m
    requires pool[p].s.Ret? ==> n == 0
    requires pool[p].s.Jmp? ==>
      && 0 <= pool[p].jt < |pool| && 0 <= pool[p].jf < |pool|
      && pool[p].jt in m && pool[p].jf in m && n == Above(level, pool[p].jt, pool[p].jf)
    ensures AllLeveled(pool, level[p := n], m + {p})
  {
    forall x | x in m + {p} ensures NodeLeveled(pool, level[p := n], m + {p}, x) {
      if x != p {
        assert NodeLeveled(pool, level, m, x);
      }
    }
  }

  class Leveler {
    const pool: Pool
    ghost const r: map<int, nat>
    var marked: set<int>
    var level: seq<nat>
    var levels: seq<seq<int>>

    constructor (pool: Pool, ghost r: map<int, nat>)
      ensures this.pool == pool && this.r == r && |level| == |pool|
    {
      this.pool, this.r := pool, r;
      marked, level, levels := {}, seq(|pool|, i => 0), [];
    }

    /** Levels the blocks that a run from root can visit. */
    method FindLevels(root: int)
      requires Ranked(GraphOf(pool), r) && LeavesEnd(pool) && 0 <= root < |pool| == |level|
      modifies `marked, `level, `levels
      ensures |level| == |pool| && AllLeveled(pool, level, Reach(GraphOf(pool), r, root))
      ensures Listed(level, levels, Reach(GraphOf(pool), r, root))
      ensures level[root] < |pool| && marked == Reach(GraphOf(pool), r, root)
      ensures forall x | x in Reach(GraphOf(pool), r, root) && x != root :: level[x] < level[root]
    {
      ghost var m := Reach(GraphOf(pool), r, root);
      levels := seq(|pool|, i => []);
      marked := {};
      FindLevelsR(root, {});
      assert {} + m == m;
      LevelBound(pool, r, level, m, root);
      forall x | x in m && x != root ensures level[x] < level[root] {
        LevelTop(pool, r, level, m, root, x);
      }
    }

    /** `done` are the blocks with levels; the others that are marked are still
        being visited, above p. */
    method FindLevelsR(p: int, ghost done: set<int>)
      requires Ranked(GraphOf(pool), r) && LeavesEnd(pool) && 0 <= p < |pool|
      requires |level| == |pool| && AllLeveled(pool, level, done) && Listed(level, levels, done)
      requires done <= marked && forall x | x in marked && x !in done :: x in r && r[p] < r[x]
      modifies `marked, `level, `levels
      ensures marked == old(marked) + Reach(GraphOf(pool), r, p)
      ensures |level| == |pool| && AllLeveled(pool, level, done + Reach(GraphOf(pool), r, p))
      ensures Listed(level, levels, done + Reach(GraphOf(pool), r, p))
      decreases r[p]
    {
      ghost var g := GraphOf(pool);
      assert g[p] == NodeOf(pool[p]) && Falls(g, r, p);
      if p in marked {
        LeveledReach(pool, r, level, done, p);
        assert done + Reach(g, r, p) == done && marked + Reach(g, r, p) == marked;
        return;
      }
      marked := marked + {p};
      var n := 0;
      ghost var all := done;
      if pool[p].jt != NULL {
        ReachBelow(pool, r, p);
        FindLevelsR(pool[p].jt, all);
        all := all + Reach(g, r, pool[p].jt);
        FindLevelsR(pool[p].jf, all);
        all := all + Reach(g, r, pool[p].jf);
        n := Above(level, pool[p].jt, pool[p].jf);
      }
      assert done + Reach(g, r, p) == all + {p};
      Enter(p, n, all);
    }

    /** Gives block p its level and puts it on the list for that level. */
    method Enter(p: int, n: nat, ghost m: set<int>)
      requires Ranked(GraphOf(pool), r) && 0 <= p < |pool| && p !in m
      requires |level| == |pool| && AllLeveled(pool, level, m) && Listed(level, levels, m)
      requires pool[p].s.Ret? ==> n == 0
      requires pool[p].s.Jmp? ==>
        && 0 <= pool[p].jt < |pool| && 0 <= pool[p].jf < |pool|
        && pool[p].jt in m && pool[p].jf in m && n == Above(level, pool[p].jt, pool[p].jf)
      modifies `level, `levels
      ensures |level| == |pool| && AllLeveled(pool, level, m + {p}) && Listed(level, levels, m + {p})
    {
      LevelOne(pool, level, m, p, n);
      LevelBound(pool, r, level[p := n], m + {p}, p);
      ListOne(level, levels, m, p, n);
      level := level[p := n];
      levels := levels[n := [p] + levels[n]];
    }
  }
}
