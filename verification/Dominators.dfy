/** Dominators of blocks and of edges: one dominates another if every way from
    the root to the second passes the first. One sweep down the levels finds
    either; the sweep is described once, for items that lead to other items. */
module Dominators {
  import opened Blocks
  import opened Levels

  /** Item i leads to the items in next[i]. */
  type Next = seq<set<int>>

  predicate IsItem(f: int, n: nat) {
    0 <= f < n
  }

  // ------------------------------------------------- what a sweep maintains

  /** f is in the set of every swept item that leads to i. */
  ghost predicate Enters(next: Next, sets: seq<set<int>>, done: set<int>, i: int, f: int)
    requires |sets| == |next|
  {
    forall d | d in done && 0 <= d < |next| && i in next[d] :: f in sets[d]
  }

  ghost predicate SetEq(next: Next, starts: set<int>, sets: seq<set<int>>, done: set<int>, i: int) {
    && 0 <= i < |next| == |sets|
    && forall f {:trigger Enters(next, sets, done, i, f)} | IsItem(f, |next|) ::
         f in sets[i] <==> (i in done && f == i) || (i !in starts && Enters(next, sets, done, i, f))
  }

  /** The items of `done` have been swept: with an item, all that lead to it. */
  ghost predicate Swept(next: Next, m: set<int>, starts: set<int>, sets: seq<set<int>>, done: set<int>) {
    && |sets| == |next| && done <= m && (forall i | i in m :: 0 <= i < |next|)
    && (forall d, i | d in m && i in done && 0 <= d < |next| && i in next[d] :: d in done)
    && forall i {:trigger SetEq(next, starts, sets, done, i)} | i in m :: SetEq(next, starts, sets, done, i)
  }

  /** All items that lead to i have been swept, and i does not lead to a start. */
  ghost predicate Ready(next: Next, m: set<int>, starts: set<int>, done: set<int>, i: int) {
    && i in m && i !in done && 0 <= i < |next| && i !in next[i] && next[i] !! starts
    && forall d | d in m && 0 <= d < |next| && i in next[d] :: d in done
  }

  /** sets' is sets after item i joined its own set, which then bounded the
      sets of the items it leads to. */
  ghost predicate Step(next: Next, sets: seq<set<int>>, i: int, sets': seq<set<int>>) {
    && |sets'| == |sets| == |next| && 0 <= i < |next|
    && forall j | 0 <= j < |next| :: sets'[j] ==
         if j == i then sets[i] + {i} else if j in next[i] then sets[j] * (sets[i] + {i}) else sets[j]
  }

  lemma StepEnters(next: Next, m: set<int>, starts: set<int>, sets: seq<set<int>>, done: set<int>,
                   i: int, sets': seq<set<int>>, j: int, f: int)
    requires Swept(next, m, starts, sets, done) && Ready(next, m, starts, done, i) && Step(next, sets, i, sets')
    ensures Enters(next, sets', done + {i}, j, f) <==>
            Enters(next, sets, done, j, f) && (j in next[i] ==> f in sets[i] + {i})
  {
    if Enters(next, sets', done + {i}, j, f) {
      forall d | d in done && 0 <= d < |next| && j in next[d] ensures f in sets[d] {
        assert d in done + {i};
      }
      assert i in done + {i};
    }
  }

  lemma StepItem(next: Next, m: set<int>, starts: set<int>, sets: seq<set<int>>, done: set<int>,
                 i: int, sets': seq<set<int>>, j: int)
    requires Swept(next, m, starts, sets, done) && Ready(next, m, starts, done, i) && Step(next, sets, i, sets')
    requires j in m
    ensures SetEq(next, starts, sets', done + {i}, j)
  {
    assert SetEq(next, starts, sets, done, j) && SetEq(next, starts, sets, done, i);
    forall f | IsItem(f, |next|)
      ensures f in sets'[j] <==> (j in done + {i} && f == j) || (j !in starts && Enters(next, sets', done + {i}, j, f))
    {
      StepEnters(next, m, starts, sets, done, i, sets', j, f);
      assert Enters(next, sets, done, j, f) || !Enters(next, sets, done, j, f);
    }
  }

  lemma StepSwept(next: Next, m: set<int>, starts: set<int>, sets: seq<set<int>>, done: set<int>,
                  i: int, sets': seq<set<int>>)
    requires Swept(next, m, starts, sets, done) && Ready(next, m, starts, done, i) && Step(next, sets, i, sets')
    ensures Swept(next, m, starts, sets', done + {i})
  {
    forall j | j in m ensures SetEq(next, starts, sets', done + {i}, j) {
      StepItem(next, m, starts, sets, done, i, sets', j);
    }
  }

  /** Before the sweep the starts have empty sets and all others full ones. */
  lemma StartSwept(next: Next, m: set<int>, starts: set<int>, sets: seq<set<int>>)
    requires |sets| == |next| && forall i | i in m :: 0 <= i < |next|
    requires forall i, f | 0 <= i < |next| && IsItem(f, |next|) :: f in sets[i] <==> i !in starts
    ensures Swept(next, m, starts, sets, {})
  {
    forall i | i in m ensures SetEq(next, starts, sets, {}, i) {
      forall f | IsItem(f, |next|) ensures Enters(next, sets, {}, i, f) {
      }
    }
  }

  // -------------------------------------------------------------- exactness

  /** A way from a start along the items. */
  ghost predicate Trail(next: Next, starts: set<int>, t: seq<int>) {
    && t != [] && t[0] in starts
    && (forall k | 0 <= k < |t| :: 0 <= t[k] < |next|)
    && forall k | 0 < k < |t| :: t[k] in next[t[k - 1]]
  }

  lemma {:induction false} TrailPasses(next: Next, m: set<int>, starts: set<int>, sets: seq<set<int>>, t: seq<int>,
      f: int)
    requires Swept(next, m, starts, sets, m) && Trail(next, starts, t)
    requires (forall k | 0 <= k < |t| :: t[k] in m) && IsItem(f, |next|) && f in sets[t[|t| - 1]]
    ensures f in t
  {
    var i := t[|t| - 1];
    assert SetEq(next, starts, sets, m, i);
    assert Enters(next, sets, m, i, f) || !Enters(next, sets, m, i, f);
    if |t| > 1 && f != i {
      assert t[|t| - 2] in m && i in next[t[|t| - 2]];
      TrailPasses(next, m, starts, sets, t[..|t| - 1], f);
    }
  }

  /** What is not in the set of i is avoided by some way to i. */
  lemma {:induction false} TrailAvoids(next: Next, m: set<int>, starts: set<int>, sets: seq<set<int>>,
                                       rank: map<int, nat>, top: nat, i: int, f: int)
      returns (t: seq<int>)
    requires Swept(next, m, starts, sets, m) && i in m && IsItem(f, |next|) && f !in sets[i]
    requires m <= rank.Keys && forall d | d in m :: rank[d] <= top
    requires forall d, j | d in m && j in m && 0 <= d < |next| && j in next[d] :: rank[j] < rank[d]
    ensures Trail(next, starts, t) && t[|t| - 1] == i && f !in t
    decreases top - rank[i]
  {
    assert SetEq(next, starts, sets, m, i);
    assert Enters(next, sets, m, i, f) || !Enters(next, sets, m, i, f);
    if i in starts {
      t := [i];
    } else {
      var d :| d in m && 0 <= d < |next| && i in next[d] && f !in sets[d];
      t := TrailAvoids(next, m, starts, sets, rank, top, d, f);
      t := t + [i];
    }
  }

  lemma {:induction false} TrailStays(next: Next, m: set<int>, starts: set<int>, t: seq<int>)
    requires Trail(next, starts, t) && starts <= m && forall d | d in m && 0 <= d < |next| :: next[d] <= m
    ensures forall k | 0 <= k < |t| :: t[k] in m
  {
    if |t| > 1 {
      TrailStays(next, m, starts, t[..|t| - 1]);
      assert t[..|t| - 1][|t| - 2] in m;
    }
  }

  /** The sweep is exact: f is in the set of i if and only if every way from a
      start to i passes f. */
  lemma DominatorsExact(next: Next, m: set<int>, starts: set<int>, sets: seq<set<int>>,
                        rank: map<int, nat>, top: nat, i: int, f: int)
    requires Swept(next, m, starts, sets, m) && i in m && IsItem(f, |next|)
    requires starts <= m && forall d | d in m && 0 <= d < |next| :: next[d] <= m
    requires m <= rank.Keys && forall d | d in m :: rank[d] <= top
    requires forall d, j | d in m && j in m && 0 <= d < |next| && j in next[d] :: rank[j] < rank[d]
    ensures f in sets[i] <==> forall t | Trail(next, starts, t) && t[|t| - 1] == i :: f in t
  {
    if f in sets[i] {
      forall t | Trail(next, starts, t) && t[|t| - 1] == i ensures f in t {
        TrailStays(next, m, starts, t);
        TrailPasses(next, m, starts, sets, t, f);
      }
    } else {
      var t := TrailAvoids(next, m, starts, sets, rank, top, i, f);
    }
  }

  // -------------------------------------------------------- blocks and edges

  /** A block leads to its successors. */
  ghost function BlockNext(pool: Pool): (next: Next)
    ensures |next| == |pool|
  {
    seq(|pool|, b requires 0 <= b < |pool| => if pool[b].s.Ret? then {} else {pool[b].jt, pool[b].jf})
  }

  /** The true edge of block b has number b, its false edge number |pool| + b. */
  function PredOf(pool: Pool, e: int): int {
    if e < |pool| then e else e - |pool|
  }

  predicate OnTrue(pool: Pool, e: int) {
    e < |pool|
  }

  function SuccOf(pool: Pool, e: int): int
    requires 0 <= e < 2 * |pool|
  {
    if e < |pool| then pool[e].jt else pool[e - |pool|].jf
  }

  /** An edge leads to the edges of the block that it enters. */
  ghost function EdgeNext(pool: Pool): (next: Next)
    ensures |next| == 2 * |pool|
  {
    seq(2 * |pool|, e requires 0 <= e < 2 * |pool| =>
      if pool[PredOf(pool, e)].s.Ret? then {} else {SuccOf(pool, e), |pool| + SuccOf(pool, e)})
  }

  /** The edges of the blocks in m. */
  ghost function EdgesIn(pool: Pool, m: set<int>): set<int> {
    set e | 0 <= e < 2 * |pool| && PredOf(pool, e) in m
  }

  /** What FindLevels leaves behind, for the blocks m below root. */
  ghost predicate Leveled(pool: Pool, level: seq<nat>, levels: seq<seq<int>>, m: set<int>, root: int) {
    && LeavesEnd(pool) && AllLeveled(pool, level, m) && Listed(level, levels, m)
    && root in m && 0 <= root < |pool| == |level| && level[root] < |levels|
    && (forall x | x in m :: 0 <= x < |pool|)
    && (forall x | x in m :: level[x] <= level[root])
    && forall x | x in m && x != root :: level[x] < level[root]
  }

  /** The sweep has come to position k of list i: done is what it has passed. */
  ghost predicate Passed(level: seq<nat>, levels: seq<seq<int>>, m: set<int>, i: int, k: int, done: set<int>) {
    && |levels| == |level| && -1 <= i < |levels| && done <= m
    && (forall x | x in m :: 0 <= x < |level|)
    && (i == -1 ==> k == 0 && done == m)
    && (i >= 0 ==>
         && 0 <= k <= |levels[i]|
         && forall x | x in m :: x in done <==> level[x] > i || x in levels[i][..k])
  }

  /** Levels fall along the edges, so that what leads to the next block of the
      sweep has been passed, and the block itself has not. */
  lemma PassedNext(pool: Pool, level: seq<nat>, levels: seq<seq<int>>, m: set<int>, root: int, i: nat, k: nat,
      done: set<int>)
    requires Leveled(pool, level, levels, m, root) && Passed(level, levels, m, i, k, done) && k < |levels[i]|
    ensures var b := levels[i][k];
      && b in m && 0 <= b < |pool| && level[b] == i && b !in done
      && (forall d | d in m && pool[d].s.Jmp? && (pool[d].jt == b || pool[d].jf == b) :: d in done)
      && (pool[b].s.Jmp? ==> pool[b].jt !in {b, root} && pool[b].jf !in {b, root} && pool[b].jt in m && pool[b].jf in m)
      && Passed(level, levels, m, i, k + 1, done + {b})
  {
    var b := levels[i][k];
    assert b in levels[i] && NodeLeveled(pool, level, m, b);
    forall d | d in m && pool[d].s.Jmp? && (pool[d].jt == b || pool[d].jf == b) ensures d in done {
      assert NodeLeveled(pool, level, m, d);
    }
    assert levels[i][..k + 1] == levels[i][..k] + [b];
  }

  lemma PassedList(level: seq<nat>, levels: seq<seq<int>>, m: set<int>, i: nat, done: set<int>)
    requires Listed(level, levels, m) && i < |levels| && Passed(level, levels, m, i, |levels[i]|, done)
    ensures Passed(level, levels, m, i - 1, 0, done)
  {
    assert levels[i][..|levels[i]|] == levels[i];
    forall x | x in m ensures x in done <==> level[x] > i - 1 {
      assert x in levels[i] <==> level[x] == i;
    }
    assert i == 0 ==> done == m by {
      if i == 0 {
        forall x | x in m ensures x in done {
          assert level[x] > -1;
        }
      }
    }
    assert i > 0 ==> levels[i - 1][..0] == [];
  }

  lemma PassedEdges(pool: Pool, level: seq<nat>, levels: seq<seq<int>>, m: set<int>, root: int, b: int, done: set<int>)
    requires Leveled(pool, level, levels, m, root) && b in m
    requires forall d | d in m && pool[d].s.Jmp? && (pool[d].jt == b || pool[d].jf == b) :: d in done
    ensures forall e | e in EdgesIn(pool, m) && pool[PredOf(pool, e)].s.Jmp? ::
      0 <= SuccOf(pool, e) < |pool| && (SuccOf(pool, e) == b ==> e in EdgesIn(pool, done))
  {
    forall e | e in EdgesIn(pool, m) && pool[PredOf(pool, e)].s.Jmp?
      ensures 0 <= SuccOf(pool, e) < |pool| && (SuccOf(pool, e) == b ==> e in EdgesIn(pool, done))
    {
      assert NodeLeveled(pool, level, m, PredOf(pool, e));
    }
  }

  lemma ReadyBlock(pool: Pool, m: set<int>, root: int, done: set<int>, b: int)
    requires b in m && 0 <= b < |pool| && b !in done
    requires forall d | d in m && 0 <= d < |pool| && pool[d].s.Jmp? && (pool[d].jt == b || pool[d].jf == b) :: d in done
    requires pool[b].s.Jmp? ==> pool[b].jt !in {b, root} && pool[b].jf !in {b, root}
    ensures Ready(BlockNext(pool), m, {root}, done, b)
  {
  }

  lemma ReadyEdge(pool: Pool, m: set<int>, root: int, done: set<int>, e: int)
    requires 0 <= e < 2 * |pool| && e !in done && PredOf(pool, e) in m && 0 <= root < |pool|
    requires forall d | 0 <= d < 2 * |pool| && PredOf(pool, d) in m && pool[PredOf(pool, d)].s.Jmp? ::
      0 <= SuccOf(pool, d) < |pool| && (SuccOf(pool, d) == PredOf(pool, e) ==> d in done)
    requires pool[PredOf(pool, e)].s.Jmp? ==>
      0 <= SuccOf(pool, e) < |pool| && SuccOf(pool, e) !in {PredOf(pool, e), root}
    ensures Ready(EdgeNext(pool), EdgesIn(pool, m), {root, |pool| + root}, done, e)
  {
  }

  function FullSet(n: nat): set<int> {
    set f | 0 <= f < n && IsItem(f, n)
  }

  lemma EdgesAdd(pool: Pool, done: set<int>, b: int)
    requires 0 <= b < |pool|
    ensures EdgesIn(pool, done + {b}) == EdgesIn(pool, done) + {b} + {|pool| + b}
  {
    forall e ensures e in EdgesIn(pool, done + {b}) <==> e in EdgesIn(pool, done) + {b} + {|pool| + b} {
      assert PredOf(pool, e) == b <==> e == b || e == |pool| + b;
    }
  }

  // ------------------------------------------------------- what they compute

  lemma BlocksFall(pool: Pool, level: seq<nat>, levels: seq<seq<int>>, m: set<int>, root: int, d: int)
    requires Leveled(pool, level, levels, m, root) && d in m
    ensures BlockNext(pool)[d] <= m && forall j | j in BlockNext(pool)[d] :: level[j] < level[d]
  {
    assert NodeLeveled(pool, level, m, d);
  }

  /** After FindDom: a dominates b if and only if every way from the root to b
      visits a. */
  lemma DomExact(pool: Pool, level: seq<nat>, levels: seq<seq<int>>, m: set<int>, root: int, dom: seq<set<int>>, b: int,
      a: int)
    requires Leveled(pool, level, levels, m, root) && Swept(BlockNext(pool), m, {root}, dom, m)
    requires b in m && 0 <= a < |pool|
    ensures a in dom[b] <==> forall t | Trail(BlockNext(pool), {root}, t) && t[|t| - 1] == b :: a in t
  {
    forall d | d in m ensures BlockNext(pool)[d] <= m && forall j | j in BlockNext(pool)[d] :: level[j] < level[d] {
      BlocksFall(pool, level, levels, m, root, d);
    }
    DominatorsExact(BlockNext(pool), m, {root}, dom, map x | x in m :: level[x], level[root], b, a);
  }

  /** After FindEdom: f dominates e if and only if every way from the root that
      takes the edge e has taken the edge f, or is just taking it. */
  lemma EdomExact(pool: Pool, level: seq<nat>, levels: seq<seq<int>>, m: set<int>, root: int, edom: seq<set<int>>,
      e: int, f: int)
    requires Leveled(pool, level, levels, m, root)
    requires Swept(EdgeNext(pool), EdgesIn(pool, m), {root, |pool| + root}, edom, EdgesIn(pool, m))
    requires 0 <= e < 2 * |pool| && PredOf(pool, e) in m && 0 <= f < 2 * |pool|
    ensures f in edom[e] <==> forall t | Trail(EdgeNext(pool), {root, |pool| + root}, t) && t[|t| - 1] == e :: f in t
  {
    var edges := EdgesIn(pool, m);
    forall d | d in edges
      ensures EdgeNext(pool)[d] <= edges && forall j | j in EdgeNext(pool)[d] ::
        level[PredOf(pool, j)] < level[PredOf(pool, d)]
    {
      BlocksFall(pool, level, levels, m, root, PredOf(pool, d));
    }
    DominatorsExact(EdgeNext(pool), edges, {root, |pool| + root}, edom, map d | d in edges ::
      level[PredOf(pool, d)], level[root], e, f);
  }

  /** What dominates an edge without being it dominates every edge that leads to
      its block; and the block is not the root. */
  lemma EdomUp(pool: Pool, m: set<int>, root: int, edom: seq<set<int>>, e: int, f: int)
    requires Swept(EdgeNext(pool), EdgesIn(pool, m), {root, |pool| + root}, edom, EdgesIn(pool, m))
    requires 0 <= root < |pool| && 0 <= e < 2 * |pool| && PredOf(pool, e) in m && 0 <= f < 2 * |pool| && e != f
      && f in edom[e]
    ensures PredOf(pool, e) != root
    ensures forall d | d in EdgesIn(pool, m) && pool[PredOf(pool, d)].s.Jmp? && SuccOf(pool, d) == PredOf(pool, e) ::
      f in edom[d]
  {
    var next, starts, edges := EdgeNext(pool), {root, |pool| + root}, EdgesIn(pool, m);
    assert SetEq(next, starts, edom, edges, e);
    assert Enters(next, edom, edges, e, f);
    assert e !in starts;
    forall d | d in edges && pool[PredOf(pool, d)].s.Jmp? && SuccOf(pool, d) == PredOf(pool, e) ensures f in edom[d] {
      assert e in next[d];
    }
  }

  class Dominator {
    const pool: Pool
    const level: seq<nat>
    const levels: seq<seq<int>>
    var dom: seq<set<int>>
    var edom: seq<set<int>>

    constructor (pool: Pool, level: seq<nat>, levels: seq<seq<int>>)
      ensures this.pool == pool && this.level == level && this.levels == levels
    {
      this.pool, this.level, this.levels := pool, level, levels;
      dom, edom := [], [];
    }

    method FindDom(root: int, ghost m: set<int>)
      requires Leveled(pool, level, levels, m, root)
      modifies `dom
      ensures Swept(BlockNext(pool), m, {root}, dom, m)
    {
      dom := seq(|pool|, b => FullSet(|pool|));
      dom := dom[root := {}];
      ghost var next, done := BlockNext(pool), {};
      StartSwept(next, m, {root}, dom);
      var i := level[root];
      assert Passed(level, levels, m, i, 0, {});
      while i >= 0
        invariant -1 <= i < |levels| && Passed(level, levels, m, i, 0, done)
        invariant Swept(next, m, {root}, dom, done)
      {
        var k := 0;
        while k < |levels[i]|
          invariant 0 <= k <= |levels[i]| && Passed(level, levels, m, i, k, done)
          invariant Swept(next, m, {root}, dom, done)
        {
          var b := levels[i][k];
          PassedNext(pool, level, levels, m, root, i, k, done);
          ReadyBlock(pool, m, root, done, b);
          ghost var was := dom;
          SweepBlock(b);
          StepSwept(next, m, {root}, was, done, b, dom);
          done := done + {b};
          k := k + 1;
        }
        PassedList(level, levels, m, i, done);
        i := i - 1;
      }
    }

    method SweepBlock(b: int)
      requires |dom| == |pool| && 0 <= b < |pool|
      requires pool[b].s.Ret? ==> pool[b].jt == NULL
      requires pool[b].s.Jmp? ==>
        0 <= pool[b].jt < |pool| && 0 <= pool[b].jf < |pool| && b != pool[b].jt && b != pool[b].jf
      modifies `dom
      ensures Step(BlockNext(pool), old(dom), b, dom)
    {
      dom := dom[b := dom[b] + {b}];
      if pool[b].jt != NULL {
        var t, f := pool[b].jt, pool[b].jf;
        dom := dom[t := dom[t] * dom[b]];
        dom := dom[f := dom[f] * dom[b]];
      }
    }

    method FindEdom(root: int, ghost m: set<int>)
      requires Leveled(pool, level, levels, m, root)
      modifies `edom
      ensures Swept(EdgeNext(pool), EdgesIn(pool, m), {root, |pool| + root}, edom, EdgesIn(pool, m))
    {
      var n := |pool|;
      edom := seq(2 * n, e => FullSet(2 * n));
      edom := edom[root := {}][n + root := {}];
      ghost var next, starts, edges, done := EdgeNext(pool), {root, n + root}, EdgesIn(pool, m), {};
      StartSwept(next, edges, starts, edom);
      var i := level[root];
      assert Passed(level, levels, m, i, 0, {}) && EdgesIn(pool, done) == {};
      while i >= 0
        invariant -1 <= i < |levels| && Passed(level, levels, m, i, 0, done)
        invariant Swept(next, edges, starts, edom, EdgesIn(pool, done))
      {
        var k := 0;
        while k < |levels[i]|
          invariant 0 <= k <= |levels[i]| && Passed(level, levels, m, i, k, done)
          invariant Swept(next, edges, starts, edom, EdgesIn(pool, done))
        {
          PassedNext(pool, level, levels, m, root, i, k, done);
          PassedEdges(pool, level, levels, m, root, levels[i][k], done);
          BothEdges(levels[i][k], root, m, done);
          done := done + {levels[i][k]};
          k := k + 1;
        }
        PassedList(level, levels, m, i, done);
        i := i - 1;
      }
    }

    /** The two edges of block b, one after the other. */
    method BothEdges(b: int, root: int, ghost m: set<int>, ghost done: set<int>)
      requires LeavesEnd(pool) && b in m && 0 <= b < |pool| && 0 <= root < |pool| && b !in done
      requires forall e | e in EdgesIn(pool, m) && pool[PredOf(pool, e)].s.Jmp? ::
        0 <= SuccOf(pool, e) < |pool| && (SuccOf(pool, e) == b ==> e in EdgesIn(pool, done))
      requires pool[b].s.Jmp? ==> pool[b].jt !in {b, root} && pool[b].jf !in {b, root}
      requires Swept(EdgeNext(pool), EdgesIn(pool, m), {root, |pool| + root}, edom, EdgesIn(pool, done))
      modifies `edom
      ensures Swept(EdgeNext(pool), EdgesIn(pool, m), {root, |pool| + root}, edom, EdgesIn(pool, done + {b}))
    {
      ghost var d := EdgesIn(pool, done);
      OneEdge(b, root, m, d);
      OneEdge(|pool| + b, root, m, d + {b});
      EdgesAdd(pool, done, b);
    }

    method OneEdge(e: int, root: int, ghost m: set<int>, ghost d: set<int>)
      requires LeavesEnd(pool) && 0 <= e < 2 * |pool| && e !in d && PredOf(pool, e) in m && 0 <= root < |pool|
      requires forall x | x in EdgesIn(pool, m) && pool[PredOf(pool, x)].s.Jmp? ::
        0 <= SuccOf(pool, x) < |pool| && (SuccOf(pool, x) == PredOf(pool, e) ==> x in d)
      requires pool[PredOf(pool, e)].s.Jmp? ==> SuccOf(pool, e) !in {PredOf(pool, e), root}
      requires Swept(EdgeNext(pool), EdgesIn(pool, m), {root, |pool| + root}, edom, d)
      modifies `edom
      ensures Swept(EdgeNext(pool), EdgesIn(pool, m), {root, |pool| + root}, edom, d + {e})
    {
      ReadyEdge(pool, m, root, d, e);
      ghost var was := edom;
      Propedom(e);
      StepSwept(EdgeNext(pool), EdgesIn(pool, m), {root, |pool| + root}, was, d, e, edom);
    }

    method Propedom(e: int)
      requires |edom| == 2 * |pool| && 0 <= e < 2 * |pool|
      requires pool[PredOf(pool, e)].s.Ret? ==> SuccOf(pool, e) == NULL
      requires pool[PredOf(pool, e)].s.Jmp? ==> 0 <= SuccOf(pool, e) < |pool| && SuccOf(pool, e) != PredOf(pool, e)
      modifies `edom
      ensures Step(EdgeNext(pool), old(edom), e, edom)
    {
      edom := edom[e := edom[e] + {e}];
      var s := SuccOf(pool, e);
      if s != NULL {
        edom := edom[s := edom[s] * edom[e]];
        edom := edom[|pool| + s := edom[|pool| + s] * edom[e]];
      }
    }
  }
}
