/** The backward closure of the flow graph: for each block the blocks that can
    reach it, gathered in one sweep down the levels. */
module Closure {
  import opened Blocks
  import opened Dominators

  /** f is in the set of a swept item that leads to i. */
  ghost predicate Comes(next: Next, sets: seq<set<int>>, done: set<int>, i: int, f: int)
    requires |sets| == |next|
  {
    exists d :: d in done && 0 <= d < |next| && i in next[d] && f in sets[d]
  }

  ghost predicate UnionEq(next: Next, sets: seq<set<int>>, done: set<int>, i: int) {
    && 0 <= i < |next| == |sets|
    && forall f {:trigger Comes(next, sets, done, i, f)} :: f in sets[i] <==>
      (i in done && f == i) || Comes(next, sets, done, i, f)
  }

  /** The items of `done` have been swept: with an item, all that lead to it. */
  ghost predicate Gathered(next: Next, m: set<int>, sets: seq<set<int>>, done: set<int>) {
    && |sets| == |next| && done <= m && (forall i | i in m :: 0 <= i < |next|)
    && (forall d, i | d in m && i in done && 0 <= d < |next| && i in next[d] :: d in done)
    && forall i {:trigger UnionEq(next, sets, done, i)} | i in m :: UnionEq(next, sets, done, i)
  }

  /** sets' is sets after item i joined its own set, which was then added to the
      sets of the items it leads to. */
  ghost predicate GatherStep(next: Next, sets: seq<set<int>>, i: int, sets': seq<set<int>>) {
    && |sets'| == |sets| == |next| && 0 <= i < |next|
    && forall j | 0 <= j < |next| :: sets'[j] ==
         if j == i then sets[i] + {i} else if j in next[i] then sets[j] + (sets[i] + {i}) else sets[j]
  }

  lemma GatherComes(next: Next, m: set<int>, starts: set<int>, sets: seq<set<int>>, done: set<int>,
                    i: int, sets': seq<set<int>>, j: int, f: int)
    requires Gathered(next, m, sets, done) && Ready(next, m, starts, done, i) && GatherStep(next, sets, i, sets')
    ensures Comes(next, sets', done + {i}, j, f) <==>
      Comes(next, sets, done, j, f) || (j in next[i] && f in sets[i] + {i})
  {
    if Comes(next, sets, done, j, f) {
      var d :| d in done && 0 <= d < |next| && j in next[d] && f in sets[d];
      assert d in done + {i} && f in sets'[d];
    }
    if j in next[i] && f in sets[i] + {i} {
      assert i in done + {i} && f in sets'[i];
    }
    if Comes(next, sets', done + {i}, j, f) {
      var d :| d in done + {i} && 0 <= d < |next| && j in next[d] && f in sets'[d];
      assert d != i ==> d in done && d !in next[i];
    }
  }

  lemma GatherSwept(next: Next, m: set<int>, starts: set<int>, sets: seq<set<int>>, done: set<int>, i: int,
      sets': seq<set<int>>)
    requires Gathered(next, m, sets, done) && Ready(next, m, starts, done, i) && GatherStep(next, sets, i, sets')
    ensures Gathered(next, m, sets', done + {i})
  {
    forall j | j in m ensures UnionEq(next, sets', done + {i}, j) {
      assert UnionEq(next, sets, done, j) && UnionEq(next, sets, done, i);
      forall f ensures f in sets'[j] <==> (j in done + {i} && f == j) || Comes(next, sets', done + {i}, j, f) {
        GatherComes(next, m, starts, sets, done, i, sets', j, f);
        assert Comes(next, sets, done, j, f) || !Comes(next, sets, done, j, f);
      }
    }
  }

  lemma {:induction false} TrailGathered(next: Next, m: set<int>, sets: seq<set<int>>, t: seq<int>, f: int)
    requires Gathered(next, m, sets, m) && Trail(next, {f}, t) && forall k | 0 <= k < |t| :: t[k] in m
    ensures f in sets[t[|t| - 1]]
  {
    var i := t[|t| - 1];
    assert UnionEq(next, sets, m, i);
    assert Comes(next, sets, m, i, f) || !Comes(next, sets, m, i, f);
    if |t| > 1 {
      TrailGathered(next, m, sets, t[..|t| - 1], f);
      assert t[|t| - 2] in m && i in next[t[|t| - 2]];
    }
  }

  lemma {:induction false} GatheredTrail(next: Next, m: set<int>, sets: seq<set<int>>, rank: map<int, nat>, top: nat,
      i: int, f: int)
      returns (t: seq<int>)
    requires Gathered(next, m, sets, m) && i in m && f in sets[i]
    requires m <= rank.Keys && forall d | d in m :: rank[d] <= top
    requires forall d, j | d in m && j in m && 0 <= d < |next| && j in next[d] :: rank[j] < rank[d]
    ensures Trail(next, {f}, t) && t[|t| - 1] == i && f in m
    decreases top - rank[i]
  {
    assert UnionEq(next, sets, m, i);
    assert Comes(next, sets, m, i, f) || !Comes(next, sets, m, i, f);
    if i == f {
      t := [i];
    } else {
      var d :| d in m && 0 <= d < |next| && i in next[d] && f in sets[d];
      t := GatheredTrail(next, m, sets, rank, top, d, f);
      t := t + [i];
    }
  }

  /** After FindClosure: a is in the set of b if and only if some way leads from
      a to b. */
  lemma ClosureExact(pool: Pool, level: seq<nat>, levels: seq<seq<int>>, m: set<int>, root: int, closure: seq<set<int>>,
      b: int, a: int)
    requires Leveled(pool, level, levels, m, root) && Gathered(BlockNext(pool), m, closure, m) && b in m && a in m
    ensures a in closure[b] <==> exists t :: Trail(BlockNext(pool), {a}, t) && t[|t| - 1] == b
  {
    var next, rank := BlockNext(pool), map x | x in m :: level[x];
    forall d | d in m ensures next[d] <= m && forall j | j in next[d] :: level[j] < level[d] {
      BlocksFall(pool, level, levels, m, root, d);
    }
    forall t | Trail(next, {a}, t) && t[|t| - 1] == b ensures a in closure[b] {
      TrailStays(next, m, {a}, t);
      TrailGathered(next, m, closure, t, a);
    }
    if a in closure[b] {
      var t := GatheredTrail(next, m, closure, rank, level[root], b, a);
    }
  }

  class Closer {
    const pool: Pool
    const level: seq<nat>
    const levels: seq<seq<int>>
    var closure: seq<set<int>>

    constructor (pool: Pool, level: seq<nat>, levels: seq<seq<int>>)
      ensures this.pool == pool && this.level == level && this.levels == levels
    {
      this.pool, this.level, this.levels, closure := pool, level, levels, [];
    }

    method FindClosure(root: int, ghost m: set<int>)
      requires Leveled(pool, level, levels, m, root)
      modifies `closure
      ensures Gathered(BlockNext(pool), m, closure, m)
    {
      closure := seq(|pool|, b => {});
      ghost var next, done := BlockNext(pool), {};
      var i := level[root];
      assert Passed(level, levels, m, i, 0, {});
      while i >= 0
        invariant -1 <= i < |levels| && Passed(level, levels, m, i, 0, done)
        invariant Gathered(next, m, closure, done)
      {
        var k := 0;
        while k < |levels[i]|
          invariant 0 <= k <= |levels[i]| && Passed(level, levels, m, i, k, done)
          invariant Gathered(next, m, closure, done)
        {
          var b := levels[i][k];
          PassedNext(pool, level, levels, m, root, i, k, done);
          ReadyBlock(pool, m, root, done, b);
          ghost var was := closure;
          SweepBlock(b);
          GatherSwept(next, m, {root}, was, done, b, closure);
          done := done + {b};
          k := k + 1;
        }
        PassedList(level, levels, m, i, done);
        i := i - 1;
      }
    }

    method SweepBlock(b: int)
      requires |closure| == |pool| && 0 <= b < |pool|
      requires pool[b].s.Ret? ==> pool[b].jt == NULL
      requires pool[b].s.Jmp? ==>
        0 <= pool[b].jt < |pool| && 0 <= pool[b].jf < |pool| && b != pool[b].jt && b != pool[b].jf
      modifies `closure
      ensures GatherStep(BlockNext(pool), old(closure), b, closure)
    {
      closure := closure[b := closure[b] + {b}];
      if pool[b].jt != NULL {
        var t, f := pool[b].jt, pool[b].jf;
        closure := closure[t := closure[t] + closure[b]];
        closure := closure[f := closure[f] + closure[b]];
      }
    }
  }
}
