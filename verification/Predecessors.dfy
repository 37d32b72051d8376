/** The edges that enter each block. */
module Predecessors {
  import opened Basics
  import opened Blocks
  import opened Levels
  import opened Dominators

  /** Block y of m leads to d. */
  ghost predicate Leads(pool: Pool, m: set<int>, y: int, d: int) {
    y in m && 0 <= y < |pool| && pool[y].s.Jmp? && (pool[y].jt == d || pool[y].jf == d)
  }

  /** The list has every edge of a block of m that enters b, once. */
  ghost predicate InEdges(pool: Pool, m: set<int>, b: int, l: seq<int>) {
    && NoDups(l)
    && forall e :: e in l <==>
      0 <= e < 2 * |pool| && PredOf(pool, e) in m && pool[PredOf(pool, e)].s.Jmp? && SuccOf(pool, e) == b
  }

  /** l has the edges of E that enter b, each once. */
  ghost predicate Entering(pool: Pool, E: set<int>, b: int, l: seq<int>) {
    NoDups(l) && forall e :: e in l <==> e in E && 0 <= e < 2 * |pool| && SuccOf(pool, e) == b
  }

  /** The edges of the blocks in m that branch. */
  ghost function BranchEdges(pool: Pool, m: set<int>): set<int> {
    set e | 0 <= e < 2 * |pool| && PredOf(pool, e) in m && pool[PredOf(pool, e)].s.Jmp?
  }

  method LinkInEdge(pool: Pool, inEdges: seq<seq<int>>, e: int, ghost E: set<int>) returns (inEdges': seq<seq<int>>)
    requires |inEdges| == |pool| && 0 <= e < 2 * |pool| && e !in E && 0 <= SuccOf(pool, e) < |pool|
    requires forall b | 0 <= b < |pool| :: Entering(pool, E, b, inEdges[b])
    ensures |inEdges'| == |pool| && forall b | 0 <= b < |pool| :: Entering(pool, E + {e}, b, inEdges'[b])
  {
    var s := SuccOf(pool, e);
    inEdges' := inEdges[s := [e] + inEdges[s]];
    forall b | 0 <= b < |pool| ensures Entering(pool, E + {e}, b, inEdges'[b]) {
      assert Entering(pool, E, b, inEdges[b]);
      assert forall x :: x in [e] + inEdges[s] <==> x == e || x in inEdges[s];
    }
  }

  /** The lists of the edges that enter each block, from the root down. */
  method FindInEdges(pool: Pool, level: seq<nat>, levels: seq<seq<int>>, root: int, ghost m: set<int>)
      returns (inEdges: seq<seq<int>>)
    requires Leveled(pool, level, levels, m, root)
    ensures |inEdges| == |pool| && forall b | 0 <= b < |pool| :: InEdges(pool, m, b, inEdges[b])
  {
    inEdges := seq(|pool|, b => []);
    ghost var done: set<int> := {};
    var i := level[root];
    assert Passed(level, levels, m, i, 0, {}) && BranchEdges(pool, done) == {};
    while i > 0
      invariant 0 <= i < |levels| && Passed(level, levels, m, i, 0, done) && |inEdges| == |pool|
      invariant forall b | 0 <= b < |pool| :: Entering(pool, BranchEdges(pool, done), b, inEdges[b])
    {
      var k := 0;
      while k < |levels[i]|
        invariant 0 <= k <= |levels[i]| && Passed(level, levels, m, i, k, done) && |inEdges| == |pool|
        invariant forall b | 0 <= b < |pool| :: Entering(pool, BranchEdges(pool, done), b, inEdges[b])
      {
        PassedNext(pool, level, levels, m, root, i, k, done);
        inEdges := LinkBoth(pool, level, m, inEdges, levels[i][k], done);
        done := done + {levels[i][k]};
        k := k + 1;
      }
      PassedList(level, levels, m, i, done);
      i := i - 1;
    }
    AllEntering(pool, level, levels, m, root, done, inEdges);
  }

  method LinkBoth(pool: Pool, ghost level: seq<nat>, ghost m: set<int>, inEdges: seq<seq<int>>, b: int,
      ghost done: set<int>)
      returns (inEdges': seq<seq<int>>)
    requires NodeLeveled(pool, level, m, b) && b !in done && level[b] > 0 && |inEdges| == |pool|
    requires forall x | 0 <= x < |pool| :: Entering(pool, BranchEdges(pool, done), x, inEdges[x])
    ensures |inEdges'| == |pool| && forall x | 0 <= x < |pool| ::
      Entering(pool, BranchEdges(pool, done + {b}), x, inEdges'[x])
  {
    ghost var E := BranchEdges(pool, done);
    inEdges' := LinkInEdge(pool, inEdges, b, E);
    inEdges' := LinkInEdge(pool, inEdges', |pool| + b, E + {b});
    assert BranchEdges(pool, done + {b}) == E + {b} + {|pool| + b} by {
      forall e ensures e in BranchEdges(pool, done + {b}) <==> e in E + {b} + {|pool| + b} {
        assert PredOf(pool, e) == b <==> e == b || e == |pool| + b;
      }
    }
  }

  lemma AllEntering(pool: Pool, level: seq<nat>, levels: seq<seq<int>>, m: set<int>, root: int, done: set<int>,
      inEdges: seq<seq<int>>)
    requires Leveled(pool, level, levels, m, root) && |levels| > 0 && Passed(level, levels, m, 0, 0, done)
      && |inEdges| == |pool|
    requires forall b | 0 <= b < |pool| :: Entering(pool, BranchEdges(pool, done), b, inEdges[b])
    ensures forall b | 0 <= b < |pool| :: InEdges(pool, m, b, inEdges[b])
  {
    assert BranchEdges(pool, done) == BranchEdges(pool, m) by {
      forall x | x in m ensures x in done <==> pool[x].s.Jmp? {
        assert NodeLeveled(pool, level, m, x) && levels[0][..0] == [];
      }
    }
    forall b | 0 <= b < |pool| ensures InEdges(pool, m, b, inEdges[b]) {
      assert Entering(pool, BranchEdges(pool, done), b, inEdges[b]);
    }
  }
}
