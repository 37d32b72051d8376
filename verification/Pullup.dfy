/** Pulling a test up an `or` chain or an `and` chain, to where the value that
    it tests was last loaded. */
module Pullup {
  import opened Basics
  import opened Bpf
  import opened Flow
  import opened Blocks
  import opened Levels
  import opened Dominators
  import opened Predecessors
  import opened Decisions
  import opened Chains

  function SetSucc(b: Block, taken: bool, t: int): Block {
    if taken then b.(jt := t) else b.(jf := t)
  }

  function EdgeNo(pool: Pool, x: int, taken: bool): int {
    if taken then x else |pool| + x
  }

  lemma ChainGrows(pool: Pool, side: bool, ws: seq<int>, t: int, d: int)
    requires Chain(pool, side, ws, t, d) && 0 <= d < |pool| && pool[d].s.Jmp? && Succ(pool[d], !side) == t
    ensures Chain(pool, side, ws + [d], t, Succ(pool[d], side))
  {
    forall k | 0 <= k < |ws + [d]| ensures Link(pool, side, ws + [d], t, Succ(pool[d], side), k) {
      if k < |ws| {
        assert Link(pool, side, ws, t, d, k);
      }
    }
  }

  lemma {:induction false} ChainDrop(pool: Pool, side: bool, ws: seq<int>, t: int, j: int, i: nat)
    requires Chain(pool, side, ws, t, j) && i <= |ws|
    ensures Chain(pool, side, ws[i..], t, j)
  {
    forall k | 0 <= k < |ws[i..]| ensures Link(pool, side, ws[i..], t, j, k) {
      assert Link(pool, side, ws, t, j, k + i);
    }
  }

  /** Tests that the first test of a chain dominates have no predecessor but
      the test before them. */
  lemma DominatedOnly(pool: Pool, level: seq<nat>, levels: seq<seq<int>>, r: map<int, nat>, root: int, m: set<int>,
                      dom: seq<set<int>>, side: bool, us: seq<int>, t: int, j: int)
    requires Ranked(GraphOf(pool), r) && Leveled(pool, level, levels, m, root) && m == Reach(GraphOf(pool), r, root)
    requires Swept(BlockNext(pool), m, {root}, dom, m) && Chain(pool, side, us, t, j)
    requires forall k | 0 <= k < |us| :: us[k] in m && us[0] in dom[us[k]]
    ensures OnlyChain(pool, m, us)
  {
    forall x | x in m ensures 0 <= x < |pool| && (pool[x].s.Jmp? ==> pool[x].jt in m && pool[x].jf in m) {
      assert NodeLeveled(pool, level, m, x);
    }
    forall x, k | x in m && 0 < k < |us| ensures Behind(pool, us, x, k) {
      if pool[x].s.Jmp? && (pool[x].jt == us[k] || pool[x].jf == us[k]) {
        DominatedBehind(pool, level, levels, r, root, m, dom, side, us, t, j, x, k);
      }
    }
  }

  lemma DominatedBehind(pool: Pool, level: seq<nat>, levels: seq<seq<int>>, r: map<int, nat>, root: int, m: set<int>,
                        dom: seq<set<int>>, side: bool, us: seq<int>, t: int, j: int, x: int, k: nat)
    requires Ranked(GraphOf(pool), r) && Leveled(pool, level, levels, m, root) && m == Reach(GraphOf(pool), r, root)
    requires Swept(BlockNext(pool), m, {root}, dom, m) && Chain(pool, side, us, t, j)
    requires 0 < k < |us| && us[k] in m && us[0] in dom[us[k]] && 0 <= us[0] < |pool|
    requires x in m && 0 <= x < |pool| && pool[x].s.Jmp? && (pool[x].jt == us[k] || pool[x].jf == us[k])
    ensures x == us[k - 1]
  {
    ChainFalls(pool, r, side, us, t, j, 0, k);
    assert SetEq(BlockNext(pool), {root}, dom, m, us[k]);
    assert Enters(BlockNext(pool), dom, m, us[k], us[0]);
    assert us[k] in BlockNext(pool)[x];
    DominatedReached(pool, level, levels, r, root, m, dom, us[0], x);
    ChainOnly(pool, r, side, us, t, j, 0, k, x);
  }

  /** The part of a chain from test i on. */
  lemma OnlyChainDrop(pool: Pool, m: set<int>, us: seq<int>, i: nat)
    requires OnlyChain(pool, m, us) && i < |us|
    ensures OnlyChain(pool, m, us[i..])
    ensures i > 0 ==>
      forall x | x in m && pool[x].s.Jmp? && (pool[x].jt == us[i] || pool[x].jf == us[i]) :: x == us[i - 1]
  {
    forall x, k | x in m && 0 < k < |us[i..]| ensures Behind(pool, us[i..], x, k) {
      assert Behind(pool, us, x, k + i);
    }
    if i > 0 {
      forall x | x in m && pool[x].s.Jmp? && (pool[x].jt == us[i] || pool[x].jf == us[i]) ensures x == us[i - 1] {
        assert Behind(pool, us, x, i);
      }
    }
  }

  /** The last test is taken out of its place and put before the first. */
  function Unhooked(pool: Pool, side: bool, xs: seq<int>): (pool': Pool)
    requires |xs| >= 2 && 0 <= xs[|xs| - 1] < |pool| && 0 <= xs[|xs| - 2] < |pool|
  {
    var q, s := xs[|xs| - 2], xs[|xs| - 1];
    var pool1 := pool[q := SetSucc(pool[q], side, Succ(pool[s], side))];
    pool1[s := SetSucc(pool1[s], side, xs[0])]
  }

  /** Leaves have not been touched. */
  ghost predicate LeavesKept(pool: Pool, pool': Pool) {
    |pool'| == |pool| && forall x | 0 <= x < |pool| && pool[x].s.Ret? :: pool'[x] == pool[x]
  }

  lemma LeavesStay(pool: Pool, pool': Pool)
    requires LeavesEnd(pool) && LeavesKept(pool, pool') && SameTests(pool, pool')
    ensures LeavesEnd(pool')
  {
  }

  lemma LeavesTwice(a: Pool, b: Pool, c: Pool)
    requires LeavesKept(a, b) && LeavesKept(b, c)
    ensures LeavesKept(a, c)
  {
  }

  lemma UnhookedLeaves(pool: Pool, side: bool, xs: seq<int>, prev: int)
    requires |xs| >= 2 && AllTests(pool, xs) && (prev == NULL || (0 <= prev < |pool| && pool[prev].s.Jmp?))
    ensures var pool1 := Unhooked(pool, side, xs);
      LeavesKept(pool, if prev == NULL then pool1 else pool1[prev := SetSucc(pool1[prev], side, xs[|xs| - 1])])
  {
    assert pool[xs[|xs| - 1]].s.Jmp? && pool[xs[|xs| - 2]].s.Jmp?;
  }

  /** ... and the edges that entered the first now enter it. */
  ghost predicate Redirected(pool1: Pool, pool': Pool, m: set<int>, d: int, s: int, x: int, taken: bool)
    requires 0 <= x < |pool1| == |pool'|
  {
    Succ(pool'[x], taken) == if x in m && x != s && Succ(pool1[x], taken) == d then s else Succ(pool1[x], taken)
  }

  /** What the moves make of the graph. */
  ghost predicate Hooked(pool: Pool, pool': Pool, m: set<int>, side: bool, xs: seq<int>)
    requires |xs| >= 2 && 0 <= xs[|xs| - 1] < |pool| && 0 <= xs[|xs| - 2] < |pool|
  {
    var pool1, d, s := Unhooked(pool, side, xs), xs[0], xs[|xs| - 1];
    && SameTests(pool, pool') && (forall x | 0 <= x < |pool| && x !in m :: pool'[x] == pool[x])
    && forall x, taken {:trigger Redirected(pool1, pool', m, d, s, x, taken)} | 0 <= x < |pool| && pool[x].s.Jmp? ::
         Redirected(pool1, pool', m, d, s, x, taken)
  }

  lemma PulledByMoves(pool: Pool, pool': Pool, r: map<int, nat>, m: set<int>, side: bool, xs: seq<int>, t: int, j: int)
    requires Ranked(GraphOf(pool), r) && Chain(pool, side, xs, t, j) && |xs| >= 2 && OnlyChain(pool, m, xs)
    requires 0 <= xs[|xs| - 1] < |pool| && 0 <= xs[|xs| - 2] < |pool| && Hooked(pool, pool', m, side, xs)
    ensures Pulled(pool, pool', m, side, xs)
  {
    var n := |xs| - 1;
    LinkFalls(pool, r, side, xs, t, j, n);
    LinkFalls(pool, r, side, xs, t, j, n - 1);
    ChainFalls(pool, r, side, xs, t, j, 0, n);
    forall x, taken | x in m && 0 <= x < |pool| && pool[x].s.Jmp?
      ensures Succ(pool'[x], taken) == NewSucc(pool, side, xs, x, taken)
    {
      assert Redirected(Unhooked(pool, side, xs), pool', m, xs[0], xs[n], x, taken);
      assert GraphOf(pool)[x] == NodeOf(pool[x]) && Falls(GraphOf(pool), r, x);
    }
    ChainTests(pool, side, xs, t, j);
  }

  /** Inside the chain only the test before d leads to d. */
  lemma InsideRedirected(pool: Pool, pool': Pool, r: map<int, nat>, m: set<int>, side: bool, prev: int, xs: seq<int>,
      t: int, j: int, x: int, taken: bool)
    requires Ranked(GraphOf(pool), r) && |xs| >= 2 && Chain(pool, side, [prev] + xs, t, j)
      && OnlyChain(pool, m, [prev] + xs)
    requires 0 <= x < |pool| && pool[x].s.Jmp? && 0 <= xs[|xs| - 1] < |pool| && 0 <= xs[|xs| - 2] < |pool|
      && 0 <= prev < |pool|
    requires pool' == Unhooked(pool, side, xs)[prev := SetSucc(Unhooked(pool, side, xs)[prev], side, xs[|xs| - 1])]
    ensures Redirected(Unhooked(pool, side, xs), pool', m, xs[0], xs[|xs| - 1], x, taken)
  {
    var us, n := [prev] + xs, |xs|;
    assert us[1] == xs[0] && us[n] == xs[n - 1] && us[n - 1] == xs[n - 2];
    assert prev == us[0] && prev in m && (x in m ==> Behind(pool, us, x, 1));
    LinkFalls(pool, r, side, us, t, j, 0);
    LinkFalls(pool, r, side, us, t, j, 1);
    LinkFalls(pool, r, side, us, t, j, n);
    ChainFalls(pool, r, side, us, t, j, 0, n);
    ChainFalls(pool, r, side, us, t, j, 0, n - 1);
    ChainFalls(pool, r, side, us, t, j, 1, n);
  }

  lemma UnhookedTests(pool: Pool, m: set<int>, side: bool, xs: seq<int>)
    requires |xs| >= 2 && 0 <= xs[|xs| - 1] < |pool| && 0 <= xs[|xs| - 2] < |pool| && OnlyChain(pool, m, xs)
    ensures SameTests(pool, Unhooked(pool, side, xs))
    ensures forall x | 0 <= x < |pool| && x !in m :: Unhooked(pool, side, xs)[x] == pool[x]
  {
    assert xs[|xs| - 1] in m && xs[|xs| - 2] in m;
  }

  lemma InsideAll(was: Pool, pool: Pool, r: map<int, nat>, m: set<int>, side: bool, ws: seq<int>, xs: seq<int>, t: int,
      j: int)
    requires Ranked(GraphOf(was), r) && ws != [] && |xs| >= 2 && Chain(was, side, ws + xs, t, j)
      && OnlyChain(was, m, ws + xs)
    requires 0 <= xs[|xs| - 1] < |was| && 0 <= xs[|xs| - 2] < |was| && 0 <= ws[|ws| - 1] < |was|
    requires pool ==
      Unhooked(was, side, xs)[ws[|ws| - 1] := SetSucc(Unhooked(was, side, xs)[ws[|ws| - 1]], side, xs[|xs| - 1])]
    ensures ws[|ws| - 1] in m
    ensures forall x, taken {:trigger Redirected(Unhooked(was, side, xs), pool, m, xs[0], xs[|xs| - 1], x,
      taken)} | 0 <= x < |was| && was[x].s.Jmp? ::
      Redirected(Unhooked(was, side, xs), pool, m, xs[0], xs[|xs| - 1], x, taken)
  {
    var prev := ws[|ws| - 1];
    assert (ws + xs)[|ws| - 1] == prev && prev in m;
    ChainDrop(was, side, ws + xs, t, j, |ws| - 1);
    OnlyChainDrop(was, m, ws + xs, |ws| - 1);
    assert (ws + xs)[|ws| - 1..] == [prev] + xs;
    hide Chain, OnlyChain, Unhooked, Redirected;
    var pool1, d, s := Unhooked(was, side, xs), xs[0], xs[|xs| - 1];
    forall x, taken | 0 <= x < |was| && was[x].s.Jmp? ensures Redirected(pool1, pool, m, d, s, x, taken) {
      InsideRedirected(was, pool, r, m, side, prev, xs, t, j, x, taken);
    }
  }

  lemma HookedInside(was: Pool, pool: Pool, r: map<int, nat>, m: set<int>, side: bool, ws: seq<int>, xs: seq<int>,
      t: int, j: int)
    requires Ranked(GraphOf(was), r) && ws != [] && |xs| >= 2 && Chain(was, side, ws + xs, t, j)
    requires OnlyChain(was, m, ws + xs) && OnlyChain(was, m, xs) && AllTests(was, xs)
    requires var prev := ws[|ws| - 1];
      && 0 <= prev < |was|
      && pool == Unhooked(was, side, xs)[prev := SetSucc(Unhooked(was, side, xs)[prev], side, xs[|xs| - 1])]
    ensures Hooked(was, pool, m, side, xs)
  {
    InsideAll(was, pool, r, m, side, ws, xs, t, j);
    UnhookedTests(was, m, side, xs);
    hide Chain, OnlyChain, Unhooked, Redirected;
  }

  /** The edges into the first test are those that entered it before. */
  lemma TopInto(pool: Pool, r: map<int, nat>, m: set<int>, side: bool, xs: seq<int>, t: int, j: int, l: seq<int>)
    requires Ranked(GraphOf(pool), r) && |xs| >= 2 && Chain(pool, side, xs, t, j)
    requires 0 <= xs[|xs| - 1] < |pool| && 0 <= xs[|xs| - 2] < |pool| && InEdges(pool, m, xs[0], l)
    ensures EdgesInto(Unhooked(pool, side, xs), m, xs[0], xs[|xs| - 1], l) && xs[|xs| - 1] != xs[0]
  {
    var n := |xs| - 1;
    var pool1 := Unhooked(pool, side, xs);
    LinkFalls(pool, r, side, xs, t, j, n);
    LinkFalls(pool, r, side, xs, t, j, n - 1);
    ChainFalls(pool, r, side, xs, t, j, 0, n);
    forall x: int, taken: bool | 0 <= x < |pool| && pool[x].s.Jmp? && x != xs[n]
      ensures Succ(pool1[x], taken) == xs[0] <==> Succ(pool[x], taken) == xs[0]
    {
      assert GraphOf(pool)[x] == NodeOf(pool[x]) && Falls(GraphOf(pool), r, x);
      if x == xs[n - 1] && n - 1 > 0 {
        ChainFalls(pool, r, side, xs, t, j, 0, n - 1);
      }
    }
    forall e | 0 <= e < 2 * |pool| && PredOf(pool, e) != xs[n] && pool[PredOf(pool, e)].s.Jmp?
      ensures SuccOf(pool1, e) == xs[0] <==> SuccOf(pool, e) == xs[0]
    {
      assert SuccOf(pool1, e) == Succ(pool1[PredOf(pool, e)], OnTrue(pool, e));
      assert SuccOf(pool, e) == Succ(pool[PredOf(pool, e)], OnTrue(pool, e));
    }
    assert GraphOf(pool)[xs[n]] == NodeOf(pool[xs[n]]) && Falls(GraphOf(pool), r, xs[n]);
  }

  /** Of the edges of block x into b, those in P now enter s; as the true branch
      is looked at first, one edge of two turns the true branch. */
  ghost predicate Turned(was: Pool, pool: Pool, P: set<int>, b: int, s: int, x: int) {
    && 0 <= x < |was| == |pool|
    && pool[x].stmts == was[x].stmts && pool[x].s == was[x].s
    && pool[x].jt == (if was[x].jt == b && (x in P || |was| + x in P) then s else was[x].jt)
    && pool[x].jf == (if was[x].jf == b && |was| + x in P && (was[x].jt == b ==> x in P) then s else was[x].jf)
    && (x !in P && |was| + x !in P ==> pool[x] == was[x])
  }

  /** l holds edges into b, all that blocks of m other than s have. */
  ghost predicate EdgesInto(pool: Pool, m: set<int>, b: int, s: int, l: seq<int>) {
    && NoDups(l)
    && (forall e | e in l :: 0 <= e < 2 * |pool| && PredOf(pool, e) in m && PredOf(pool, e) != s
                             && pool[PredOf(pool, e)].s.Jmp? && SuccOf(pool, e) == b)
    && forall e | 0 <= e < 2 * |pool| && PredOf(pool, e) in m && PredOf(pool, e) != s
                  && pool[PredOf(pool, e)].s.Jmp? && SuccOf(pool, e) == b :: e in l
  }

  lemma TurnedAll(was: Pool, pool: Pool, m: set<int>, P: set<int>, b: int, s: int, l: seq<int>, x: int, taken: bool)
    requires EdgesInto(was, m, b, s, l) && (forall e :: e in P <==> e in l) && Turned(was, pool, P, b, s, x)
    requires was[x].s.Jmp? && s != b
    ensures Redirected(was, pool, m, b, s, x, taken)
  {
    var e := EdgeNo(was, x, taken);
    assert PredOf(was, e) == x && SuccOf(was, e) == Succ(was[x], taken);
    assert PredOf(was, x) == x && SuccOf(was, x) == was[x].jt;
    assert PredOf(was, |was| + x) == x && SuccOf(was, |was| + x) == was[x].jf;
  }

  lemma TurnOne(was: Pool, pool: Pool, m: set<int>, P: set<int>, b: int, s: int, l: seq<int>, e: int, x: int)
    requires EdgesInto(was, m, b, s, l) && e in l && e !in P && (forall f :: f in P ==> f in l) && s != b
    requires Turned(was, pool, P, b, s, PredOf(was, e)) && Turned(was, pool, P, b, s, x)
    ensures var y := PredOf(was, e);
      Turned(was, pool[y := if pool[y].jt == b then pool[y].(jt := s) else pool[y].(jf := s)], P + {e}, b, s, x)
  {
    assert PredOf(was, x) == x && SuccOf(was, x) == was[x].jt;
    assert PredOf(was, |was| + x) == x && SuccOf(was, |was| + x) == was[x].jf;
  }

  /** The root is above the chain, so that all packets come from above it. */
  lemma PulledMeaning(pool: Pool, pool': Pool, r: map<int, nat>, root: int, m: set<int>, side: bool, xs: seq<int>,
      t: int, j: int, y: int)
    requires Ranked(GraphOf(pool), r) && 0 <= root < |pool| && m == Reach(GraphOf(pool), r, root)
    requires Chain(pool, side, xs, t, j) && AllTests(pool, xs) && OnlyChain(pool, m, xs)
      && Pulled(pool, pool', m, side, xs)
    requires y in m && 0 <= y < |pool| && r[xs[0]] < r[y]
    ensures Ranked(GraphOf(pool'), PulledRank(pool, r, m, xs)) && root !in xs
    ensures forall p | Go(pool, r, root, p).Some? ::
      Go(pool', PulledRank(pool, r, m, xs), root, p) == Go(pool, r, root, p) <==>
      !(xs[0] in Visits(pool, r, root, p) && Spoils(pool, side, xs, p))
  {
    PulledRanked(pool, pool', r, m, side, xs, t, j);
    ReachClosed(GraphOf(pool), r, root, y);
    forall k | 0 <= k < |xs| ensures xs[k] != root {
      if k > 0 {
        ChainFalls(pool, r, side, xs, t, j, 0, k);
      }
    }
    forall p | Go(pool, r, root, p).Some?
      ensures Go(pool', PulledRank(pool, r, m, xs), root, p) == Go(pool, r, root, p) <==>
              !(xs[0] in Visits(pool, r, root, p) && Spoils(pool, side, xs, p))
    {
      PulledGo(pool, pool', r, m, side, xs, t, j, root, p);
    }
  }

  /** The accumulator comes into the first test with the number it has after
      the last. */
  ghost predicate SameIn(pool: Pool, m: set<int>, accNo: seq<int>, xs: seq<int>)
    requires |accNo| == |pool| && xs != [] && AllTests(pool, xs)
  {
    var d, s := xs[0], xs[|xs| - 1];
    forall y {:trigger Leads(pool, m, y, d)} | Leads(pool, m, y, d) :: accNo[y] == accNo[s]
  }

  lemma ValueTop(pool: Pool, m: set<int>, accNo: seq<int>, b: int, l: seq<int>, val: int, xs: seq<int>)
    requires |accNo| == |pool| && xs != [] && AllTests(pool, xs) && xs[0] == b && InEdges(pool, m, b, l)
    requires forall e | e in l :: accNo[PredOf(pool, e)] == val
    requires accNo[xs[|xs| - 1]] == val
    ensures SameIn(pool, m, accNo, xs)
  {
    forall x | Leads(pool, m, x, b) ensures accNo[x] == val {
      assert PredOf(pool, x) == x && SuccOf(pool, x) == pool[x].jt;
      assert PredOf(pool, |pool| + x) == x && SuccOf(pool, |pool| + x) == pool[x].jf;
    }
  }

  lemma ValueInside(pool: Pool, m: set<int>, accNo: seq<int>, us: seq<int>, i: nat, xs: seq<int>)
    requires |accNo| == |pool| && xs != [] && AllTests(pool, xs) && OnlyChain(pool, m, us)
    requires 0 < i < |us| && us[i] == xs[0] && 0 <= us[i - 1] < |pool| && accNo[us[i - 1]] == accNo[xs[|xs| - 1]]
    ensures SameIn(pool, m, accNo, xs)
  {
    forall x | Leads(pool, m, x, xs[0]) ensures accNo[x] == accNo[xs[|xs| - 1]] {
      assert Behind(pool, us, x, i);
    }
  }

  lemma TopAbove(pool: Pool, r: map<int, nat>, m: set<int>, b: int, l: seq<int>)
    requires Ranked(GraphOf(pool), r) && InEdges(pool, m, b, l) && l != [] && 0 <= b < |pool|
    ensures var y := PredOf(pool, l[0]); y in m && 0 <= y < |pool| && r[b] < r[y]
  {
    var y := PredOf(pool, l[0]);
    assert l[0] in l && GraphOf(pool)[y] == NodeOf(pool[y]) && Falls(GraphOf(pool), r, y);
  }

  /** The last of the tests xs has been pulled before the first, to where its
      number comes in. A packet that was not rejected on the spot fares as
      before if and only if the pulled test, should it now come to it, does not
      reject it. */
  ghost predicate PulledUp(pool: Pool, pool': Pool, r: map<int, nat>, root: int, m: set<int>, accNo: seq<int>,
      side: bool, xs: seq<int>) {
    && Ranked(GraphOf(pool), r) && 0 <= root < |pool| == |accNo| && ChainPulled(pool, pool', m, side, xs)
    && root !in xs && SameIn(pool, m, accNo, xs) && Ranked(GraphOf(pool'), PulledRank(pool, r, m, xs))
    && forall p | Go(pool, r, root, p).Some? ::
         Go(pool', PulledRank(pool, r, m, xs), root, p) == Go(pool, r, root, p) <==>
         !(xs[0] in Visits(pool, r, root, p) && Spoils(pool, side, xs, p))
  }

  lemma IsPulledUp(pool: Pool, pool': Pool, r: map<int, nat>, root: int, m: set<int>, accNo: seq<int>, side: bool,
      xs: seq<int>, t: int, j: int, y: int)
    requires Ranked(GraphOf(pool), r) && 0 <= root < |pool| == |accNo| && m == Reach(GraphOf(pool), r, root)
    requires |xs| >= 2 && Chain(pool, side, xs, t, j) && AllTests(pool, xs) && OnlyChain(pool, m, xs)
    requires Pulled(pool, pool', m, side, xs) && SameIn(pool, m, accNo, xs)
    requires y in m && 0 <= y < |pool| && r[xs[0]] < r[y]
    ensures PulledUp(pool, pool', r, root, m, accNo, side, xs)
  {
    PulledMeaning(pool, pool', r, root, m, side, xs, t, j, y);
    ChainIsPulled(pool, pool', m, side, xs, t, j);
    hide ChainPulled, SameIn, Pulled, OnlyChain, Chain, Spoils, PulledRank;
  }

  /** Test x belongs to the chain from b: all that come to it have come by b, and
      its other branch leads where that of b leads. */
  ghost predicate Linked(pool: Pool, m: set<int>, dom: seq<set<int>>, b: int, side: bool, x: int) {
    && 0 <= b < |pool| && 0 <= x < |pool| == |dom| && x in m && pool[x].s.Jmp? && b in dom[x]
    && Succ(pool[x], !side) == Succ(pool[b], !side)
  }

  ghost predicate LinkedAll(pool: Pool, m: set<int>, dom: seq<set<int>>, b: int, side: bool, us: seq<int>) {
    && (forall k | 0 <= k < |us| :: Linked(pool, m, dom, b, side, us[k]))
    && forall k | 0 <= k < |us| - 1 :: Succ(pool[us[k]], side) == us[k + 1]
  }

  /** The tests us are a chain down from b. One number, that of the last, comes in
      at b by all edges and stays up to test i; the tests from i on leave others,
      up to the last. */
  ghost predicate Pullable(pool: Pool, m: set<int>, dom: seq<set<int>>, accNo: seq<int>, b: int, side: bool,
      us: seq<int>, i: int) {
    && |accNo| == |pool| && 0 <= i && i + 2 <= |us| && us[0] == b
    && LinkedAll(pool, m, dom, b, side, us)
    && (exists y :: Leads(pool, m, y, b))
    && var v := accNo[us[|us| - 1]];
      && (forall y {:trigger Leads(pool, m, y, b)} | Leads(pool, m, y, b) :: accNo[y] == v)
      && (forall k | 0 <= k < i :: accNo[us[k]] == v)
      && forall k | i <= k < |us| - 1 :: accNo[us[k]] != v
  }

  /** No test can be pulled up the chain from b. */
  ghost predicate NotPullable(pool: Pool, m: set<int>, dom: seq<set<int>>, accNo: seq<int>, b: int, side: bool) {
    forall us, i {:trigger Pullable(pool, m, dom, accNo, b, side, us, i)} ::
      !Pullable(pool, m, dom, accNo, b, side, us, i)
  }

  class Puller {
    const level: seq<nat>
    const levels: seq<seq<int>>
    const dom: seq<set<int>>
    const inEdges: seq<seq<int>>
    const accNo: seq<int>
    const root: int
    ghost const r: map<int, nat>
    ghost const m: set<int>
    var pool: Pool
    var done: bool

    constructor (pool: Pool, level: seq<nat>, levels: seq<seq<int>>, dom: seq<set<int>>, inEdges: seq<seq<int>>,
                 accNo: seq<int>, root: int, ghost r: map<int, nat>, ghost m: set<int>)
      requires Ranked(GraphOf(pool), r) && Leveled(pool, level, levels, m, root) && m == Reach(GraphOf(pool), r, root)
      requires Swept(BlockNext(pool), m, {root}, dom, m) && |inEdges| == |accNo| == |pool|
      requires forall b | b in m && 0 <= b < |pool| :: InEdges(pool, m, b, inEdges[b])
      ensures Valid() && this.pool == pool && this.dom == dom && this.inEdges == inEdges && this.accNo == accNo
      ensures this.root == root && this.r == r && this.m == m && done
    {
      this.pool, this.level, this.levels, this.dom, this.inEdges, this.accNo := pool, level, levels, dom, inEdges,
        accNo;
      this.root, this.r, this.m, done := root, r, m, true;
    }

    /** Dominators, levels and predecessor lists are those of the graph in
        work. accNo[b] is the value number of the accumulator after block b. */
    ghost predicate Valid()
      reads this
    {
      && Ranked(GraphOf(pool), r) && Leveled(pool, level, levels, m, root) && m == Reach(GraphOf(pool), r, root)
      && Swept(BlockNext(pool), m, {root}, dom, m)
      && |inEdges| == |pool| == |accNo| && forall b | b in m && 0 <= b < |pool| :: InEdges(pool, m, b, inEdges[b])
    }

    /** ws is the part of the chain from b that comes before d. */
    ghost predicate Walked(side: bool, b: int, ws: seq<int>, d: int)
      requires 0 <= b < |pool|
      reads this
    {
      && d in m && 0 <= d < |pool| && (if ws == [] then d == b else ws[0] == b)
      && Chain(pool, side, ws, Succ(pool[b], !side), d)
      && forall k | 0 <= k < |ws| :: ws[k] in m && 0 <= ws[k] < |pool| == |dom| && b in dom[ws[k]]
    }

    lemma WalkOn(side: bool, b: int, ws: seq<int>, d: int)
      requires Valid() && b in m && 0 <= b < |pool| && pool[b].s.Jmp? && Walked(side, b, ws, d)
      requires Succ(pool[d], !side) == Succ(pool[b], !side) && b in dom[d]
      ensures pool[d].s.Jmp? && Succ(pool[d], side) in m
      ensures Walked(side, b, ws + [d], Succ(pool[d], side)) && r[Succ(pool[d], side)] < r[d]
    {
      assert NodeLeveled(pool, level, m, b) && NodeLeveled(pool, level, m, d);
      ChainGrows(pool, side, ws, Succ(pool[b], !side), d);
      assert GraphOf(pool)[d] == NodeOf(pool[d]) && Falls(GraphOf(pool), r, d);
    }

    /** Test x still belongs to the chain from b. */
    ghost predicate OnLink(b: int, side: bool, x: int)
      requires 0 <= b < |pool| && 0 <= x < |pool|
      reads this
    {
      Succ(pool[x], !side) == Succ(pool[b], !side) && x < |dom| && b in dom[x]
    }

    lemma LinkDown(b: int, side: bool, x: int)
      requires Valid() && b in m && 0 <= b < |pool| && pool[b].s.Jmp? && x in m && 0 <= x < |pool| && OnLink(b, side, x)
      ensures var y := Succ(pool[x], side); pool[x].s.Jmp? && y in m && 0 <= y < |pool| && r[y] < r[x]
    {
      assert NodeLeveled(pool, level, m, b) && NodeLeveled(pool, level, m, x);
      assert GraphOf(pool)[x] == NodeOf(pool[x]) && Falls(GraphOf(pool), r, x);
    }

    /** The first test of the chain, from x on, whose accumulator is (`same`) or
        is not number val; NULL if the chain ends before. */
    ghost function First(b: int, side: bool, val: int, same: bool, x: int): int
      requires Valid() && b in m && 0 <= b < |pool| && pool[b].s.Jmp? && x in m && 0 <= x < |pool|
      reads this
      decreases r[x]
    {
      if !OnLink(b, side, x) then NULL
      else if (accNo[x] == val) == same then x
      else
        LinkDown(b, side, x);
        First(b, side, val, same, Succ(pool[x], side))
    }

    /** The number that comes in at b, if only one does. */
    ghost function Incoming(b: int): Option<int>
      requires Valid() && b in m && 0 <= b < |pool|
      reads this
    {
      if inEdges[b] != [] && forall e | e in inEdges[b] :: accNo[PredOf(pool, e)] == accNo[PredOf(pool, inEdges[b][0])]
      then Some(accNo[PredOf(pool, inEdges[b][0])]) else None
    }

    /** The place to which a test is pulled, and that test; NULL if there is none. */
    ghost function Target(b: int, side: bool): (int, int)
      requires Valid() && b in m && 0 <= b < |pool| && pool[b].s.Jmp?
      reads this
    {
      if Incoming(b).None? then (NULL, NULL) else
      var d := First(b, side, Incoming(b).value, false, b);
      if d == NULL then (NULL, NULL) else
      FirstIn(b, side, Incoming(b).value, false, b);
      (d, First(b, side, Incoming(b).value, true, d))
    }

    lemma {:induction false} FirstIn(b: int, side: bool, val: int, same: bool, x: int)
      requires Valid() && b in m && 0 <= b < |pool| && pool[b].s.Jmp? && x in m && 0 <= x < |pool|
      ensures var y := First(b, side, val, same, x); y != NULL ==> y in m && 0 <= y < |pool|
      decreases r[x]
    {
      if OnLink(b, side, x) && (accNo[x] == val) != same {
        LinkDown(b, side, x);
        FirstIn(b, side, val, same, Succ(pool[x], side));
      }
    }

    /** Along a chain First finds what it looks for. */
    lemma {:induction false} FirstAlong(b: int, side: bool, val: int, same: bool, us: seq<int>, k: nat, n: nat)
      requires Valid() && b in m && 0 <= b < |pool| && pool[b].s.Jmp? && k <= n < |us|
      requires LinkedAll(pool, m, dom, b, side, us)
      requires (accNo[us[n]] == val) == same && forall j | k <= j < n :: (accNo[us[j]] == val) != same
      ensures First(b, side, val, same, us[k]) == us[n]
      decreases n - k
    {
      assert Linked(pool, m, dom, b, side, us[k]);
      if k < n {
        LinkDown(b, side, us[k]);
        FirstAlong(b, side, val, same, us, k + 1, n);
      }
    }

    /** What comes in at b, if it is the same number everywhere. */
    lemma IncomingIs(b: int, v: int, y: int)
      requires Valid() && b in m && 0 <= b < |pool| && Leads(pool, m, y, b)
      requires forall x {:trigger Leads(pool, m, x, b)} | Leads(pool, m, x, b) :: accNo[x] == v
      ensures Incoming(b) == Some(v)
    {
      assert InEdges(pool, m, b, inEdges[b]);
      var e := EdgeNo(pool, y, pool[y].jt == b);
      assert PredOf(pool, e) == y && SuccOf(pool, e) == b && e in inEdges[b];
      forall f | f in inEdges[b] ensures accNo[PredOf(pool, f)] == v {
        assert Leads(pool, m, PredOf(pool, f), b);
      }
      assert inEdges[b][0] in inEdges[b];
    }

    /** Where no target is found there is no chain to pull up. */
    lemma NoneToPull(b: int, side: bool)
      requires Valid() && b in m && 0 <= b < |pool| && pool[b].s.Jmp? && Target(b, side).1 == NULL
      ensures NotPullable(pool, m, dom, accNo, b, side)
    {
      forall us, i ensures !Pullable(pool, m, dom, accNo, b, side, us, i) {
        if Pullable(pool, m, dom, accNo, b, side, us, i) {
          var n := |us| - 1;
          var y :| Leads(pool, m, y, b);
          IncomingIs(b, accNo[us[n]], y);
          assert Linked(pool, m, dom, b, side, us[i]) && Linked(pool, m, dom, b, side, us[n]);
          FirstAlong(b, side, accNo[us[n]], false, us, 0, i);
          FirstAlong(b, side, accNo[us[n]], true, us, i, n);
        }
      }
    }

    /** The first test of the chain from b whose accumulator is not number val;
        prev is the test before it. */
    method FindDiff(b: int, side: bool, val: int) returns (found: bool, d: int, prev: int, ghost ws: seq<int>)
      requires Valid() && b in m && 0 <= b < |pool| && pool[b].s.Jmp?
      ensures found ==> Walked(side, b, ws, d) && accNo[d] != val
      ensures found ==> Succ(pool[d], !side) == Succ(pool[b], !side) && b in dom[d]
      ensures found ==> forall k | 0 <= k < |ws| :: accNo[ws[k]] == val
      ensures found ==> prev == if ws == [] then NULL else ws[|ws| - 1]
      ensures First(b, side, val, false, b) == if found then d else NULL
    {
      d, prev, ws := b, NULL, [];
      while true
        invariant Walked(side, b, ws, d) && (forall k | 0 <= k < |ws| :: accNo[ws[k]] == val)
        invariant prev == if ws == [] then NULL else ws[|ws| - 1]
        invariant First(b, side, val, false, b) == First(b, side, val, false, d)
        decreases r[d]
      {
        if Succ(pool[d], !side) != Succ(pool[b], !side) || b !in dom[d] {
          found := false;
          return;
        }
        if accNo[d] != val {
          found := true;
          return;
        }
        WalkOn(side, b, ws, d);
        ws := ws + [d];
        prev := d;
        d := Succ(pool[d], side);
      }
    }

    /** The next test after d whose accumulator is number val; q is the test
        before it. */
    method FindSame(b: int, side: bool, val: int, d: int, ghost ws: seq<int>)
        returns (found: bool, q: int, s: int, ghost xs: seq<int>)
      requires Valid() && b in m && 0 <= b < |pool| && pool[b].s.Jmp? && Walked(side, b, ws, d) && accNo[d] != val
      requires Succ(pool[d], !side) == Succ(pool[b], !side) && b in dom[d]
      ensures found ==> |xs| >= 2 && xs[0] == d && xs[|xs| - 2] == q && xs[|xs| - 1] == s && s in m && 0 <= s < |pool|
      ensures found ==> accNo[s] == val && forall k | 0 <= k < |xs| - 1 :: 0 <= xs[k] < |pool| && accNo[xs[k]] != val
      ensures found ==> Walked(side, b, ws + xs, Succ(pool[s], side))
      ensures First(b, side, val, true, d) == if found then s else NULL
    {
      WalkOn(side, b, ws, d);
      q, s, xs := d, Succ(pool[d], side), [d];
      while true
        invariant Walked(side, b, ws + xs, s) && xs != [] && xs[0] == d && xs[|xs| - 1] == q
        invariant forall k | 0 <= k < |xs| :: 0 <= xs[k] < |pool| && accNo[xs[k]] != val
        invariant First(b, side, val, true, d) == First(b, side, val, true, s)
        decreases r[s]
      {
        if Succ(pool[s], !side) != Succ(pool[b], !side) || b !in dom[s] {
          found := false;
          return;
        }
        WalkOn(side, b, ws + xs, s);
        assert ws + xs + [s] == ws + (xs + [s]);
        xs := xs + [s];
        if accNo[s] == val {
          found := true;
          return;
        }
        q, s := s, Succ(pool[s], side);
      }
    }

    /** Every edge that enters b now enters s. */
    method RedirectIns(b: int, s: int)
      requires 0 <= b < |inEdges| == |pool| && s != b && EdgesInto(pool, m, b, s, inEdges[b])
      modifies `pool
      ensures SameTests(old(pool), pool) && forall x | 0 <= x < |pool| && x !in m :: pool[x] == old(pool)[x]
      ensures forall x, taken {:trigger Redirected(old(pool), pool, m, b, s, x, taken)} | 0 <= x < |pool|
        && pool[x].s.Jmp? ::
        Redirected(old(pool), pool, m, b, s, x, taken)
      ensures LeavesKept(old(pool), pool)
    {
      ghost var was, P: set<int> := pool, {};
      var l := inEdges[b];
      var k := 0;
      while k < |l|
        invariant 0 <= k <= |l| && |pool| == |was| && forall e :: e in P <==> e in l[..k]
        invariant forall x {:trigger Turned(was, pool, P, b, s, x)} | 0 <= x < |pool| :: Turned(was, pool, P, b, s, x)
      {
        var e := l[k];
        var y := PredOf(pool, e);
        assert l[..k + 1] == l[..k] + [e] && e !in l[..k];
        assert e in l && 0 <= y < |pool| && Turned(was, pool, P, b, s, y);
        ghost var before, Q := pool, P;
        pool := pool[y := if pool[y].jt == b then pool[y].(jt := s) else pool[y].(jf := s)];
        P := P + {e};
        forall x | 0 <= x < |pool| ensures Turned(was, pool, P, b, s, x) {
          assert Turned(was, before, Q, b, s, x);
          TurnOne(was, before, m, Q, b, s, l, e, x);
        }
        k := k + 1;
      }
      assert l[..k] == l;
      forall x | 0 <= x < |pool|
        ensures pool[x].stmts == was[x].stmts && pool[x].s == was[x].s
        && (x !in m || was[x].s.Ret? ==> pool[x] == was[x])
      {
        assert Turned(was, pool, P, b, s, x);
        assert PredOf(was, x) == x && PredOf(was, |was| + x) == x;
      }
      forall x, taken | 0 <= x < |pool| && pool[x].s.Jmp? ensures Redirected(was, pool, m, b, s, x, taken) {
        assert Turned(was, pool, P, b, s, x);
        TurnedAll(was, pool, m, P, b, s, l, x, taken);
      }
    }

    lemma WalkedChain(b: int, side: bool, ws: seq<int>, xs: seq<int>, j: int)
      requires Valid() && b in m && 0 <= b < |pool| && pool[b].s.Jmp? && xs != [] && Walked(side, b, ws + xs, j)
      ensures Chain(pool, side, ws + xs, Succ(pool[b], !side), j) && AllTests(pool, ws + xs)
        && OnlyChain(pool, m, ws + xs)
      ensures Chain(pool, side, xs, Succ(pool[b], !side), j) && AllTests(pool, xs) && OnlyChain(pool, m, xs)
      ensures if ws == [] then xs[0] == b else 0 <= ws[|ws| - 1] < |pool| && pool[ws[|ws| - 1]].s.Jmp?
    {
      var us, t := ws + xs, Succ(pool[b], !side);
      DominatedOnly(pool, level, levels, r, root, m, dom, side, us, t, j);
      ChainDrop(pool, side, us, t, j, |ws|);
      OnlyChainDrop(pool, m, us, |ws|);
      assert us[|ws|..] == xs;
      ChainTests(pool, side, us, t, j);
      ChainTests(pool, side, xs, t, j);
      assert ws != [] ==> us[|ws| - 1] == ws[|ws| - 1];
    }

    /** Takes s out of its place after q and puts it before d. */
    method Hook(b: int, side: bool, d: int, q: int, s: int, prev: int, ghost ws: seq<int>, ghost xs: seq<int>,
        ghost t: int, ghost j: int)
      requires Valid() && b in m && 0 <= b < |pool| && OnlyChain(pool, m, ws + xs) && Chain(pool, side, ws + xs, t, j)
      requires Chain(pool, side, xs, t, j) && AllTests(pool, xs) && OnlyChain(pool, m, xs)
      requires |xs| >= 2 && xs[0] == d && xs[|xs| - 2] == q && xs[|xs| - 1] == s
      requires if ws == [] then d == b && prev == NULL
        else prev == ws[|ws| - 1] && 0 <= prev < |pool| && pool[prev].s.Jmp?
      modifies `pool, `done
      ensures !done && AllTests(old(pool), xs) && Hooked(old(pool), pool, m, side, xs)
      ensures LeavesKept(old(pool), pool)
    {
      hide LeavesKept, Hooked, Walked;
      ghost var was, l := pool, inEdges[b];
      assert InEdges(was, m, b, l);
      assert 0 <= xs[|xs| - 2] < |pool| && 0 <= xs[|xs| - 1] < |pool|;
      UnhookedTests(was, m, side, xs);
      UnhookedLeaves(was, side, xs, prev);
      Move(side, d, q, s, prev, xs);
      if prev == NULL {
        TopInto(was, r, m, side, xs, t, j, l);
        ghost var moved := pool;
        Redirect(b, s, side, was, xs);
        LeavesTwice(was, moved, pool);
      } else {
        HookedInside(was, pool, r, m, side, ws, xs, t, j);
      }
    }

    /** The first test was the top of the chain: what entered it enters s. */
    method Redirect(b: int, s: int, side: bool, ghost was: Pool, ghost xs: seq<int>)
      requires |xs| >= 2 && 0 <= xs[|xs| - 1] < |was| && 0 <= xs[|xs| - 2] < |was| && xs[0] == b && xs[|xs| - 1] == s
      requires pool == Unhooked(was, side, xs) && SameTests(was, pool) && forall x | 0 <= x < |was| && x !in m ::
        pool[x] == was[x]
      requires 0 <= b < |inEdges| == |pool| && s != b && EdgesInto(pool, m, b, s, inEdges[b])
      modifies `pool
      ensures Hooked(was, pool, m, side, xs) && LeavesKept(old(pool), pool)
    {
      RedirectIns(b, s);
    }

    method Pull(b: int, side: bool, d: int, q: int, s: int, prev: int, ghost ws: seq<int>, ghost xs: seq<int>)
      requires Valid() && b in m && 0 <= b < |pool| && pool[b].s.Jmp? && s in m && 0 <= s < |pool|
      requires |xs| >= 2 && xs[0] == d && xs[|xs| - 2] == q && xs[|xs| - 1] == s
      requires Walked(side, b, ws + xs, Succ(pool[s], side)) && prev == if ws == [] then NULL else ws[|ws| - 1]
      modifies `pool, `done
      ensures !done && Pulled(old(pool), pool, m, side, xs) && OnlyChain(old(pool), m, xs) && AllTests(old(pool), xs)
      ensures Chain(old(pool), side, xs, Succ(old(pool)[b], !side), Succ(old(pool)[s], side))
      ensures LeavesKept(old(pool), pool)
    {
      ghost var was, t, j := pool, Succ(pool[b], !side), Succ(pool[s], side);
      WalkedChain(b, side, ws, xs, j);
      Hook(b, side, d, q, s, prev, ws, xs, t, j);
      PulledByMoves(was, pool, r, m, side, xs, t, j);
    }

    method Move(side: bool, d: int, q: int, s: int, prev: int, ghost xs: seq<int>)
      requires 0 <= q < |pool| && 0 <= s < |pool| && (prev == NULL || 0 <= prev < |pool|)
      requires |xs| >= 2 && xs[0] == d && xs[|xs| - 2] == q && xs[|xs| - 1] == s
      modifies `pool, `done
      ensures !done
      ensures var pool1 := Unhooked(old(pool), side, xs);
        pool == if prev == NULL then pool1 else pool1[prev := SetSucc(pool1[prev], side, s)]
    {
      pool := pool[q := SetSucc(pool[q], side, Succ(pool[s], side))];
      pool := pool[s := SetSucc(pool[s], side, d)];
      if prev != NULL {
        pool := pool[prev := SetSucc(pool[prev], side, s)];
      }
      done := false;
    }

    /** All blocks that lead to b leave the same number in the accumulator. */
    method CommonValue(b: int) returns (ok: bool, val: int)
      requires Valid() && b in m && 0 <= b < |pool|
      ensures ok ==> inEdges[b] != [] && forall e | e in inEdges[b] :: accNo[PredOf(pool, e)] == val
      ensures Incoming(b) == if ok then Some(val) else None
    {
      var l := inEdges[b];
      assert InEdges(pool, m, b, l);
      if l == [] {
        return false, 0;
      }
      val := accNo[PredOf(pool, l[0])];
      var k := 1;
      while k < |l|
        invariant 1 <= k <= |l| && forall i | 0 <= i < k :: accNo[PredOf(pool, l[i])] == val
      {
        if val != accNo[PredOf(pool, l[k])] {
          return false, 0;
        }
        k := k + 1;
      }
      ok := true;
    }

    /** The test to pull, s, and its place, before d; q comes before s, prev
        before d. */
    method FindPull(b: int, side: bool)
        returns (found: bool, val: int, d: int, q: int, s: int, prev: int, ghost ws: seq<int>, ghost xs: seq<int>)
      requires Valid() && b in m && 0 <= b < |pool| && pool[b].s.Jmp?
      ensures found ==> inEdges[b] != [] && forall e | e in inEdges[b] :: accNo[PredOf(pool, e)] == val
      ensures found ==>
        |xs| >= 2 && xs[0] == d && xs[|xs| - 2] == q && xs[|xs| - 1] == s && s in m && 0 <= s < |pool|
        && accNo[s] == val
      ensures found ==>
        Walked(side, b, ws + xs, Succ(pool[s], side)) && forall k | 0 <= k < |ws| ::
        0 <= ws[k] < |pool| && accNo[ws[k]] == val
      ensures found ==> forall k | 0 <= k < |xs| - 1 :: 0 <= xs[k] < |pool| && accNo[xs[k]] != val
      ensures found ==> prev == if ws == [] then NULL else ws[|ws| - 1]
      ensures found ==> old(Target(b, side)).0 == d && old(Target(b, side)).1 == s
      ensures !found ==> old(Target(b, side)).1 == NULL
    {
      hide First, Walked;
      d, q, s, prev, ws, xs := NULL, NULL, NULL, NULL, [], [];
      found, val := CommonValue(b);
      if found {
        found, d, prev, ws := FindDiff(b, side, val);
        if found {
          WalkedTests(b, side, ws, d);
          found, q, s, xs := FindSame(b, side, val, d, ws);
        }
      }
    }

    lemma WalkedTests(b: int, side: bool, ws: seq<int>, d: int)
      requires Valid() && 0 <= b < |pool| && Walked(side, b, ws, d)
      ensures d in m && 0 <= d < |pool| && forall k | 0 <= k < |ws| :: 0 <= ws[k] < |pool|
    {
    }

    /** or_pullup and and_pullup: a test of the chain from b whose accumulator
        has the value that comes in at b is pulled up, before the first test
        with another. */
    method Pullup(b: int, side: bool) returns (ghost xs: seq<int>, ghost us: seq<int>)
      requires Valid() && b in m && 0 <= b < |pool| && pool[b].s.Jmp?
      modifies `pool, `done
      ensures xs == [] ==> NotPullable(old(pool), m, dom, accNo, b, side)
      ensures xs != [] ==>
        |us| >= |xs| && Pullable(old(pool), m, dom, accNo, b, side, us, |us| - |xs|) && us[|us| - |xs|..] == xs
      ensures xs == [] ==> pool == old(pool) && done == old(done)
      ensures xs != [] ==> !done && PulledUp(old(pool), pool, r, root, m, accNo, side, xs)
      ensures xs != [] <==> old(Target(b, side)).1 != NULL
      ensures xs != [] ==> xs[0] == old(Target(b, side)).0 && xs[|xs| - 1] == old(Target(b, side)).1
      ensures LeavesKept(old(pool), pool)
    {
      hide PulledUp, NotPullable, Pullable;
      var found, val, d, q, s, prev;
      ghost var ws;
      found, val, d, q, s, prev, ws, xs := FindPull(b, side);
      us := ws + xs;
      if found {
        IsPullable(b, side, val, s, ws, xs);
        PullFound(b, side, val, d, q, s, prev, ws, xs);
      } else {
        NoneToPull(b, side);
        xs := [];
      }
    }

    lemma IsPullable(b: int, side: bool, val: int, s: int, ws: seq<int>, xs: seq<int>)
      requires Valid() && b in m && 0 <= b < |pool| && pool[b].s.Jmp?
      requires inEdges[b] != [] && forall e | e in inEdges[b] :: accNo[PredOf(pool, e)] == val
      requires |xs| >= 2 && xs[|xs| - 1] == s && s in m && 0 <= s < |pool| && accNo[s] == val
      requires Walked(side, b, ws + xs, Succ(pool[s], side))
      requires forall k | 0 <= k < |ws| :: 0 <= ws[k] < |pool| && accNo[ws[k]] == val
      requires forall k | 0 <= k < |xs| - 1 :: 0 <= xs[k] < |pool| && accNo[xs[k]] != val
      ensures Pullable(pool, m, dom, accNo, b, side, ws + xs, |ws|) && (ws + xs)[|ws|..] == xs
    {
      var us, t := ws + xs, Succ(pool[b], !side);
      assert InEdges(pool, m, b, inEdges[b]);
      forall k | 0 <= k < |us| ensures Linked(pool, m, dom, b, side, us[k]) {
        assert Link(pool, side, us, t, Succ(pool[s], side), k);
      }
      forall k | 0 <= k < |us| - 1 ensures Succ(pool[us[k]], side) == us[k + 1] {
        assert Link(pool, side, us, t, Succ(pool[s], side), k);
      }
      assert inEdges[b][0] in inEdges[b] && Leads(pool, m, PredOf(pool, inEdges[b][0]), b);
      forall y | Leads(pool, m, y, b) ensures accNo[y] == val {
        assert PredOf(pool, y) == y && SuccOf(pool, y) == pool[y].jt;
        assert PredOf(pool, |pool| + y) == y && SuccOf(pool, |pool| + y) == pool[y].jf;
      }
    }

    method PullFound(b: int, side: bool, val: int, d: int, q: int, s: int, prev: int, ghost ws: seq<int>,
        ghost xs: seq<int>)
      requires Valid() && b in m && 0 <= b < |pool| && pool[b].s.Jmp?
      requires inEdges[b] != [] && forall e | e in inEdges[b] :: accNo[PredOf(pool, e)] == val
      requires |xs| >= 2 && xs[0] == d && xs[|xs| - 2] == q && xs[|xs| - 1] == s && s in m && 0 <= s < |pool|
        && accNo[s] == val
      requires Walked(side, b, ws + xs, Succ(pool[s], side)) && forall k | 0 <= k < |ws| ::
        0 <= ws[k] < |pool| && accNo[ws[k]] == val
      requires prev == if ws == [] then NULL else ws[|ws| - 1]
      modifies `pool, `done
      ensures !done && PulledUp(old(pool), pool, r, root, m, accNo, side, xs)
      ensures LeavesKept(old(pool), pool)
    {
      ghost var was, t, j := pool, Succ(pool[b], !side), Succ(pool[s], side);
      ValueIn(b, side, val, d, ws, xs, j);
      Pull(b, side, d, q, s, prev, ws, xs);
      hide PulledUp, Chain, OnlyChain, Pulled, SameIn, Walked;
      IsPulledUp(was, pool, r, root, m, accNo, side, xs, t, j, PredOf(was, inEdges[b][0]));
    }

    /** What comes into the first test has the number that is pulled. */
    lemma ValueIn(b: int, side: bool, val: int, d: int, ws: seq<int>, xs: seq<int>, j: int)
      requires Valid() && b in m && 0 <= b < |pool| && pool[b].s.Jmp? && xs != [] && xs[0] == d
        && Walked(side, b, ws + xs, j)
      requires inEdges[b] != [] && forall e | e in inEdges[b] :: accNo[PredOf(pool, e)] == val
      requires (forall k | 0 <= k < |ws| :: 0 <= ws[k] < |pool| && accNo[ws[k]] == val)
      requires 0 <= xs[|xs| - 1] < |pool| && accNo[xs[|xs| - 1]] == val
      ensures AllTests(pool, xs) && SameIn(pool, m, accNo, xs)
      ensures var y := PredOf(pool, inEdges[b][0]); y in m && 0 <= y < |pool| && r[xs[0]] < r[y]
    {
      var us, t := ws + xs, Succ(pool[b], !side);
      WalkedChain(b, side, ws, xs, j);
      assert InEdges(pool, m, b, inEdges[b]);
      TopAbove(pool, r, m, b, inEdges[b]);
      if ws == [] {
        ValueTop(pool, m, accNo, b, inEdges[b], val, xs);
      } else {
        assert us[0] == b && us[|ws|] == d && us[|ws| - 1] == ws[|ws| - 1];
        ChainFalls(pool, r, side, us, t, j, 0, |ws|);
        ValueInside(pool, m, accNo, us, |ws|, xs);
      }
    }
  }

  // ------------------------------------------- when no packet is treated worse

  /** Blocks of m that leave the same number in the accumulator reject the same
      packets on the spot. */
  ghost predicate LoadAlike(pool: Pool, m: set<int>, accNo: seq<int>) {
    && |accNo| == |pool|
    && forall a, b, p | a in m && b in m && 0 <= a < |pool| && 0 <= b < |pool| && accNo[a] == accNo[b]
                        && pool[a].s.Jmp? && pool[b].s.Jmp? ::
         Faults(pool[b], p) ==> Faults(pool[a], p)
  }

  lemma {:induction false} VisitsReach(pool: Pool, r: map<int, nat>, b: int, p: Packet, x: int)
    requires Ranked(GraphOf(pool), r) && 0 <= b < |pool| && x in Visits(pool, r, b, p)
    ensures x in Reach(GraphOf(pool), r, b)
    decreases r[b]
  {
    assert GraphOf(pool)[b] == NodeOf(pool[b]) && Falls(GraphOf(pool), r, b);
    if x != b {
      VisitsReach(pool, r, Succ(pool[b], Decide(pool[b], p)), p, x);
    }
  }

  /** If equal numbers mean equal loads, a pull spoils no packet: whoever comes
      to the chain has been through the same loads. */
  lemma PullSafe(pool: Pool, r: map<int, nat>, root: int, m: set<int>, accNo: seq<int>, side: bool, xs: seq<int>,
      p: Packet)
    requires Ranked(GraphOf(pool), r) && 0 <= root < |pool| && m == Reach(GraphOf(pool), r, root)
    requires LoadAlike(pool, m, accNo) && |xs| >= 2 && AllTests(pool, xs) && xs[|xs| - 1] in m
    requires SameIn(pool, m, accNo, xs) && xs[0] != root
    ensures !(xs[0] in Visits(pool, r, root, p) && Spoils(pool, side, xs, p))
  {
    if xs[0] in Visits(pool, r, root, p) {
      var y := VisitsPred(pool, r, root, p, xs[0]);
      VisitsReach(pool, r, root, p, y);
      assert Leads(pool, m, y, xs[0]);
    }
  }
}
