/** Chains of tests with a common target, as `or` and `and` make them: what
    happens when a test is pulled up its chain. */
module Chains {
  import opened Basics
  import opened Bpf
  import opened Flow
  import opened Blocks
  import opened Levels
  import opened Dominators
  import opened Decisions

  /** The tests xs follow one another on the given side, and all have the
      target t on the other side; after the last comes j. An `or` chain follows
      false branches, an `and` chain true ones. */
  ghost predicate Chain(pool: Pool, side: bool, xs: seq<int>, t: int, j: int) {
    forall k {:trigger Link(pool, side, xs, t, j, k)} | 0 <= k < |xs| :: Link(pool, side, xs, t, j, k)
  }

  ghost predicate Link(pool: Pool, side: bool, xs: seq<int>, t: int, j: int, k: int) {
    && 0 <= k < |xs| && 0 <= xs[k] < |pool| && pool[xs[k]].s.Jmp?
    && Succ(pool[xs[k]], !side) == t
    && Succ(pool[xs[k]], side) == if k + 1 < |xs| then xs[k + 1] else j
  }

  lemma ChainTail(pool: Pool, side: bool, xs: seq<int>, t: int, j: int)
    requires Chain(pool, side, xs, t, j) && xs != []
    ensures Chain(pool, side, xs[1..], t, j)
  {
    forall k | 0 <= k < |xs[1..]| ensures Link(pool, side, xs[1..], t, j, k) {
      assert Link(pool, side, xs, t, j, k + 1);
    }
  }

  /** Every test of the chain is above its two targets. */
  lemma LinkFalls(pool: Pool, r: map<int, nat>, side: bool, xs: seq<int>, t: int, j: int, k: nat)
    requires Ranked(GraphOf(pool), r) && Chain(pool, side, xs, t, j) && k < |xs|
    ensures Link(pool, side, xs, t, j, k) && 0 <= t < |pool| && r[t] < r[xs[k]]
    ensures var y := if k + 1 < |xs| then xs[k + 1] else j; 0 <= y < |pool| && r[y] < r[xs[k]]
  {
    assert Link(pool, side, xs, t, j, k);
    assert GraphOf(pool)[xs[k]] == NodeOf(pool[xs[k]]) && Falls(GraphOf(pool), r, xs[k]);
  }

  datatype Scanned = Fault | Hit | Miss

  /** How p gets through the tests xs: a test may reject it on the spot, or
      send it off the chain. */
  function Scan(pool: Pool, side: bool, xs: seq<int>, p: Packet): Scanned
    requires AllTests(pool, xs)
  {
    if xs == [] then Miss
    else if Faults(pool[xs[0]], p) then Fault
    else if Decide(pool[xs[0]], p) != side then Hit
    else Scan(pool, side, xs[1..], p)
  }

  lemma {:induction false} ScanConcat(pool: Pool, side: bool, xs: seq<int>, ys: seq<int>, p: Packet)
    requires AllTests(pool, xs) && AllTests(pool, ys) && AllTests(pool, xs + ys)
    ensures Scan(pool, side, xs + ys, p) == if Scan(pool, side, xs, p).Miss? then Scan(pool, side, ys, p)
      else Scan(pool, side, xs, p)
  {
    if xs == [] {
      assert xs + ys == ys;
    } else {
      assert (xs + ys)[1..] == xs[1..] + ys;
      ScanConcat(pool, side, xs[1..], ys, p);
    }
  }

  lemma {:induction false} ScanSame(pool: Pool, pool': Pool, side: bool, xs: seq<int>, p: Packet)
    requires SameTests(pool, pool') && AllTests(pool, xs)
    ensures Scan(pool', side, xs, p) == Scan(pool, side, xs, p)
  {
    if xs != [] {
      ScanSame(pool, pool', side, xs[1..], p);
    }
  }

  ghost predicate AllTests(pool: Pool, xs: seq<int>) {
    forall k | 0 <= k < |xs| :: 0 <= xs[k] < |pool| && pool[xs[k]].s.Jmp?
  }

  lemma ChainTests(pool: Pool, side: bool, xs: seq<int>, t: int, j: int)
    requires Chain(pool, side, xs, t, j)
    ensures AllTests(pool, xs)
  {
    forall k | 0 <= k < |xs| ensures 0 <= xs[k] < |pool| && pool[xs[k]].s.Jmp? {
      assert Link(pool, side, xs, t, j, k);
    }
  }

  /** A packet that comes to the chain goes on at t, or gets through to j. */
  lemma {:induction false} GoChain(pool: Pool, r: map<int, nat>, side: bool, xs: seq<int>, t: int, j: int, p: Packet)
    requires Ranked(GraphOf(pool), r) && Chain(pool, side, xs, t, j) && xs != [] && AllTests(pool, xs)
    ensures 0 <= t < |pool| && 0 <= j < |pool|
    ensures Go(pool, r, xs[0], p) == match Scan(pool, side, xs, p)
      case Fault => None
      case Hit => Go(pool, r, t, p)
      case Miss => Go(pool, r, j, p)
  {
    LinkFalls(pool, r, side, xs, t, j, 0);
    assert GraphOf(pool)[xs[0]] == NodeOf(pool[xs[0]]) && Falls(GraphOf(pool), r, xs[0]);
    if |xs| > 1 {
      ChainTail(pool, side, xs, t, j);
      GoChain(pool, r, side, xs[1..], t, j, p);
    }
  }

  lemma {:induction false} ChainFalls(pool: Pool, r: map<int, nat>, side: bool, xs: seq<int>, t: int, j: int, k: nat,
      l: nat)
    requires Ranked(GraphOf(pool), r) && Chain(pool, side, xs, t, j) && k < l < |xs|
    ensures 0 <= xs[k] < |pool| && 0 <= xs[l] < |pool| && r[xs[l]] < r[xs[k]]
    decreases l - k
  {
    LinkFalls(pool, r, side, xs, t, j, k);
    if k + 1 < l {
      ChainFalls(pool, r, side, xs, t, j, k + 1, l);
    } else {
      LinkFalls(pool, r, side, xs, t, j, l);
    }
  }

  // ---------------------------------------------- what dominators tell of it

  /** What is dominated by b is reached from b. */
  lemma {:induction false} DominatedReached(pool: Pool, level: seq<nat>, levels: seq<seq<int>>, r: map<int, nat>,
                                            root: int, m: set<int>, dom: seq<set<int>>, b: int, y: int)
    requires Ranked(GraphOf(pool), r) && Leveled(pool, level, levels, m, root) && m == Reach(GraphOf(pool), r, root)
    requires Swept(BlockNext(pool), m, {root}, dom, m) && 0 <= b < |pool|
    requires y in m && b in dom[y]
    ensures y in Reach(GraphOf(pool), r, b)
    decreases level[root] as int - level[y]
  {
    var next := BlockNext(pool);
    assert SetEq(next, {root}, dom, m, y);
    if y != b {
      assert Enters(next, dom, m, y, b);
      var x := ReachPred(GraphOf(pool), r, root, y);
      assert GraphOf(pool)[x] == NodeOf(pool[x]) && y in next[x] && NodeLeveled(pool, level, m, x);
      DominatedReached(pool, level, levels, r, root, m, dom, b, x);
      ReachStep(pool, r, b, x, y);
    }
  }

  lemma {:induction false} ReachStep(pool: Pool, r: map<int, nat>, b: int, x: int, y: int)
    requires Ranked(GraphOf(pool), r) && 0 <= b < |pool| && x in Reach(GraphOf(pool), r, b)
    requires 0 <= x < |pool| && pool[x].s.Jmp? && (pool[x].jt == y || pool[x].jf == y)
    ensures y in Reach(GraphOf(pool), r, b)
  {
    ReachBelow(pool, r, x);
    ReachClosed(GraphOf(pool), r, b, x);
  }

  /** From the top of a chain only the chain leads to its tests. */
  lemma {:induction false} ChainOnly(pool: Pool, r: map<int, nat>, side: bool, xs: seq<int>, t: int, j: int, i: nat,
      k: nat, y: int)
    requires Ranked(GraphOf(pool), r) && Chain(pool, side, xs, t, j) && i < k < |xs|
    requires 0 <= xs[i] < |pool| && y in Reach(GraphOf(pool), r, xs[i])
    requires 0 <= y < |pool| && pool[y].s.Jmp? && (pool[y].jt == xs[k] || pool[y].jf == xs[k])
    ensures y == xs[k - 1]
    decreases k - i
  {
    var g := GraphOf(pool);
    assert g[y] == NodeOf(pool[y]) && Falls(g, r, y);
    LinkFalls(pool, r, side, xs, t, j, i);
    LinkFalls(pool, r, side, xs, t, j, k);
    if y == xs[i] {
      if i + 1 < k {
        ChainFalls(pool, r, side, xs, t, j, i + 1, k);
        assert false;
      }
    } else {
      ReachBelow(pool, r, xs[i]);
      if y in Reach(g, r, t) {
        ReachClosed(g, r, t, y);
        assert false;
      } else if i + 1 == k {
        ReachClosed(g, r, xs[k], y);
        assert false;
      } else {
        ChainOnly(pool, r, side, xs, t, j, i + 1, k, y);
      }
    }
  }

  // ------------------------------------------------------------ pulling up

  /** Blocks of m other than those of the chain lead to no test of the chain but
      the first; the others have only the test before them. */
  ghost predicate OnlyChain(pool: Pool, m: set<int>, xs: seq<int>) {
    && (forall x | x in m :: 0 <= x < |pool| && (pool[x].s.Jmp? ==> pool[x].jt in m && pool[x].jf in m))
    && (forall k | 0 <= k < |xs| :: xs[k] in m)
    && forall x, k {:trigger Behind(pool, xs, x, k)} | x in m && 0 < k < |xs| :: Behind(pool, xs, x, k)
  }

  /** If x leads to test k of the chain, x is the test before it. */
  ghost predicate Behind(pool: Pool, xs: seq<int>, x: int, k: int) {
    0 <= x < |pool| && pool[x].s.Jmp? && 0 < k < |xs| && (pool[x].jt == xs[k] || pool[x].jf == xs[k]) ==> x == xs[k - 1]
  }

  /** The last test of the chain now comes before the first: what led to the
      first leads to it, and the chain goes on behind it. */
  ghost predicate Pulled(pool: Pool, pool': Pool, m: set<int>, side: bool, xs: seq<int>) {
    && |xs| >= 2 && SameTests(pool, pool')
    && (forall k | 0 <= k < |xs| :: 0 <= xs[k] < |pool|)
    && (forall x | 0 <= x < |pool| && x !in m :: pool'[x] == pool[x])
    && forall x, taken {:trigger Succ(pool'[x], taken)} | x in m && 0 <= x < |pool| && pool[x].s.Jmp? ::
         Succ(pool'[x], taken) == NewSucc(pool, side, xs, x, taken)
  }

  /** Such a move of the last test of a chain that nothing else leads into. */
  ghost predicate ChainPulled(pool: Pool, pool': Pool, m: set<int>, side: bool, xs: seq<int>) {
    && |xs| >= 2 && AllTests(pool, xs) && OnlyChain(pool, m, xs) && Pulled(pool, pool', m, side, xs)
    && Chain(pool, side, xs, Succ(pool[xs[0]], !side), Succ(pool[xs[|xs| - 1]], side))
  }

  lemma ChainIsPulled(pool: Pool, pool': Pool, m: set<int>, side: bool, xs: seq<int>, t: int, j: int)
    requires |xs| >= 2 && Chain(pool, side, xs, t, j) && OnlyChain(pool, m, xs) && Pulled(pool, pool', m, side, xs)
    ensures ChainPulled(pool, pool', m, side, xs)
  {
    ChainTests(pool, side, xs, t, j);
    assert Link(pool, side, xs, t, j, 0) && Link(pool, side, xs, t, j, |xs| - 1);
    hide OnlyChain, Pulled;
  }

  function NewSucc(pool: Pool, side: bool, xs: seq<int>, x: int, taken: bool): int
    requires |xs| >= 2 && 0 <= x < |pool| && (forall k | 0 <= k < |xs| :: 0 <= xs[k] < |pool|)
  {
    var s := xs[|xs| - 1];
    if x == s && taken == side then xs[0]
    else if x == xs[|xs| - 2] && taken == side then Succ(pool[s], side)
    else if Succ(pool[x], taken) == xs[0] then s
    else Succ(pool[x], taken)
  }

  /** The new rank: the pulled test is just above the first. */
  ghost function PulledRank(pool: Pool, r: map<int, nat>, m: set<int>, xs: seq<int>): map<int, nat>
    requires |xs| >= 2 && xs[0] in r && forall x | 0 <= x < |pool| :: x in r
  {
    map x: int | 0 <= x < |pool| ::
      if x == xs[|xs| - 1] then 2 * r[xs[0]] + 1
      else if x in m then 2 * r[x]
      else 2 * r[x] + 2 * r[xs[0]] + 2
  }

  lemma PulledFalls(pool: Pool, pool': Pool, r: map<int, nat>, m: set<int>, side: bool, xs: seq<int>, t: int, j: int,
      x: int)
    requires Ranked(GraphOf(pool), r) && Chain(pool, side, xs, t, j) && OnlyChain(pool, m, xs)
      && Pulled(pool, pool', m, side, xs)
    requires 0 <= x < |pool|
    ensures var r' := PulledRank(pool, r, m, xs); GraphOf(pool').Keys <= r'.Keys && Falls(GraphOf(pool'), r', x)
  {
    var n := |xs| - 1;
    var r' := PulledRank(pool, r, m, xs);
    ChainFalls(pool, r, side, xs, t, j, 0, n);
    LinkFalls(pool, r, side, xs, t, j, n);
    assert GraphOf(pool)[x] == NodeOf(pool[x]) && Falls(GraphOf(pool), r, x);
    assert GraphOf(pool')[x] == NodeOf(pool'[x]);
    if pool[x].s.Jmp? && x in m {
      forall taken: bool ensures 0 <= Succ(pool'[x], taken) < |pool| && r'[Succ(pool'[x], taken)] < r'[x] {
        NewSuccFalls(pool, r, m, side, xs, t, j, x, taken);
      }
      assert 0 <= Succ(pool'[x], true) < |pool| && 0 <= Succ(pool'[x], false) < |pool|;
    }
  }

  lemma NewSuccFalls(pool: Pool, r: map<int, nat>, m: set<int>, side: bool, xs: seq<int>, t: int, j: int, x: int,
      taken: bool)
    requires Ranked(GraphOf(pool), r) && Chain(pool, side, xs, t, j) && |xs| >= 2 && OnlyChain(pool, m, xs)
    requires x in m && 0 <= x < |pool| && pool[x].s.Jmp?
    ensures var r', y := PulledRank(pool, r, m, xs), NewSucc(pool, side, xs, x, taken); 0 <= y < |pool| && r'[y] < r'[x]
  {
    var n := |xs| - 1;
    var y := Succ(pool[x], taken);
    ChainFalls(pool, r, side, xs, t, j, 0, n);
    LinkFalls(pool, r, side, xs, t, j, 0);
    LinkFalls(pool, r, side, xs, t, j, n);
    LinkFalls(pool, r, side, xs, t, j, n - 1);
    assert GraphOf(pool)[x] == NodeOf(pool[x]) && Falls(GraphOf(pool), r, x);
    assert y in m && 0 <= y < |pool| && r[y] < r[x];
    if y == xs[n] {
      assert Behind(pool, xs, x, n) && x == xs[n - 1];
      if taken != side {
        assert false;
      }
    }
  }

  lemma PulledRanked(pool: Pool, pool': Pool, r: map<int, nat>, m: set<int>, side: bool, xs: seq<int>, t: int, j: int)
    requires Ranked(GraphOf(pool), r) && Chain(pool, side, xs, t, j) && OnlyChain(pool, m, xs)
      && Pulled(pool, pool', m, side, xs)
    ensures Ranked(GraphOf(pool'), PulledRank(pool, r, m, xs))
  {
    forall x | 0 <= x < |pool| ensures Falls(GraphOf(pool'), PulledRank(pool, r, m, xs), x) {
      PulledFalls(pool, pool', r, m, side, xs, t, j, x);
    }
  }

  lemma {:induction false} GoSame(pool: Pool, r: map<int, nat>, pool': Pool, r': map<int, nat>, n: nat, x: int,
      p: Packet)
    requires Ranked(GraphOf(pool), r) && Ranked(GraphOf(pool'), r') && SameTests(pool, pool')
    requires forall b | 0 <= b < |pool| && pool[b].s.Jmp? && r[b] < n ::
      pool'[b].jt == pool[b].jt && pool'[b].jf == pool[b].jf
    requires 0 <= x < |pool| && r[x] < n
    ensures Go(pool', r', x, p) == Go(pool, r, x, p)
    decreases r[x]
  {
    assert GraphOf(pool)[x] == NodeOf(pool[x]) && Falls(GraphOf(pool), r, x);
    if pool[x].s.Jmp? && !Faults(pool[x], p) {
      GoSame(pool, r, pool', r', n, Succ(pool[x], Decide(pool[x], p)), p);
    }
  }

  // --------------------------------------------------------- what it changes

  /** p leaves the chain before its last test, which would reject it. */
  predicate Spoils(pool: Pool, side: bool, xs: seq<int>, p: Packet)
    requires |xs| >= 2 && AllTests(pool, xs)
  {
    Scan(pool, side, xs[..|xs| - 1], p).Hit? && Faults(pool[xs[|xs| - 1]], p)
  }

  lemma PulledLinks(pool: Pool, pool': Pool, r: map<int, nat>, m: set<int>, side: bool, xs: seq<int>, t: int, j: int)
    requires Ranked(GraphOf(pool), r) && Chain(pool, side, xs, t, j) && OnlyChain(pool, m, xs)
      && Pulled(pool, pool', m, side, xs)
    ensures Chain(pool', side, [xs[|xs| - 1]] + xs[..|xs| - 1], t, j)
  {
    var n := |xs| - 1;
    var ys := [xs[n]] + xs[..n];
    LinkFalls(pool, r, side, xs, t, j, 0);
    ChainFalls(pool, r, side, xs, t, j, 0, n);
    LinkFalls(pool, r, side, xs, t, j, n);
    forall k | 0 <= k < |ys| ensures Link(pool', side, ys, t, j, k) {
      if k > 0 {
        LinkFalls(pool, r, side, xs, t, j, k - 1);
        if k < n {
          ChainFalls(pool, r, side, xs, t, j, 0, k);
          ChainFalls(pool, r, side, xs, t, j, k - 1, n - 1);
        }
        ChainFalls(pool, r, side, xs, t, j, k - 1, n);
        assert Succ(pool'[ys[k]], side) == NewSucc(pool, side, xs, ys[k], side);
        assert Succ(pool'[ys[k]], !side) == NewSucc(pool, side, xs, ys[k], !side);
      } else {
        assert Succ(pool'[xs[n]], side) == NewSucc(pool, side, xs, xs[n], side);
        assert Succ(pool'[xs[n]], !side) == NewSucc(pool, side, xs, xs[n], !side);
      }
    }
  }

  lemma OldChain(pool: Pool, r: map<int, nat>, side: bool, xs: seq<int>, t: int, j: int, p: Packet)
    requires Ranked(GraphOf(pool), r) && Chain(pool, side, xs, t, j) && |xs| >= 2 && AllTests(pool, xs)
    ensures 0 <= t < |pool| && 0 <= j < |pool|
    ensures var s, d := pool[xs[|xs| - 1]], Scan(pool, side, xs[..|xs| - 1], p);
      Go(pool, r, xs[0], p) ==
        if d.Hit? then Go(pool, r, t, p)
        else if d.Fault? || Faults(s, p) then None
        else Go(pool, r, if Decide(s, p) != side then t else j, p)
  {
    var n := |xs| - 1;
    GoChain(pool, r, side, xs, t, j, p);
    assert xs == xs[..n] + [xs[n]] && [xs[n]][1..] == [];
    ScanConcat(pool, side, xs[..n], [xs[n]], p);
  }

  lemma NewChain(pool: Pool, pool': Pool, r': map<int, nat>, side: bool, xs: seq<int>, t: int, j: int, p: Packet)
    requires Ranked(GraphOf(pool'), r') && |xs| >= 2 && AllTests(pool, xs) && SameTests(pool, pool')
    requires Chain(pool', side, [xs[|xs| - 1]] + xs[..|xs| - 1], t, j)
    ensures 0 <= t < |pool'| && 0 <= j < |pool'|
    ensures var s, d := pool[xs[|xs| - 1]], Scan(pool, side, xs[..|xs| - 1], p);
      Go(pool', r', xs[|xs| - 1], p) ==
        if Faults(s, p) then None
        else if Decide(s, p) != side || d.Hit? then Go(pool', r', t, p)
        else if d.Fault? then None
        else Go(pool', r', j, p)
  {
    var n := |xs| - 1;
    var ys := [xs[n]] + xs[..n];
    ChainTests(pool', side, ys, t, j);
    GoChain(pool', r', side, ys, t, j, p);
    ScanSame(pool, pool', side, ys, p);
    assert ys[1..] == xs[..n];
  }

  /** A packet that comes to the chain fares as before, unless the test that is
      now first rejects it and was not reached before. */
  lemma PulledChain(pool: Pool, pool': Pool, r: map<int, nat>, m: set<int>, side: bool, xs: seq<int>, t: int, j: int,
      p: Packet)
    requires Ranked(GraphOf(pool), r) && Chain(pool, side, xs, t, j) && OnlyChain(pool, m, xs)
      && Pulled(pool, pool', m, side, xs)
    requires AllTests(pool, xs) && Go(pool, r, xs[0], p).Some?
    requires Ranked(GraphOf(pool'), PulledRank(pool, r, m, xs))
    ensures Go(pool', PulledRank(pool, r, m, xs), xs[|xs| - 1], p) == Go(pool, r, xs[0], p) <==>
      !Spoils(pool, side, xs, p)
  {
    var n, r' := |xs| - 1, PulledRank(pool, r, m, xs);
    OldChain(pool, r, side, xs, t, j, p);
    PulledLinks(pool, pool', r, m, side, xs, t, j);
    NewChain(pool, pool', r', side, xs, t, j, p);
    PulledTargets(pool, pool', r, m, side, xs, t, j, p);
  }

  lemma PulledTargets(pool: Pool, pool': Pool, r: map<int, nat>, m: set<int>, side: bool, xs: seq<int>, t: int, j: int,
      p: Packet)
    requires Ranked(GraphOf(pool), r) && Chain(pool, side, xs, t, j) && OnlyChain(pool, m, xs)
      && Pulled(pool, pool', m, side, xs)
    requires Ranked(GraphOf(pool'), PulledRank(pool, r, m, xs))
    ensures 0 <= t < |pool| && 0 <= j < |pool|
    ensures Go(pool', PulledRank(pool, r, m, xs), t, p) == Go(pool, r, t, p)
    ensures Go(pool', PulledRank(pool, r, m, xs), j, p) == Go(pool, r, j, p)
  {
    var s, r' := xs[|xs| - 1], PulledRank(pool, r, m, xs);
    LinkFalls(pool, r, side, xs, t, j, |xs| - 1);
    forall b | 0 <= b < |pool| && pool[b].s.Jmp? && r[b] < r[s]
      ensures pool'[b].jt == pool[b].jt && pool'[b].jf == pool[b].jf
    {
      PulledBelow(pool, pool', r, m, side, xs, t, j, b);
    }
    GoSame(pool, r, pool', r', r[s], t, p);
    GoSame(pool, r, pool', r', r[s], j, p);
  }

  lemma PulledBelow(pool: Pool, pool': Pool, r: map<int, nat>, m: set<int>, side: bool, xs: seq<int>, t: int, j: int,
      b: int)
    requires Ranked(GraphOf(pool), r) && Chain(pool, side, xs, t, j) && OnlyChain(pool, m, xs)
      && Pulled(pool, pool', m, side, xs)
    requires 0 <= b < |pool| && pool[b].s.Jmp? && r[b] < r[xs[|xs| - 1]]
    ensures pool'[b].jt == pool[b].jt && pool'[b].jf == pool[b].jf
  {
    var n := |xs| - 1;
    ChainFalls(pool, r, side, xs, t, j, 0, n);
    ChainFalls(pool, r, side, xs, t, j, n - 1, n);
    assert GraphOf(pool)[b] == NodeOf(pool[b]) && Falls(GraphOf(pool), r, b);
    if b in m {
      assert Succ(pool'[b], true) == NewSucc(pool, side, xs, b, true);
      assert Succ(pool'[b], false) == NewSucc(pool, side, xs, b, false);
    }
  }

  /** So does a packet that comes from above the chain. */
  lemma {:induction false} PulledGo(pool: Pool, pool': Pool, r: map<int, nat>, m: set<int>, side: bool, xs: seq<int>,
      t: int, j: int, x: int, p: Packet)
    requires Ranked(GraphOf(pool), r) && Chain(pool, side, xs, t, j) && OnlyChain(pool, m, xs)
      && Pulled(pool, pool', m, side, xs)
    requires AllTests(pool, xs) && x in m && 0 <= x < |pool| && x !in xs && Go(pool, r, x, p).Some?
    requires Ranked(GraphOf(pool'), PulledRank(pool, r, m, xs))
    ensures Go(pool', PulledRank(pool, r, m, xs), x, p) == Go(pool, r, x, p) <==>
            !(xs[0] in Visits(pool, r, x, p) && Spoils(pool, side, xs, p))
    decreases r[x]
  {
    var r' := PulledRank(pool, r, m, xs);
    assert GraphOf(pool)[x] == NodeOf(pool[x]) && Falls(GraphOf(pool), r, x);
    if pool[x].s.Jmp? {
      var taken := Decide(pool[x], p);
      var y := Succ(pool[x], taken);
      assert x != xs[|xs| - 1] && x != xs[|xs| - 2];
      assert Succ(pool'[x], taken) == NewSucc(pool, side, xs, x, taken);
      if y == xs[0] {
        PulledChain(pool, pool', r, m, side, xs, t, j, p);
      } else {
        forall k | 0 <= k < |xs| ensures xs[k] != y {
          assert k > 0 ==> Behind(pool, xs, x, k);
        }
        PulledGo(pool, pool', r, m, side, xs, t, j, y, p);
      }
    }
  }
}
