/** Block interning: blocks that do the same thing are merged, bottom up, until
    no two reachable blocks are alike. */
module Intern {
  import opened Bpf
  import opened Flow
  import opened Blocks
  import opened Insns

  /** Equal branches, equal successors, equal statements apart from deleted ones. */
  predicate Same(m: Block, n: Block) {
    m.s == n.s && m.jt == n.jt && m.jf == n.jf && Live(m.stmts) == Live(n.stmts)
  }

  function Follow(link: seq<int>, b: int): int {
    if 0 <= b < |link| && link[b] != NULL then link[b] else b
  }

  function Relink(n: Block, link: seq<int>): Block {
    n.(jt := Follow(link, n.jt), jf := Follow(link, n.jf))
  }

  ghost predicate Relinked(pool: Pool, pool': Pool, link: seq<int>) {
    |pool'| == |pool| && forall b | 0 <= b < |pool| :: pool'[b] == Relink(pool[b], link)
  }

  ghost predicate Links(pool: Pool, link: seq<int>) {
    && |link| == |pool|
    && forall b | 0 <= b < |link| && link[b] != NULL :: b < link[b] < |pool| && Same(pool[b], pool[link[b]])
  }

  lemma SameRun(pool: Pool, h: map<int, nat>, b: int, c: int, p: Packet, st: State)
    requires Ranked(GraphOf(pool), h) && 0 <= b < |pool| && 0 <= c < |pool| && Same(pool[b], pool[c])
    ensures Run(GraphOf(pool), h, b, p, st) == Run(GraphOf(pool), h, c, p, st)
  {
    LiveExec(pool[b].stmts, p, st);
    LiveExec(pool[c].stmts, p, st);
  }

  lemma RelinkHeights(pool: Pool, pool': Pool, link: seq<int>, h: map<int, nat>)
    requires Heights(pool, h) && Links(pool, link) && Relinked(pool, pool', link)
    ensures Heights(pool', h)
  {
    forall b | 0 <= b < |pool| ensures h[Follow(link, b)] == h[b] && 0 <= Follow(link, b) < |pool| {
      assert Height(pool, h, b);
      if link[b] != NULL {
        assert Same(pool[b], pool[link[b]]) && Height(pool, h, link[b]);
      }
    }
    forall b | 0 <= b < |pool| ensures Height(pool', h, b) && Falls(GraphOf(pool'), h, b) {
      assert GraphOf(pool)[b] == NodeOf(pool[b]) && GraphOf(pool')[b] == NodeOf(pool'[b]);
      assert Height(pool, h, b) && Falls(GraphOf(pool), h, b);
    }
  }

  /** Sending every edge to an equal block changes no run from any block. */
  lemma {:induction false} RelinkRun(pool: Pool, pool': Pool, link: seq<int>, h: map<int, nat>, b: int, p: Packet,
      st: State)
    requires Heights(pool, h) && Links(pool, link) && Relinked(pool, pool', link) && 0 <= b < |pool|
    requires Heights(pool', h)
    ensures Run(GraphOf(pool'), h, b, p, st) == Run(GraphOf(pool), h, b, p, st)
    decreases h[b]
  {
    var g, g' := GraphOf(pool), GraphOf(pool');
    assert Falls(g, h, b) && Falls(g', h, b);
    assert g[b] == NodeOf(pool[b]) && g'[b] == NodeOf(pool'[b]);
    if g[b].Fork? && ExecAll(pool[b].stmts, p, st).Some? {
      var st' := ExecAll(pool[b].stmts, p, st).value;
      var next := if Taken(g[b].cond, st') then g[b].jt else g[b].jf;
      RelinkRun(pool, pool', link, h, Follow(link, next), p, st');
      if link[next] != NULL {
        SameRun(pool, h, next, link[next], p, st');
      }
    }
  }

  // -------------------------------------------------------- termination

  /** How far the successors of a block are from the last block. */
  function Room(n: Block, top: nat): nat {
    (if n.jt < top then top - n.jt else 0) + (if n.jf < top then top - n.jf else 0)
  }

  function Slack(pool: Pool, top: nat): nat {
    if pool == [] then 0 else Room(pool[0], top) + Slack(pool[1..], top)
  }

  lemma {:induction false} SlackFalls(pool: Pool, pool': Pool, top: nat)
    requires |pool'| == |pool|
    requires forall b | 0 <= b < |pool| :: Room(pool'[b], top) <= Room(pool[b], top)
    ensures Slack(pool', top) <= Slack(pool, top)
    ensures (exists b :: 0 <= b < |pool| && Room(pool'[b], top) < Room(pool[b], top)) ==>
      Slack(pool', top) < Slack(pool, top)
  {
    if pool != [] {
      SlackFalls(pool[1..], pool'[1..], top);
      if b :| 0 <= b < |pool| && Room(pool'[b], top) < Room(pool[b], top) {
        if b > 0 {
          assert Room(pool'[1..][b - 1], top) < Room(pool[1..][b - 1], top);
        }
      }
    }
  }

  // ------------------------------------------------------------ the pass

  /** No two distinct blocks of m do the same thing. */
  ghost predicate NoTwins(pool: Pool, m: set<int>) {
    forall i, j | i in m && j in m && 0 <= i < j < |pool| :: !Same(pool[i], pool[j])
  }

  ghost predicate SameRuns(pool: Pool, pool': Pool, h: map<int, nat>)
    requires Heights(pool, h) && Heights(pool', h)
  {
    |pool| == |pool'| &&
    forall b, p, st | 0 <= b < |pool| :: Run(GraphOf(pool'), h, b, p, st) == Run(GraphOf(pool), h, b, p, st)
  }

  lemma RelinkEdges(pool: Pool, pool': Pool, link: seq<int>)
    requires Links(pool, link) && Edges(pool) && Relinked(pool, pool', link)
    ensures Edges(pool')
  {
  }

  lemma RelinkSameRuns(first: Pool, pool: Pool, pool': Pool, link: seq<int>, h: map<int, nat>)
    requires Heights(first, h) && Heights(pool, h) && Heights(pool', h) && SameRuns(first, pool, h)
    requires Links(pool, link) && Relinked(pool, pool', link)
    ensures SameRuns(first, pool', h)
  {
    forall b, p, st | 0 <= b < |first|
      ensures Run(GraphOf(pool'), h, b, p, st) == Run(GraphOf(first), h, b, p, st)
    {
      RelinkRun(pool, pool', link, h, b, p, st);
    }
  }

  lemma RoomFalls(n: Block, link: seq<int>, top: nat)
    requires |link| == top && n.jt < top && n.jf < top
    requires forall b | 0 <= b < |link| && link[b] != NULL :: b < link[b] < top
    ensures Room(Relink(n, link), top) <= Room(n, top)
    ensures Relink(n, link) != n ==> Room(Relink(n, link), top) < Room(n, top)
  {
  }

  lemma RelinkSlack(pool: Pool, pool': Pool, link: seq<int>)
    requires Links(pool, link) && Edges(pool) && Relinked(pool, pool', link) && pool' != pool
    ensures Slack(pool', |pool|) < Slack(pool, |pool|)
  {
    forall b | 0 <= b < |pool|
      ensures Room(pool'[b], |pool|) <= Room(pool[b], |pool|)
      ensures pool'[b] != pool[b] ==> Room(pool'[b], |pool|) < Room(pool[b], |pool|)
    {
      RoomFalls(pool[b], link, |pool|);
    }
    var b :| 0 <= b < |pool| && pool'[b] != pool[b];
    assert Room(pool'[b], |pool|) < Room(pool[b], |pool|);
    SlackFalls(pool, pool', |pool|);
  }

  /** When no edge moves, every linked block is unreachable, so that no two
      reachable blocks are alike. */
  lemma Settles(pool: Pool, h: map<int, nat>, root: nat, link: seq<int>)
    requires Heights(pool, h) && root < |pool| && Links(pool, link) && Relinked(pool, pool, link)
    requires var m := Reach(GraphOf(pool), h, root);
      forall i, j | i in m && j in m && 0 <= i < j < |pool| && Same(pool[i], pool[j]) :: link[i] != NULL
    ensures NoTwins(pool, Reach(GraphOf(pool), h, root))
  {
    var g := GraphOf(pool);
    var m := Reach(g, h, root);
    forall i | i in m && i != root ensures link[i] == NULL && h[i] < h[root] {
      var y := ReachPred(g, h, root, i);
      assert g[y] == NodeOf(pool[y]) && pool[y] == Relink(pool[y], link);
      ReachClosed(g, h, root, y);
      assert Falls(g, h, y);
    }
    forall i, j | i in m && j in m && 0 <= i < j < |pool| ensures Same(pool[i], pool[j]) ==> h[i] == h[j] {
      assert Height(pool, h, i) && Height(pool, h, j);
    }
  }

  lemma RelinkLeaves(pool: Pool, pool': Pool, link: seq<int>)
    requires LeavesEnd(pool) && Relinked(pool, pool', link)
    ensures LeavesEnd(pool')
  {
  }

  /** The length of the longest way from b to a leaf. */
  ghost function Tall(pool: Pool, r: map<int, nat>, b: int): nat
    requires Ranked(GraphOf(pool), r) && 0 <= b < |pool|
    decreases r[b]
  {
    assert GraphOf(pool)[b] == NodeOf(pool[b]) && Falls(GraphOf(pool), r, b);
    if pool[b].s.Ret? then 0 else
    var t, f := Tall(pool, r, pool[b].jt), Tall(pool, r, pool[b].jf);
    1 + if t > f then t else f
  }

  ghost function Talls(pool: Pool, r: map<int, nat>): map<int, nat>
    requires Ranked(GraphOf(pool), r)
  {
    map b: int | 0 <= b < |pool| :: Tall(pool, r, b)
  }

  lemma TallHeights(pool: Pool, r: map<int, nat>)
    requires Ranked(GraphOf(pool), r)
    ensures Heights(pool, Talls(pool, r))
  {
    var h := Talls(pool, r);
    forall b | 0 <= b < |pool| ensures Height(pool, h, b) && Falls(GraphOf(pool), h, b) {
      assert GraphOf(pool)[b] == NodeOf(pool[b]) && Falls(GraphOf(pool), r, b);
    }
  }

  /** Runs do not depend on which ranks show that the graph is acyclic. */
  lemma {:induction false} RunRank<T>(g: Graph<T>, r: map<T, nat>, h: map<T, nat>, b: T, p: Packet, st: State)
    requires Ranked(g, r) && Ranked(g, h) && b in g
    ensures Run(g, h, b, p, st) == Run(g, r, b, p, st)
    decreases r[b]
  {
    assert Falls(g, r, b) && Falls(g, h, b);
    match g[b]
    case Leaf(_) =>
    case Fork(ss, c, jt, jf) =>
      if ExecAll(ss, p, st).Some? {
        var e := ExecAll(ss, p, st).value;
        RunRank(g, r, h, if Taken(c, e) then jt else jf, p, e);
      }
  }

  lemma EdgesOf(pool: Pool, r: map<int, nat>)
    requires Ranked(GraphOf(pool), r) && LeavesEnd(pool)
    ensures Edges(pool)
  {
    forall b | 0 <= b < |pool| && pool[b].s.Jmp? ensures 0 <= pool[b].jt < |pool| && 0 <= pool[b].jf < |pool| {
      assert GraphOf(pool)[b] == NodeOf(pool[b]) && Falls(GraphOf(pool), r, b);
    }
  }

  lemma LiveDrop(x: seq<Stmt>, i: nat)
    requires i < |x|
    ensures Live(x[i..]) == if x[i] == Nop then Live(x[i + 1..]) else [x[i]] + Live(x[i + 1..])
  {
    assert x[i..][1..] == x[i + 1..];
  }

  lemma LiveEnds(x: seq<Stmt>, i: nat)
    requires i <= |x|
    ensures i == |x| ==> Live(x[i..]) == []
    ensures i < |x| && x[i] != Nop ==> Live(x[i..]) != []
  {
    if i < |x| {
      LiveDrop(x, i);
    }
  }

  lemma LiveHeads(x: seq<Stmt>, i: nat, y: seq<Stmt>, j: nat)
    requires i < |x| && j < |y| && x[i] != Nop && y[j] != Nop
    ensures Live(x[i..]) == Live(y[j..]) <==> x[i] == y[j] && Live(x[i + 1..]) == Live(y[j + 1..])
  {
    hide Live;
    LiveDrop(x, i);
    LiveDrop(y, j);
    var lx, ly := Live(x[i + 1..]), Live(y[j + 1..]);
    assert ([x[i]] + lx)[0] == x[i] && ([y[j]] + ly)[0] == y[j];
    assert ([x[i]] + lx)[1..] == lx && ([y[j]] + ly)[1..] == ly;
  }

  class Interner {
    var pool: Pool
    ghost var h: map<int, nat>
    var marked: set<int>
    var link: seq<int>

    constructor (pool: Pool, ghost r: map<int, nat>)
      requires Ranked(GraphOf(pool), r)
      ensures this.pool == pool && Heights(this.pool, h)
    {
      this.pool, h, marked, link := pool, Talls(pool, r), {}, [];
      new;
      TallHeights(pool, r);
    }

    method EqSlist(x: seq<Stmt>, y: seq<Stmt>) returns (eq: bool)
      ensures eq <==> Live(x) == Live(y)
    {
      hide Live;
      var i, j := 0, 0;
      assert x[0..] == x && y[0..] == y;
      while true
        invariant 0 <= i <= |x| && 0 <= j <= |y|
        invariant Live(x) == Live(y) <==> Live(x[i..]) == Live(y[j..])
        decreases |x| - i + |y| - j
      {
        while i < |x| && x[i] == Nop
          invariant i <= |x| && (Live(x) == Live(y) <==> Live(x[i..]) == Live(y[j..]))
        {
          LiveDrop(x, i);
          i := i + 1;
        }
        while j < |y| && y[j] == Nop
          invariant j <= |y| && (Live(x) == Live(y) <==> Live(x[i..]) == Live(y[j..]))
        {
          LiveDrop(y, j);
          j := j + 1;
        }
        LiveEnds(x, i);
        LiveEnds(y, j);
        if i == |x| {
          return j == |y|;
        }
        if j == |y| {
          return false;
        }
        LiveHeads(x, i, y, j);
        if x[i] != y[j] {
          return false;
        }
        i, j := i + 1, j + 1;
      }
    }

    method EqBlk(m: Block, n: Block) returns (eq: bool)
      ensures eq <==> Same(m, n)
    {
      eq := false;
      if m.s == n.s && m.jt == n.jt && m.jf == n.jf {
        eq := EqSlist(m.stmts, n.stmts);
      }
    }

    method MakeMarks(p: nat)
      requires Ranked(GraphOf(pool), h) && p < |pool|
      requires Settled(GraphOf(pool), h, marked, h[p])
      modifies `marked
      ensures marked == old(marked) + Reach(GraphOf(pool), h, p)
      decreases h[p]
    {
      ghost var g := GraphOf(pool);
      if p !in marked {
        assert Falls(g, h, p) && g[p] == NodeOf(pool[p]);
        SettledMark(g, h, marked, p);
        marked := marked + {p};
        if pool[p].s.Jmp? {
          SettledVisit(g, h, marked, pool[p].jt, h[p] as int - 1);
          MakeMarks(pool[p].jt);
          MakeMarks(pool[p].jf);
        }
      }
    }

    /** The first later block, with its own link followed, that does what block
        i does. */
    method FindTwin(i: nat) returns (l: int)
      requires i < |pool| == |link| && i in marked
      requires forall b | i < b < |pool| && link[b] != NULL :: b < link[b] < |pool| && Same(pool[b], pool[link[b]])
      ensures l != NULL ==> i < l < |pool| && Same(pool[i], pool[l])
      ensures l == NULL ==> forall j | i < j < |pool| && j in marked :: !Same(pool[i], pool[j])
    {
      for j := i + 1 to |pool|
        invariant forall k | i < k < j && k in marked :: !Same(pool[i], pool[k])
      {
        if j in marked {
          var eq := EqBlk(pool[i], pool[j]);
          if eq {
            return if link[j] != NULL then link[j] else j;
          }
        }
      }
      return NULL;
    }

    method FindLinks()
      requires |pool| > 0
      modifies `link
      ensures Links(pool, link)
      ensures forall i, j | i in marked && j in marked && 0 <= i < j < |pool| && Same(pool[i], pool[j]) ::
        link[i] != NULL
    {
      link := seq(|pool|, _ => NULL);
      var i := |pool| - 1;
      while i > 0
        invariant 0 <= i < |pool| == |link|
        invariant forall b | 0 <= b < |pool| && link[b] != NULL ::
          i <= b < link[b] < |pool| && Same(pool[b], pool[link[b]])
        invariant forall b, c | b in marked && c in marked && i <= b < c < |pool| && Same(pool[b], pool[c]) ::
          link[b] != NULL
      {
        i := i - 1;
        if i in marked {
          var l := FindTwin(i);
          link := link[i := l];
        }
      }
    }

    /** Sends every edge to the linked block; true if there was none to send. */
    method Redirect() returns (done: bool)
      requires Links(pool, link) && Edges(pool)
      modifies `pool
      ensures Relinked(old(pool), pool, link)
      ensures done <==> pool == old(pool)
    {
      done := true;
      for i := 0 to |pool|
        invariant |pool| == |old(pool)|
        invariant forall b | 0 <= b < |pool| :: pool[b] == if b < i then Relink(old(pool)[b], link) else old(pool)[b]
        invariant done <==> pool == old(pool)
      {
        ghost var was := pool;
        var p := pool[i];
        assert p == old(pool)[i];
        if p.jt != NULL {
          if link[p.jt] != NULL {
            done := false;
            p := p.(jt := link[p.jt]);
          }
          if link[p.jf] != NULL {
            done := false;
            p := p.(jf := link[p.jf]);
          }
          pool := pool[i := p];
          assert p != old(pool)[i] ==> pool[i] != old(pool)[i];
        }
      }
    }

    /** Marks, links and redirects; true if no edge moved. */
    method Round(root: nat) returns (done: bool)
      requires Heights(pool, h) && Edges(pool) && root < |pool|
      modifies `pool, `marked, `link
      ensures Links(old(pool), link) && Relinked(old(pool), pool, link)
      ensures Heights(pool, h) && Edges(pool)
      ensures done ==> pool == old(pool) && NoTwins(pool, Reach(GraphOf(pool), h, root))
      ensures !done ==> pool != old(pool)
    {
      ghost var was := pool;
      marked := {};
      MakeMarks(root);
      FindLinks();
      done := Redirect();
      RelinkHeights(was, pool, link, h);
      RelinkEdges(was, pool, link);
      if done {
        Settles(pool, h, root, link);
      }
    }

    /** Repeats until no edge moves. */
    method InternBlocks(root: nat)
      requires Heights(pool, h) && Edges(pool) && root < |pool|
      modifies `pool, `marked, `link
      ensures Heights(pool, h) && SameRuns(old(pool), pool, h)
      ensures NoTwins(pool, Reach(GraphOf(pool), h, root)) && (LeavesEnd(old(pool)) ==> LeavesEnd(pool))
    {
      var done := false;
      while !done
        invariant LeavesEnd(old(pool)) ==> LeavesEnd(pool)
        invariant Heights(pool, h) && Edges(pool) && SameRuns(old(pool), pool, h)
        invariant done ==> NoTwins(pool, Reach(GraphOf(pool), h, root))
        decreases Slack(pool, |pool|), !done
      {
        ghost var was := pool;
        done := Round(root);
        RelinkSameRuns(old(pool), was, pool, link, h);
        if LeavesEnd(was) {
          RelinkLeaves(was, pool, link);
        }
        if !done {
          RelinkSlack(was, pool, link);
        }
      }
    }
  }
}
