/** Flow graphs of blocks, as values: what a packet does in one, whatever the
    blocks are (T is the type of their identities). */
module Flow {
  import opened Basics
  import opened Bpf

  datatype Node<T> =
    | Leaf(k: Word)
    | Fork(stmts: seq<Stmt>, cond: Cond, jt: T, jf: T)

  type Graph<T> = map<T, Node<T>>

  /** The branch of b stays in the graph and strictly lowers the rank. */
  ghost predicate Falls<T>(g: Graph<T>, r: map<T, nat>, b: T)
    requires g.Keys <= r.Keys && b in g
  {
    g[b].Fork? ==>
      && g[b].jt in g && r[g[b].jt] < r[b]
      && g[b].jf in g && r[g[b].jf] < r[b]
  }

  /** The graph is closed and acyclic. */
  ghost predicate Ranked<T>(g: Graph<T>, r: map<T, nat>) {
    && g.Keys <= r.Keys
    && forall b {:trigger Falls(g, r, b)} | b in g :: Falls(g, r, b)
  }

  /** The value the filter returns when it starts at block b in state st; None
      when a statement rejects the packet on the way. */
  ghost function Run<T>(g: Graph<T>, r: map<T, nat>, b: T, p: Packet, st: State): Option<Word>
    requires Ranked(g, r) && b in g
    decreases r[b]
  {
    assert Falls(g, r, b);
    match g[b]
    case Leaf(k) => Some(k)
    case Fork(ss, c, jt, jf) =>
      match ExecAll(ss, p, st)
      case None => None
      case Some(st') => Run(g, r, if Taken(c, st') then jt else jf, p, st')
  }

  /** The blocks that a run from b can visit. */
  ghost function Reach<T>(g: Graph<T>, r: map<T, nat>, b: T): (s: set<T>)
    requires Ranked(g, r) && b in g
    ensures b in s && s <= g.Keys
    decreases r[b]
  {
    assert Falls(g, r, b);
    if g[b].Leaf? then {b} else {b} + Reach(g, r, g[b].jt) + Reach(g, r, g[b].jf)
  }

  lemma {:induction false} ReachClosed<T>(g: Graph<T>, r: map<T, nat>, b: T, x: T)
    requires Ranked(g, r) && b in g && x in Reach(g, r, b)
    ensures Reach(g, r, x) <= Reach(g, r, b) && r[x] <= r[b]
    decreases r[b]
  {
    assert Falls(g, r, b);
    if g[b].Fork? && x != b {
      if x in Reach(g, r, g[b].jt) {
        ReachClosed(g, r, g[b].jt, x);
      } else {
        ReachClosed(g, r, g[b].jf, x);
      }
    }
  }

  /** A depth-first walk that has marked m: whatever is marked at rank n or
      below is marked with all that it reaches. */
  ghost predicate Settled<T>(g: Graph<T>, r: map<T, nat>, m: set<T>, n: int)
    requires Ranked(g, r)
  {
    m <= g.Keys && forall x {:trigger r[x]} | x in m && r[x] <= n :: Reach(g, r, x) <= m
  }

  /** Marking a block keeps everything below it settled. */
  lemma SettledMark<T>(g: Graph<T>, r: map<T, nat>, m: set<T>, b: T)
    requires Ranked(g, r) && b in g && Settled(g, r, m, r[b])
    ensures Settled(g, r, m + {b}, r[b] as int - 1)
  {
  }

  /** Visiting all that b reaches keeps what is settled settled. */
  lemma SettledVisit<T>(g: Graph<T>, r: map<T, nat>, m: set<T>, b: T, n: int)
    requires Ranked(g, r) && b in g && Settled(g, r, m, n) && r[b] <= n
    ensures Settled(g, r, m + Reach(g, r, b), n)
  {
    forall x | x in m + Reach(g, r, b) && r[x] <= n
      ensures Reach(g, r, x) <= m + Reach(g, r, b)
    {
      if x !in m {
        ReachClosed(g, r, b, x);
      }
    }
  }

  /** Every block that a run from b can visit, other than b, is a successor of
      another such block. */
  lemma {:induction false} ReachPred<T>(g: Graph<T>, r: map<T, nat>, b: T, x: T) returns (y: T)
    requires Ranked(g, r) && b in g && x in Reach(g, r, b) && x != b
    ensures y in Reach(g, r, b) && g[y].Fork? && (g[y].jt == x || g[y].jf == x)
    decreases r[b]
  {
    assert Falls(g, r, b);
    if g[b].jt == x || g[b].jf == x {
      y := b;
    } else if x in Reach(g, r, g[b].jt) {
      y := ReachPred(g, r, g[b].jt, x);
    } else {
      y := ReachPred(g, r, g[b].jf, x);
    }
  }
}
