/** The pool of blocks that the code generator, the optimizer and the layout
    pass share and update in place. A block pointer is a position in the pool. */
module Blocks {
  import opened Bpf
  import opened Flow

  const NULL: int := -1

  datatype Branch = Jmp(cond: Cond) | Ret(k: Word)

  /** `jt` and `jf` are the two successors; while an exit is unresolved its
      field links to the next block that waits for the same target. */
  datatype Block = Block(stmts: seq<Stmt>, s: Branch, jt: int, jf: int, sense: bool, head: nat) {
    function Field(side: bool): int { if side then jf else jt }
    function With(side: bool, b: int): Block { if side then this.(jf := b) else this.(jt := b) }
    function Flip(): Block { this.(sense := !sense) }
  }

  type Pool = seq<Block>

  function NodeOf(b: Block): Node<int> {
    match b.s
    case Ret(k) => Leaf(k)
    case Jmp(c) => Fork(b.stmts, c, b.jt, b.jf)
  }

  /** The flow graph that the pool holds. */
  ghost function GraphOf(pool: Pool): Graph<int> {
    map b: int | 0 <= b < |pool| :: NodeOf(pool[b])
  }

  /** Blocks that return have neither successors nor statements. */
  ghost predicate LeavesEnd(pool: Pool) {
    forall b | 0 <= b < |pool| && pool[b].s.Ret? :: pool[b].jt == NULL && pool[b].jf == NULL && pool[b].stmts == []
  }

  /** A block has two successors in the pool or none at all. */
  ghost predicate Edges(pool: Pool) {
    forall b | 0 <= b < |pool| ::
      || (pool[b].jt == NULL && pool[b].jf == NULL)
      || (0 <= pool[b].jt < |pool| && 0 <= pool[b].jf < |pool|)
  }

  /** h is one more than the larger height of the successors, 0 at a leaf. */
  ghost predicate Height(pool: Pool, h: map<int, nat>, b: int) {
    0 <= b < |pool| && b in h &&
    if pool[b].s.Ret? then h[b] == 0 else
    var t, f := pool[b].jt, pool[b].jf;
    t in h && f in h && h[b] == 1 + if h[t] > h[f] then h[t] else h[f]
  }

  /** The graph is acyclic, and h is the length of the longest way to a leaf. */
  ghost predicate Heights(pool: Pool, h: map<int, nat>) {
    && Ranked(GraphOf(pool), h)
    && forall b {:trigger Height(pool, h, b)} | 0 <= b < |pool| :: Height(pool, h, b)
  }
}
