/** Blocks that load all they test: what such a block decides depends on the
    packet alone, and a flow graph of them is a decision diagram. The branch
    optimizer moves branches of these. */
module Decisions {
  import opened Basics
  import opened Bpf
  import opened Flow
  import opened Blocks

  /** The block rejects the packet on the spot. */
  predicate Faults(b: Block, p: Packet) {
    ExecAll(b.stmts, p, Zero()).None?
  }

  /** The accumulator on exit. */
  function Acc(b: Block, p: Packet): Word
    requires !Faults(b, p)
  {
    ExecAll(b.stmts, p, Zero()).value[A_ATOM]
  }

  /** What the branch compares the accumulator with. */
  function Operand(b: Block, p: Packet): Word
    requires !Faults(b, p) && b.s.Jmp?
  {
    match b.s.cond
    case JmpK(_, k) => k
    case JmpX(_) => ExecAll(b.stmts, p, Zero()).value[X_ATOM]
  }

  predicate Decide(b: Block, p: Packet)
    requires !Faults(b, p) && b.s.Jmp?
  {
    Holds(b.s.cond.test, Acc(b, p), Operand(b, p))
  }

  /** From any state the statements do the same to what the branch looks at. */
  ghost predicate LoadsFirst(b: Block, p: Packet, st: State)
    requires b.s.Jmp?
  {
    match ExecAll(b.stmts, p, st)
    case None => Faults(b, p)
    case Some(end) =>
      && !Faults(b, p)
      && end[A_ATOM] == Acc(b, p)
      && (b.s.cond.JmpX? ==> end[X_ATOM] == Operand(b, p))
  }

  ghost predicate SelfContained(b: Block) {
    b.s.Jmp? ==> forall p: Packet, st: State :: LoadsFirst(b, p, st)
  }

  ghost predicate AllSelfContained(pool: Pool) {
    forall b | 0 <= b < |pool| :: SelfContained(pool[b])
  }

  function Succ(b: Block, taken: bool): int {
    if taken then b.jt else b.jf
  }

  /** The value returned for p from block b on; None when the packet is
      rejected on the spot. */
  ghost function Go(pool: Pool, r: map<int, nat>, b: int, p: Packet): Option<Word>
    requires Ranked(GraphOf(pool), r) && 0 <= b < |pool|
    decreases r[b]
  {
    assert GraphOf(pool)[b] == NodeOf(pool[b]) && Falls(GraphOf(pool), r, b);
    match pool[b].s
    case Ret(k) => Some(k)
    case Jmp(_) => if Faults(pool[b], p) then None else Go(pool, r, Succ(pool[b], Decide(pool[b], p)), p)
  }

  /** The machine agrees, whatever state it starts in. */
  lemma {:induction false} GoRun(pool: Pool, r: map<int, nat>, b: int, p: Packet, st: State)
    requires Ranked(GraphOf(pool), r) && 0 <= b < |pool| && AllSelfContained(pool)
    ensures Run(GraphOf(pool), r, b, p, st) == Go(pool, r, b, p)
    decreases r[b]
  {
    assert GraphOf(pool)[b] == NodeOf(pool[b]) && Falls(GraphOf(pool), r, b);
    if pool[b].s.Jmp? {
      assert SelfContained(pool[b]) && LoadsFirst(pool[b], p, st);
      if !Faults(pool[b], p) {
        GoRun(pool, r, Succ(pool[b], Decide(pool[b], p)), p, ExecAll(pool[b].stmts, p, st).value);
      }
    }
  }

  /** The blocks that p visits from b on. */
  ghost function Visits(pool: Pool, r: map<int, nat>, b: int, p: Packet): (s: set<int>)
    requires Ranked(GraphOf(pool), r) && 0 <= b < |pool|
    ensures b in s
    decreases r[b]
  {
    assert GraphOf(pool)[b] == NodeOf(pool[b]) && Falls(GraphOf(pool), r, b);
    match pool[b].s
    case Ret(k) => {b}
    case Jmp(_) => if Faults(pool[b], p) then {b} else {b} + Visits(pool, r, Succ(pool[b], Decide(pool[b], p)), p)
  }

  /** A visited block is where p started, or p came from a visited block. */
  lemma {:induction false} VisitsPred(pool: Pool, r: map<int, nat>, b: int, p: Packet, x: int) returns (y: int)
    requires Ranked(GraphOf(pool), r) && 0 <= b < |pool| && x in Visits(pool, r, b, p) && x != b
    ensures y in Visits(pool, r, b, p) && 0 <= y < |pool| && pool[y].s.Jmp? && !Faults(pool[y], p)
    ensures Succ(pool[y], Decide(pool[y], p)) == x
    decreases r[b]
  {
    assert GraphOf(pool)[b] == NodeOf(pool[b]) && Falls(GraphOf(pool), r, b);
    var c := Succ(pool[b], Decide(pool[b], p));
    if c == x {
      y := b;
    } else {
      y := VisitsPred(pool, r, c, p, x);
    }
  }

  /** A packet that is not rejected on the spot faults in no block it visits. */
  lemma {:induction false} VisitsSafe(pool: Pool, r: map<int, nat>, b: int, p: Packet, x: int)
    requires Ranked(GraphOf(pool), r) && 0 <= b < |pool| && x in Visits(pool, r, b, p)
    ensures 0 <= x < |pool| && r[x] <= r[b] && Go(pool, r, x, p) == Go(pool, r, b, p)
    decreases r[b]
  {
    assert GraphOf(pool)[b] == NodeOf(pool[b]) && Falls(GraphOf(pool), r, b);
    if x != b {
      VisitsSafe(pool, r, Succ(pool[b], Decide(pool[b], p)), p, x);
    }
  }

  /** The same blocks, but for the targets of their branches. */
  ghost predicate SameTests(pool: Pool, pool': Pool) {
    |pool'| == |pool| && forall b | 0 <= b < |pool| :: pool'[b].stmts == pool[b].stmts && pool'[b].s == pool[b].s
  }

  /** No packet that gets through the first graph sees a difference. */
  ghost predicate SameMeaning(pool: Pool, pool': Pool, r: map<int, nat>, root: int)
    requires Ranked(GraphOf(pool), r) && Ranked(GraphOf(pool'), r) && 0 <= root < |pool| == |pool'|
  {
    forall p :: Go(pool, r, root, p).Some? ==> Go(pool', r, root, p) == Go(pool, r, root, p)
  }

  lemma MeaningTwice(a: Pool, b: Pool, c: Pool, r: map<int, nat>, root: int)
    requires Ranked(GraphOf(a), r) && Ranked(GraphOf(b), r) && Ranked(GraphOf(c), r) && 0 <= root < |a| == |b| == |c|
    requires SameMeaning(a, b, r, root) && SameMeaning(b, c, r, root)
    ensures SameMeaning(a, c, r, root)
  {
  }

  // -------------------------------------------------------- moving one edge

  lemma {:induction false} GoBelow(pool: Pool, pool': Pool, r: map<int, nat>, e: int, x: int, p: Packet)
    requires Ranked(GraphOf(pool), r) && Ranked(GraphOf(pool'), r) && SameTests(pool, pool')
    requires forall b | 0 <= b < |pool| && b != e :: pool'[b] == pool[b]
    requires 0 <= x < |pool| && 0 <= e < |pool| && r[x] < r[e]
    ensures Go(pool', r, x, p) == Go(pool, r, x, p)
    decreases r[x]
  {
    assert GraphOf(pool)[x] == NodeOf(pool[x]) && Falls(GraphOf(pool), r, x);
    if pool[x].s.Jmp? && !Faults(pool[x], p) {
      GoBelow(pool, pool', r, e, Succ(pool[x], Decide(pool[x], p)), p);
    }
  }

  /** When only block e changes, and p, should it visit e, goes on from a block
      that gives the same result, p sees no difference. */
  lemma {:induction false} GoMoved(pool: Pool, pool': Pool, r: map<int, nat>, e: int, b: int, p: Packet)
    requires Ranked(GraphOf(pool), r) && Ranked(GraphOf(pool'), r) && SameTests(pool, pool')
    requires forall x | 0 <= x < |pool| && x != e :: pool'[x] == pool[x]
    requires 0 <= b < |pool| && 0 <= e < |pool| && pool[e].s.Jmp?
    requires Succ(pool'[e], true) in GraphOf(pool) && Succ(pool'[e], false) in GraphOf(pool)
    requires e in Visits(pool, r, b, p) && !Faults(pool[e], p) ==>
      Go(pool, r, Succ(pool'[e], Decide(pool[e], p)), p) == Go(pool, r, b, p)
    ensures Go(pool', r, b, p) == Go(pool, r, b, p)
    decreases r[b]
  {
    assert GraphOf(pool)[b] == NodeOf(pool[b]) && Falls(GraphOf(pool), r, b);
    assert GraphOf(pool')[b] == NodeOf(pool'[b]) && Falls(GraphOf(pool'), r, b);
    if pool[b].s.Jmp? && !Faults(pool[b], p) {
      if b == e {
        GoBelow(pool, pool', r, e, Succ(pool'[e], Decide(pool[e], p)), p);
      } else {
        GoMoved(pool, pool', r, e, Succ(pool[b], Decide(pool[b], p)), p);
      }
    }
  }
}
