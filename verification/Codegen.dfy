/** Code generation by backpatching: gen_and, gen_or, gen_not and finish_parse
    splice a compound test out of blocks whose unresolved exits are threaded
    through the very jt and jf fields that will hold their targets. */
module Codegen {
  import opened Basics
  import opened Bpf
  import opened Flow
  import opened Blocks

  // ---------------------------------------------------------------- meaning

  datatype Filter =
    | Prim(stmts: seq<Stmt>, cond: Cond)
    | And(l: Filter, r: Filter)
    | Or(l: Filter, r: Filter)
    | Not(e: Filter)

  datatype Outcome = Reject | Exit(taken: bool, st: State)

  /** A filter read left to right: the second operand is looked at only when
      the first has not decided, and a load out of range rejects the packet
      whatever the operators around it are. */
  function Eval(f: Filter, p: Packet, st: State): Outcome {
    match f
    case Prim(ss, c) =>
      (match ExecAll(ss, p, st)
       case None => Reject
       case Some(st') => Exit(Taken(c, st'), st'))
    case And(l, r) =>
      var o := Eval(l, p, st);
      if o.Exit? && o.taken then Eval(r, p, o.st) else o
    case Or(l, r) =>
      var o := Eval(l, p, st);
      if o.Exit? && !o.taken then Eval(r, p, o.st) else o
    case Not(e) =>
      var o := Eval(e, p, st);
      if o.Exit? then Exit(!o.taken, o.st) else o
  }

  // ------------------------------------------------- graphs with open exits

  /** One side of a block leads to another block or to one of the two exits of
      the compound test. */
  datatype Dest = To(b: nat) | Out(taken: bool)

  datatype Open = Open(stmts: seq<Stmt>, cond: Cond, t: Dest, f: Dest) {
    function At(side: bool): Dest { if side then f else t }
  }

  /** What a compound test stands for: its blocks with both exits still
      symbolic, its entry, and the blocks that wait for the true and for the
      false target, in list order. */
  datatype View = View(g: map<nat, Open>, rank: map<nat, nat>, height: nat,
                       entry: nat, tl: seq<nat>, fl: seq<nat>)
  {
    function List(e: bool): seq<nat> { if e then tl else fl }
  }

  ghost predicate Below(v: View, d: Dest, n: nat) {
    d.To? ==> d.b in v.g && d.b in v.rank && v.rank[d.b] < n
  }

  ghost predicate NodeBelow(v: View, b: nat) {
    && b in v.g && b in v.rank && v.rank[b] < v.height
    && Below(v, v.g[b].t, v.rank[b]) && Below(v, v.g[b].f, v.rank[b])
  }

  /** The graph of the view is closed and acyclic. */
  ghost predicate Layered(v: View) {
    && v.entry in v.g
    && v.rank.Keys == v.g.Keys
    && forall b {:trigger NodeBelow(v, b)} | b in v.g :: NodeBelow(v, b)
  }

  ghost function Walk(v: View, d: Dest, p: Packet, st: State): Outcome
    requires Layered(v) && (d.To? ==> d.b in v.g)
    decreases if d.To? then v.rank[d.b] + 1 else 0
  {
    match d
    case Out(e) => Exit(e, st)
    case To(b) =>
      assert NodeBelow(v, b);
      var n := v.g[b];
      match ExecAll(n.stmts, p, st)
      case None => Reject
      case Some(st') => Walk(v, n.At(!Taken(n.cond, st')), p, st')
  }

  ghost predicate Means(v: View, f: Filter)
    requires Layered(v)
  {
    forall p, st :: Walk(v, To(v.entry), p, st) == Eval(f, p, st)
  }

  ghost function Redirect(d: Dest, onT: Dest, onF: Dest): Dest {
    if d.To? then d else if d.taken then onT else onF
  }

  ghost function Splice(g: map<nat, Open>, onT: Dest, onF: Dest): map<nat, Open> {
    map b | b in g :: g[b].(t := Redirect(g[b].t, onT, onF), f := Redirect(g[b].f, onT, onF))
  }

  ghost function Lift(rank: map<nat, nat>, n: nat): map<nat, nat> {
    map b | b in rank :: rank[b] + n
  }

  /** v0 with its exit e tied to the entry of v1, and its other exit shared with v1. */
  ghost function Join(v0: View, v1: View, e: bool): View {
    View(Splice(v0.g, if e then To(v1.entry) else Out(true), if e then Out(false) else To(v1.entry)) + v1.g,
         Lift(v0.rank, v1.height) + v1.rank, v0.height + v1.height, v0.entry,
         if e then v1.tl else v1.tl + v0.tl, if e then v1.fl + v0.fl else v1.fl)
  }

  ghost function Negated(v: View): View {
    v.(g := Splice(v.g, Out(false), Out(true)), tl := v.fl, fl := v.tl)
  }

  /** Plugging targets into the two exits continues every walk there. */
  lemma {:induction false} SpliceWalk(v: View, w: View, onT: Dest, onF: Dest, d: Dest, p: Packet, st: State)
    requires Layered(v) && Layered(w)
    requires d.To? ==> d.b in v.g
    requires onT.To? ==> onT.b in w.g
    requires onF.To? ==> onF.b in w.g
    requires forall b | b in v.g :: b in w.g && w.g[b] == Splice(v.g, onT, onF)[b]
    ensures Walk(w, Redirect(d, onT, onF), p, st) ==
            match Walk(v, d, p, st)
            case Reject => Reject
            case Exit(t, st') => Walk(w, if t then onT else onF, p, st')
    decreases if d.To? then v.rank[d.b] + 1 else 0
  {
    if d.To? {
      assert NodeBelow(v, d.b);
      var n := v.g[d.b];
      match ExecAll(n.stmts, p, st)
      case None =>
      case Some(st') => SpliceWalk(v, w, onT, onF, n.At(!Taken(n.cond, st')), p, st');
    }
  }

  lemma SpliceNothing(g: map<nat, Open>)
    ensures Splice(g, Out(true), Out(false)) == g
  {
    assert forall b | b in g :: Splice(g, Out(true), Out(false))[b] == g[b];
  }

  lemma JoinLayered0(v0: View, v1: View, e: bool, b: nat)
    requires Layered(v0) && v1.entry in v1.g && v1.rank.Keys == v1.g.Keys && v1.rank[v1.entry] < v1.height
    requires v0.g.Keys !! v1.g.Keys && b in v0.g
    ensures NodeBelow(Join(v0, v1, e), b)
  {
    assert NodeBelow(v0, b);
  }

  /** Putting v0 above v1 gives an acyclic graph again. */
  lemma JoinLayered(v0: View, v1: View, e: bool)
    requires Layered(v0) && Layered(v1) && v0.g.Keys !! v1.g.Keys
    ensures Layered(Join(v0, v1, e))
  {
    var w := Join(v0, v1, e);
    assert NodeBelow(v1, v1.entry) && NodeBelow(v0, v0.entry);
    forall b | b in w.g ensures NodeBelow(w, b) {
      if b in v1.g {
        assert NodeBelow(v1, b);
      } else {
        JoinLayered0(v0, v1, e, b);
      }
    }
  }

  /** What a join does: a walk of v0, continued in v1 from the tied exit. */
  lemma JoinWalk(v0: View, v1: View, e: bool, p: Packet, st: State)
    requires Layered(v0) && Layered(v1) && v0.g.Keys !! v1.g.Keys && Layered(Join(v0, v1, e))
    ensures Walk(Join(v0, v1, e), To(v0.entry), p, st) ==
            var o := Walk(v0, To(v0.entry), p, st);
            if o.Exit? && o.taken == e then Walk(v1, To(v1.entry), p, o.st) else o
  {
    var w := Join(v0, v1, e);
    var onT, onF := if e then To(v1.entry) else Out(true), if e then Out(false) else To(v1.entry);
    assert forall b | b in v0.g :: b in w.g && w.g[b] == Splice(v0.g, onT, onF)[b];
    SpliceWalk(v0, w, onT, onF, To(v0.entry), p, st);
    var o := Walk(v0, To(v0.entry), p, st);
    if o.Exit? {
      SpliceNothing(v1.g);
      SpliceWalk(v1, w, Out(true), Out(false), To(v1.entry), p, o.st);
    }
  }

  function Combine(f0: Filter, f1: Filter, e: bool): Filter {
    if e then And(f0, f1) else Or(f0, f1)
  }

  /** Conjunction is v1 after the true exit of v0, disjunction after the false one. */
  lemma JoinMeans(v0: View, v1: View, f0: Filter, f1: Filter, e: bool)
    requires Layered(v0) && Layered(v1) && v0.g.Keys !! v1.g.Keys
    requires Means(v0, f0) && Means(v1, f1)
    ensures Layered(Join(v0, v1, e)) && Means(Join(v0, v1, e), Combine(f0, f1, e))
  {
    JoinLayered(v0, v1, e);
    forall p, st
      ensures Walk(Join(v0, v1, e), To(v0.entry), p, st) == Eval(Combine(f0, f1, e), p, st)
    {
      JoinWalk(v0, v1, e, p, st);
    }
  }

  lemma NegMeans(v: View, f: Filter)
    requires Layered(v) && Means(v, f)
    ensures Layered(Negated(v)) && Means(Negated(v), Not(f))
  {
    var w := Negated(v);
    forall b | b in w.g ensures NodeBelow(w, b) {
      assert NodeBelow(v, b);
    }
    forall p, st ensures Walk(w, To(w.entry), p, st) == Eval(Not(f), p, st) {
      SpliceWalk(v, w, Out(false), Out(true), To(v.entry), p, st);
    }
  }

  // ------------------------------------------- lists threaded through blocks

  ghost predicate Within(l: seq<nat>, n: nat) {
    forall i | 0 <= i < |l| :: l[i] < n
  }

  function NextIn(l: seq<nat>, i: nat): int {
    if i + 1 < |l| then l[i + 1] else NULL
  }

  /** Following, from the first block its side s and from the others the side
      that their sense selects, visits l. */
  ghost predicate Chain(pool: Pool, l: seq<nat>, s: bool) {
    && |l| > 0 && NoDups(l) && Within(l, |pool|)
    && forall i {:trigger NextIn(l, i)} | 0 <= i < |l| ::
         pool[l[i]].Field(if i == 0 then s else pool[l[i]].sense) == NextIn(l, i)
  }

  /** The side of block b that is on the list for exit e of the compound p. */
  function Side(n: Block, b: nat, p: nat, e: bool): bool {
    if b == p then n.sense == e else n.sense
  }

  /** What gen_and (e true) and gen_or (e false) make of the block b: one of
      the first operand b0 that waits for exit e (is on l0) is sent to the
      entry of the second operand b1, and the last block of b1 that waits for
      the other exit (on l1) gets the list of b0 for that exit. */
  function After(n: Block, b: nat, b0: nat, b1: nat, l0: seq<nat>, l1: seq<nat>, target: nat, head: nat, e: bool): Block
    requires |l1| > 0
  {
    if b in l0 then
      var m := n.With(Side(n, b, b0, e), target);
      if b == b0 then m.(sense := n.sense == !e) else m
    else
      var m := if b == l1[|l1| - 1] then n.With(Side(n, b, b1, !e), b0) else n;
      if b == b1 then m.(head := head) else m
  }

  ghost predicate Spliced(pool: Pool, pool': Pool, b0: nat, b1: nat, l0: seq<nat>, l1: seq<nat>, e: bool) {
    && |pool'| == |pool| && b0 < |pool| && b1 < |pool| && |l1| > 0
    && forall b | 0 <= b < |pool| ::
         pool'[b] == After(pool[b], b, b0, b1, l0, l1, pool[b1].head, pool[b0].head, e)
  }

  /** The code generator's blocks, and the operations that splice them. */
  class Compiler {
    var pool: Pool

    constructor ()
      ensures pool == []
    {
      pool := [];
    }

    method NewBlock(s: Branch, stmts: seq<Stmt>) returns (b: nat)
      modifies this
      ensures b == |old(pool)| && pool == old(pool) + [Block(stmts, s, NULL, NULL, false, b)]
    {
      b := |pool|;
      pool := pool + [Block(stmts, s, NULL, NULL, false, b)];
    }

    /** Sends the unresolved exit of every block on the list to the target. */
    method Backpatch(list: nat, target: nat, ghost l: seq<nat>)
      requires list < |pool| && Chain(pool, l, pool[list].sense) && l[0] == list
      modifies this
      ensures |pool| == |old(pool)|
      ensures forall b | 0 <= b < |pool| ::
        pool[b] == if b in l then old(pool)[b].With(old(pool)[b].sense, target) else old(pool)[b]
    {
      var cur: int := list;
      ghost var i := 0;
      while cur != NULL
        invariant i <= |l| && cur == (if i < |l| then l[i] else NULL)
        invariant |pool| == |old(pool)|
        invariant forall b | 0 <= b < |pool| ::
          pool[b] == if b in l[..i] then old(pool)[b].With(old(pool)[b].sense, target) else old(pool)[b]
        decreases |l| - i
      {
        assert old(pool)[l[i]].Field(old(pool)[l[i]].sense) == NextIn(l, i);
        assert l[i] !in l[..i] && l[..i + 1] == l[..i] + [l[i]];
        var next;
        if !pool[cur].sense {
          next := pool[cur].jt;
          pool := pool[cur := pool[cur].(jt := target)];
        } else {
          next := pool[cur].jf;
          pool := pool[cur := pool[cur].(jf := target)];
        }
        cur := next;
        i := i + 1;
      }
      assert l[..i] == l;
    }

    /** Appends the list of b1 to the list of b0. */
    method Merge(b0: nat, b1: nat, ghost l: seq<nat>)
      requires b0 < |pool| && Chain(pool, l, pool[b0].sense) && l[0] == b0
      modifies this
      ensures var z := l[|l| - 1]; pool == old(pool)[z := old(pool)[z].With(old(pool)[z].sense, b1)]
    {
      var last := b0;
      ghost var i := 0;
      assert pool[last].Field(pool[last].sense) == NextIn(l, i);
      while (if !pool[last].sense then pool[last].jt else pool[last].jf) != NULL
        invariant i < |l| && last == l[i] && pool == old(pool)
        invariant pool[last].Field(pool[last].sense) == NextIn(l, i)
        decreases |l| - i
      {
        last := if !pool[last].sense then pool[last].jt else pool[last].jf;
        i := i + 1;
        assert pool[last].Field(pool[last].sense) == NextIn(l, i);
      }
      if !pool[last].sense {
        pool := pool[last := pool[last].(jt := b1)];
      } else {
        pool := pool[last := pool[last].(jf := b1)];
      }
    }

    method Flip(b: nat)
      requires b < |pool|
      modifies this
      ensures pool == old(pool)[b := old(pool)[b].Flip()]
    {
      pool := pool[b := pool[b].(sense := !pool[b].sense)];
    }

    /** l0 is the list of b0 for its true exit, l1 that of b1 for its false exit. */
    method GenAnd(b0: nat, b1: nat, ghost l0: seq<nat>, ghost l1: seq<nat>)
      requires b0 < |pool| && b1 < |pool| && forall b | b in l0 :: b !in l1
      requires Chain(pool, l0, pool[b0].sense) && l0[0] == b0
      requires Chain(pool, l1, !pool[b1].sense) && l1[0] == b1
      modifies this
      ensures Spliced(old(pool), pool, b0, b1, l0, l1, true)
    {
      Backpatch(b0, pool[b1].head, l0);
      Flip(b0);
      Flip(b1);
      Merge(b1, b0, l1);
      Flip(b1);
      pool := pool[b1 := pool[b1].(head := pool[b0].head)];
    }

    /** l0 is the list of b0 for its false exit, l1 that of b1 for its true exit. */
    method GenOr(b0: nat, b1: nat, ghost l0: seq<nat>, ghost l1: seq<nat>)
      requires b0 < |pool| && b1 < |pool| && forall b | b in l0 :: b !in l1
      requires Chain(pool, l0, !pool[b0].sense) && l0[0] == b0
      requires Chain(pool, l1, pool[b1].sense) && l1[0] == b1
      modifies this
      ensures Spliced(old(pool), pool, b0, b1, l0, l1, false)
    {
      Flip(b0);
      Backpatch(b0, pool[b1].head, l0);
      Flip(b0);
      Merge(b1, b0, l1);
      pool := pool[b1 := pool[b1].(head := pool[b0].head)];
    }

    /** gen_and (e) or gen_or on two operands, the second of which was generated
        after the first, in the pool `was`. */
    method GenJoin(ghost was: Pool, ghost lo: nat, b0: nat, b1: nat, ghost v0: View, ghost v1: View,
                   ghost f0: Filter, ghost f1: Filter, e: bool)
      requires Generated(was, lo, b0, v0, f0) && Generated(pool, |was|, b1, v1, f1) && |was| <= |pool|
        && pool[..|was|] == was
      modifies this
      ensures |pool| == |old(pool)| && pool[..lo] == old(pool)[..lo]
      ensures Generated(pool, lo, b1, Join(v0, v1, e), Combine(f0, f1, e))
    {
      hide Layered, Means, Made, Eval;
      ghost var pre := pool;
      OperandsReady(was, pre, lo, b0, b1, v0, v1, f0, f1, e);
      if e {
        GenAnd(b0, b1, v0.tl, v1.fl);
      } else {
        GenOr(b0, b1, v0.fl, v1.tl);
      }
      JoinGenerated(was, pre, pool, lo, b0, b1, v0, v1, f0, f1, e);
      JoinFrame(pre, pool, lo, b0, b1, v0, v1, e);
    }

    /** gen_not */
    method GenNot(b: nat, ghost lo: nat, ghost v: View, ghost f: Filter)
      requires Generated(pool, lo, b, v, f)
      modifies this
      ensures |pool| == |old(pool)| && pool[..lo] == old(pool)[..lo]
      ensures Generated(pool, lo, b, Negated(v), Not(f))
    {
      hide Represents, Layered, Means, Made;
      NotGenerated(pool, lo, b, v, f);
      Flip(b);
    }

    /** The parser's calls for a filter: left operand, right operand, operator. */
    method Gen(f: Filter) returns (b: nat, ghost v: View)
      modifies this
      ensures |old(pool)| <= |pool| && pool[..|old(pool)|] == old(pool)
      ensures Generated(pool, |old(pool)|, b, v, f)
    {
      hide Represents, Layered, Means, Made, Chain, Spliced, Eval, Listed;
      ghost var lo := |pool|;
      match f
      case Prim(ss, c) =>
        b := NewBlock(Jmp(c), ss);
        v := PrimView(b, ss, c);
        PrimGenerated(pool, b, ss, c);
      case And(l, r) => b, v := GenTwo(l, r, true);
      case Or(l, r) => b, v := GenTwo(l, r, false);
      case Not(e) =>
        b, v := Gen(e);
        GenNot(b, lo, v, e);
        v := Negated(v);
    }

    method GenTwo(l: Filter, r: Filter, e: bool) returns (b: nat, ghost v: View)
      modifies this
      ensures |old(pool)| <= |pool| && pool[..|old(pool)|] == old(pool)
      ensures Generated(pool, |old(pool)|, b, v, Combine(l, r, e))
      decreases Combine(l, r, e), 0
    {
      hide Generated;
      ghost var lo := |pool|;
      var b0, b1;
      ghost var v0, v1;
      b0, v0 := Gen(l);
      ghost var was := pool;
      b1, v1 := Gen(r);
      GenJoin(was, lo, b0, b1, v0, v1, l, r, e);
      b, v := b1, Join(v0, v1, e);
    }

    /** Ties the true exits of p to a block that returns the snapshot length and
        its false exits to one that returns 0; the root is the entry of p. */
    method FinishParse(p: nat, snaplen: Word, ghost v: View) returns (root: nat)
      requires Represents(pool, p, v)
      modifies this
      ensures Close(old(pool), pool, p, v, snaplen) && root == old(pool)[p].head
    {
      ghost var was := pool;
      var accept := NewBlock(Ret(snaplen), []);
      ClosingReady(was, pool, p, v);
      Backpatch(p, accept, v.tl);
      Flip(p);
      var reject := NewBlock(Ret(0), []);
      ClosingTurned(was, pool, p, v, accept);
      Backpatch(p, reject, v.fl);
      root := pool[p].head;
    }
  }

  /** The blocks from lo on are the view v, entered through p, and mean f. */
  ghost predicate Generated(pool: Pool, lo: nat, p: nat, v: View, f: Filter) {
    && lo <= |pool| && (forall i :: i in v.g <==> lo <= i < |pool|)
    && Represents(pool, p, v) && Layered(v) && Means(v, f) && Made(v, f)
  }

  /** The statements and the branch are those of a test in f. */
  predicate IsTest(f: Filter, ss: seq<Stmt>, c: Cond) {
    match f
    case Prim(ss', c') => ss' == ss && c' == c
    case And(l, r) => IsTest(l, ss, c) || IsTest(r, ss, c)
    case Or(l, r) => IsTest(l, ss, c) || IsTest(r, ss, c)
    case Not(e) => IsTest(e, ss, c)
  }

  /** Every block of the view is a test of f. */
  ghost predicate Made(v: View, f: Filter) {
    forall b | b in v.g :: IsTest(f, v.g[b].stmts, v.g[b].cond)
  }

  lemma NotGenerated(pool: Pool, lo: nat, b: nat, v: View, f: Filter)
    requires Generated(pool, lo, b, v, f)
    ensures lo <= b < |pool| && Generated(pool[b := pool[b].Flip()], lo, b, Negated(v), Not(f))
  {
    NegRepresents(pool, b, v);
    NegMeans(v, f);
    NegMade(v, f);
    assert b in v.g;
    hide Represents, Layered, Means, Made;
    assert Negated(v).g.Keys == v.g.Keys;
  }

  lemma NegMade(v: View, f: Filter)
    requires Made(v, f)
    ensures Made(Negated(v), Not(f))
  {
  }

  lemma JoinMade(v0: View, v1: View, f0: Filter, f1: Filter, e: bool)
    requires Made(v0, f0) && Made(v1, f1)
    ensures Made(Join(v0, v1, e), Combine(f0, f1, e))
  {
  }

  ghost function PrimView(b: nat, ss: seq<Stmt>, c: Cond): View {
    View(map[b := Open(ss, c, Out(true), Out(false))], map[b := 0], 1, b, [b], [b])
  }

  lemma PrimGenerated(pool: Pool, b: nat, ss: seq<Stmt>, c: Cond)
    requires b + 1 == |pool| && pool[b] == Block(ss, Jmp(c), NULL, NULL, false, b)
    ensures Generated(pool, b, b, PrimView(b, ss, c), Prim(ss, c))
  {
    var v := PrimView(b, ss, c);
    assert Layered(v);
    forall p, st ensures Walk(v, To(b), p, st) == Eval(Prim(ss, c), p, st) {
    }
  }

  /** Generating the second operand leaves the first one in place, and the two
      are ready to be joined. */
  lemma OperandsReady(was: Pool, pool: Pool, lo: nat, b0: nat, b1: nat, v0: View, v1: View, f0: Filter, f1: Filter,
      e: bool)
    requires Generated(was, lo, b0, v0, f0) && Generated(pool, |was|, b1, v1, f1) && pool[..|was|] == was
    ensures Represents(pool, b0, v0) && v0.g.Keys !! v1.g.Keys
    ensures b0 < |pool| && b1 < |pool| && forall b | b in v0.List(e) :: b !in v1.List(!e)
    ensures Chain(pool, v0.List(e), pool[b0].sense == e) && v0.List(e)[0] == b0
    ensures Chain(pool, v1.List(!e), pool[b1].sense == !e) && v1.List(!e)[0] == b1
  {
    forall b | b in v0.g ensures b < |pool| && pool[b] == was[b] {
      assert pool[..|was|][b] == was[b];
    }
    RepresentsAgree(was, pool, b0, v0);
    ListedChain(pool, b0, e, v0.List(e));
    ListedChain(pool, b1, !e, v1.List(!e));
    ListsApart(pool, b0, v0, e);
    ListsApart(pool, b1, v1, !e);
  }

  lemma JoinKeys(v0: View, v1: View, e: bool)
    ensures Join(v0, v1, e).g.Keys == v0.g.Keys + v1.g.Keys
  {
  }

  lemma JoinGenerated(was: Pool, pool: Pool, pool': Pool, lo: nat, b0: nat, b1: nat, v0: View, v1: View,
                      f0: Filter, f1: Filter, e: bool)
    requires Generated(was, lo, b0, v0, f0) && Generated(pool, |was|, b1, v1, f1) && pool[..|was|] == was
    requires Spliced(pool, pool', b0, b1, v0.List(e), v1.List(!e), e)
    ensures Generated(pool', lo, b1, Join(v0, v1, e), Combine(f0, f1, e))
  {
    OperandsReady(was, pool, lo, b0, b1, v0, v1, f0, f1, e);
    JoinRepresents(pool, pool', b0, b1, v0, v1, e);
    JoinMeans(v0, v1, f0, f1, e);
    JoinMade(v0, v1, f0, f1, e);
    JoinKeys(v0, v1, e);
  }

  /** Joining two tests touches nothing outside them. */
  lemma JoinFrame(pool: Pool, pool': Pool, lo: nat, b0: nat, b1: nat, v0: View, v1: View, e: bool)
    requires Represents(pool, b0, v0) && Represents(pool, b1, v1)
    requires Spliced(pool, pool', b0, b1, v0.List(e), v1.List(!e), e)
    requires lo <= |pool| && forall b | b in v0.g || b in v1.g :: lo <= b
    ensures pool'[..lo] == pool[..lo]
  {
    ListsApart(pool, b0, v0, e);
    ListsApart(pool, b1, v1, !e);
    forall b | 0 <= b < lo ensures pool'[b] == pool[b] {
      assert b !in v0.List(e) && b !in v1.List(!e);
    }
  }

  // ---------------------------------- what the pool says about a view

  /** Starting at p and following the fields for exit e visits l. */
  ghost predicate Listed(pool: Pool, p: nat, e: bool, l: seq<nat>) {
    && |l| > 0 && l[0] == p && NoDups(l) && Within(l, |pool|)
    && forall i {:trigger NextIn(l, i)} | 0 <= i < |l| ::
         pool[l[i]].Field(Side(pool[l[i]], l[i], p, e)) == NextIn(l, i)
  }

  /** Node o of a view waits for exit e exactly if block b is on the list for
      it, with the side that the list uses. */
  ghost predicate Accounted(n: Block, b: nat, o: Open, p: nat, e: bool, l: seq<nat>) {
    && (b in l ==> o.At(Side(n, b, p, e)) == Out(e))
    && (o.t == Out(e) ==> b in l && !Side(n, b, p, e))
    && (o.f == Out(e) ==> b in l && Side(n, b, p, e))
  }

  ghost predicate NodeFits(n: Block, o: Open) {
    && n.s == Jmp(o.cond) && n.stmts == o.stmts
    && (o.t.To? ==> n.jt == o.t.b)
    && (o.f.To? ==> n.jf == o.f.b)
  }

  /** The blocks below p are those of the view v: every resolved side points
      where v says, and the two lists of p hold every unresolved side, each
      exactly once. */
  ghost predicate Represents(pool: Pool, p: nat, v: View) {
    && p in v.g && (forall b | b in v.g :: b < |pool|) && pool[p].head == v.entry
    && Listed(pool, p, true, v.tl) && Listed(pool, p, false, v.fl)
    && (forall b | b in v.tl :: b in v.g) && (forall b | b in v.fl :: b in v.g)
    && forall b | b in v.g ::
         && NodeFits(pool[b], v.g[b])
         && Accounted(pool[b], b, v.g[b], p, true, v.tl)
         && Accounted(pool[b], b, v.g[b], p, false, v.fl)
  }

  lemma ListedChain(pool: Pool, p: nat, e: bool, l: seq<nat>)
    requires p < |pool| && Listed(pool, p, e, l)
    ensures Chain(pool, l, pool[p].sense == e)
  {
  }

  /** A view is blind to every block outside it. */
  lemma RepresentsAgree(pool: Pool, pool': Pool, p: nat, v: View)
    requires Represents(pool, p, v)
    requires forall b | b in v.g :: b < |pool'| && pool'[b] == pool[b]
    ensures Represents(pool', p, v)
  {
    forall l | l == v.tl || l == v.fl, i | 0 <= i < |l| ensures l[i] in v.g {
      assert l[i] in l;
    }
  }

  /** A block of the first operand after the splice: what waited for e leads to
      the second operand, the rest is as it was. */
  lemma JoinNode0(n: Block, b: nat, b0: nat, b1: nat, v0: View, v1: View, head: nat, e: bool)
    requires v0.g.Keys !! v1.g.Keys && b in v0.g && |v1.List(!e)| > 0
    requires b != b1 && b !in v1.List(!e) && b !in v1.List(e) && (b == b0 ==> b in v0.List(e))
    requires NodeFits(n, v0.g[b])
    requires Accounted(n, b, v0.g[b], b0, e, v0.List(e)) && Accounted(n, b, v0.g[b], b0, !e, v0.List(!e))
    ensures var w := Join(v0, v1, e); var m := After(n, b, b0, b1, v0.List(e), v1.List(!e), v1.entry, head, e);
      && NodeFits(m, w.g[b])
      && Accounted(m, b, w.g[b], b1, e, w.List(e)) && Accounted(m, b, w.g[b], b1, !e, w.List(!e))
  {
  }

  lemma JoinNode1(n: Block, b: nat, b0: nat, b1: nat, v0: View, v1: View, head: nat, e: bool)
    requires v0.g.Keys !! v1.g.Keys && b in v1.g && |v1.List(!e)| > 0
    requires b !in v0.List(e) && b !in v0.List(!e)
    requires NodeFits(n, v1.g[b])
    requires Accounted(n, b, v1.g[b], b1, e, v1.List(e)) && Accounted(n, b, v1.g[b], b1, !e, v1.List(!e))
    ensures var w := Join(v0, v1, e); var m := After(n, b, b0, b1, v0.List(e), v1.List(!e), v1.entry, head, e);
      && NodeFits(m, w.g[b])
      && Accounted(m, b, w.g[b], b1, e, w.List(e)) && Accounted(m, b, w.g[b], b1, !e, w.List(!e))
  {
  }

  /** The list for exit e of the second operand is left alone. */
  lemma JoinKept(pool: Pool, pool': Pool, b0: nat, b1: nat, l0: seq<nat>, l1: seq<nat>, l: seq<nat>, e: bool)
    requires Spliced(pool, pool', b0, b1, l0, l1, e)
    requires Listed(pool, b1, e, l) && Listed(pool, b1, !e, l1)
    requires forall b | b in l :: b !in l0
    requires forall b | b in l && b in l1 :: b == b1
    ensures Listed(pool', b1, e, l)
  {
    forall i {:trigger NextIn(l, i)} | 0 <= i < |l|
      ensures pool'[l[i]].Field(Side(pool'[l[i]], l[i], b1, e)) == NextIn(l, i)
    {
      assert l[i] in l;
      assert pool[l[i]].Field(Side(pool[l[i]], l[i], b1, e)) == NextIn(l, i);
    }
  }

  /** Its other list runs on into that of the first operand. */
  lemma JoinMerged(pool: Pool, pool': Pool, b0: nat, b1: nat, l0: seq<nat>, l1: seq<nat>, l: seq<nat>, e: bool)
    requires Spliced(pool, pool', b0, b1, l0, l1, e)
    requires Listed(pool, b0, e, l0) && Listed(pool, b1, !e, l1) && Listed(pool, b0, !e, l)
    requires forall b | b in l1 :: b !in l0 && b !in l
    requires forall b | b in l && b in l0 :: b == b0
    ensures Listed(pool', b1, !e, l1 + l)
  {
    var m := l1 + l;
    forall i, j | 0 <= i < j < |m| ensures m[i] != m[j] {
      assert m[i] in l1 || m[i] in l;
      assert m[j] in l1 || m[j] in l;
    }
    forall i {:trigger NextIn(m, i)} | 0 <= i < |m|
      ensures pool'[m[i]].Field(Side(pool'[m[i]], m[i], b1, !e)) == NextIn(m, i)
    {
      if i < |l1| {
        assert l1[i] in l1;
        assert pool[l1[i]].Field(Side(pool[l1[i]], l1[i], b1, !e)) == NextIn(l1, i);
      } else {
        var j := i - |l1|;
        assert l[j] in l;
        assert pool[l[j]].Field(Side(pool[l[j]], l[j], b0, !e)) == NextIn(l, j);
      }
    }
  }

  /** What is on a list is in the view, and only p is on both lists. */
  lemma ListsApart(pool: Pool, p: nat, v: View, e: bool)
    requires Represents(pool, p, v)
    ensures forall b | b in v.List(e) :: b in v.g
    ensures forall b | b in v.List(e) && b in v.List(!e) :: b == p
    ensures p in v.List(e)
  {
    forall b | b in v.List(e) && b in v.List(!e) ensures b == p {
      assert Accounted(pool[b], b, v.g[b], p, true, v.tl) && Accounted(pool[b], b, v.g[b], p, false, v.fl);
    }
  }

  lemma JoinLists(pool: Pool, pool': Pool, b0: nat, b1: nat, v0: View, v1: View, e: bool)
    requires Represents(pool, b0, v0) && Represents(pool, b1, v1) && v0.g.Keys !! v1.g.Keys
    requires Spliced(pool, pool', b0, b1, v0.List(e), v1.List(!e), e)
    ensures Listed(pool', b1, e, v1.List(e)) && Listed(pool', b1, !e, v1.List(!e) + v0.List(!e))
  {
    ListsApart(pool, b0, v0, e);
    ListsApart(pool, b1, v1, e);
    JoinKept(pool, pool', b0, b1, v0.List(e), v1.List(!e), v1.List(e), e);
    JoinMerged(pool, pool', b0, b1, v0.List(e), v1.List(!e), v0.List(!e), e);
  }

  lemma JoinNodes(pool: Pool, pool': Pool, b0: nat, b1: nat, v0: View, v1: View, e: bool, b: nat)
    requires Represents(pool, b0, v0) && Represents(pool, b1, v1) && v0.g.Keys !! v1.g.Keys
    requires Spliced(pool, pool', b0, b1, v0.List(e), v1.List(!e), e)
    requires b in v0.g || b in v1.g
    ensures var w := Join(v0, v1, e);
      && b < |pool'| && NodeFits(pool'[b], w.g[b])
      && Accounted(pool'[b], b, w.g[b], b1, e, w.List(e)) && Accounted(pool'[b], b, w.g[b], b1, !e, w.List(!e))
  {
    ListsApart(pool, b0, v0, e);
    ListsApart(pool, b1, v1, e);
    if b in v1.g {
      JoinNode1(pool[b], b, b0, b1, v0, v1, pool[b0].head, e);
    } else {
      JoinNode0(pool[b], b, b0, b1, v0, v1, pool[b0].head, e);
    }
  }

  /** gen_and and gen_or turn the lists of the operands into the lists of the
      joined graph. */
  lemma JoinRepresents(pool: Pool, pool': Pool, b0: nat, b1: nat, v0: View, v1: View, e: bool)
    requires Represents(pool, b0, v0) && Represents(pool, b1, v1) && v0.g.Keys !! v1.g.Keys
    requires Spliced(pool, pool', b0, b1, v0.List(e), v1.List(!e), e)
    ensures Represents(pool', b1, Join(v0, v1, e))
  {
    var w := Join(v0, v1, e);
    JoinLists(pool, pool', b0, b1, v0, v1, e);
    forall b | b in w.g
      ensures b < |pool'| && NodeFits(pool'[b], w.g[b])
      ensures Accounted(pool'[b], b, w.g[b], b1, true, w.tl) && Accounted(pool'[b], b, w.g[b], b1, false, w.fl)
    {
      JoinNodes(pool, pool', b0, b1, v0, v1, e, b);
    }
    ListsApart(pool, b0, v0, e);
    ListsApart(pool, b1, v1, e);
  }

  /** Flipping the sense of the head block exchanges the two lists. */
  lemma NegRepresents(pool: Pool, b: nat, v: View)
    requires Represents(pool, b, v)
    ensures Represents(pool[b := pool[b].Flip()], b, Negated(v))
  {
    var pool' := pool[b := pool[b].Flip()];
    ListsApart(pool, b, v, true);
    ListsApart(pool, b, v, false);
    forall e: bool ensures Listed(pool', b, !e, v.List(e)) {
      var l := v.List(e);
      assert Listed(pool, b, e, l);
      forall i {:trigger NextIn(l, i)} | 0 <= i < |l|
        ensures pool'[l[i]].Field(Side(pool'[l[i]], l[i], b, !e)) == NextIn(l, i)
      {
      }
    }
    assert Listed(pool', b, false, v.tl) && Listed(pool', b, true, v.fl);
  }

  // --------------------------------------------------------- finish_parse

  function Resolve(d: Dest, accept: nat, reject: nat): nat {
    match d case To(b) => b case Out(e) => if e then accept else reject
  }

  /** g is the view v with its exits tied to the leaves `accept` and `reject`. */
  ghost predicate Finished(g: Graph<int>, v: View, accept: nat, reject: nat, k: Word) {
    && accept in g && g[accept] == Leaf(k) && reject in g && g[reject] == Leaf(0)
    && accept !in v.g && reject !in v.g
    && forall b | b in v.g :: b in g &&
         g[b] == Fork(v.g[b].stmts, v.g[b].cond, Resolve(v.g[b].t, accept, reject), Resolve(v.g[b].f, accept, reject))
  }

  /** Block b once finish_parse has run over both lists of p. */
  function Closed(n: Block, b: nat, p: nat, v: View, accept: nat, reject: nat): Block {
    var n1 := if b in v.tl then n.With(n.sense, accept) else n;
    var n2 := if b == p then n1.Flip() else n1;
    if b in v.fl then n2.With(n2.sense, reject) else n2
  }

  lemma ClosingReady(was: Pool, pool: Pool, p: nat, v: View)
    requires Represents(was, p, v) && |was| <= |pool| && pool[..|was|] == was
    ensures p < |pool| && Chain(pool, v.tl, pool[p].sense) && v.tl[0] == p
    ensures forall b | b in v.tl :: b < |was|
  {
    forall b | b in v.g ensures b < |pool| && pool[b] == was[b] {
      assert pool[..|was|][b] == was[b];
    }
    RepresentsAgree(was, pool, p, v);
    ListedChain(pool, p, true, v.tl);
  }

  /** Resolving the true exits leaves the list of the false exits whole. */
  lemma ClosingTurned(was: Pool, pool: Pool, p: nat, v: View, accept: nat)
    requires Represents(was, p, v) && |was| <= |pool|
    requires forall b | 0 <= b < |was| ::
      var n := if b in v.tl then was[b].With(was[b].sense, accept) else was[b];
      pool[b] == if b == p then n.Flip() else n
    ensures Chain(pool, v.fl, pool[p].sense) && v.fl[0] == p
    ensures forall b | b in v.fl :: b < |was|
  {
    ListsApart(was, p, v, false);
    var l := v.fl;
    forall i {:trigger NextIn(l, i)} | 0 <= i < |l|
      ensures pool[l[i]].Field(pool[l[i]].sense) == NextIn(l, i)
    {
      assert l[i] in l;
      assert was[l[i]].Field(Side(was[l[i]], l[i], p, false)) == NextIn(l, i);
    }
  }

  lemma ClosedFits(n: Block, b: nat, p: nat, v: View, accept: nat, reject: nat)
    requires b in v.g && NodeFits(n, v.g[b]) && p in v.tl && p in v.fl && (b in v.tl && b in v.fl ==> b == p)
    requires Accounted(n, b, v.g[b], p, true, v.tl) && Accounted(n, b, v.g[b], p, false, v.fl)
    ensures NodeOf(Closed(n, b, p, v, accept, reject)) ==
            Fork(v.g[b].stmts, v.g[b].cond, Resolve(v.g[b].t, accept, reject), Resolve(v.g[b].f, accept, reject))
  {
  }

  /** The value the filter's outcome makes bpf_filter return. */
  function Returned(o: Outcome, snaplen: Word): Option<Word> {
    match o case Reject => None case Exit(e, _) => Some(if e then snaplen else 0)
  }

  /** What finish_parse makes of the pool. */
  ghost predicate Close(was: Pool, pool: Pool, p: nat, v: View, snaplen: Word) {
    && |pool| == |was| + 2
    && pool[|was|] == Block([], Ret(snaplen), NULL, NULL, false, |was|)
    && pool[|was| + 1] == Block([], Ret(0), NULL, NULL, false, |was| + 1)
    && forall b | 0 <= b < |was| :: pool[b] == Closed(was[b], b, p, v, |was|, |was| + 1)
  }

  lemma ClosedGraph(was: Pool, pool: Pool, p: nat, v: View, snaplen: Word)
    requires Represents(was, p, v) && Close(was, pool, p, v, snaplen)
    ensures Finished(GraphOf(pool), v, |was|, |was| + 1, snaplen)
    ensures forall b | b in GraphOf(pool) && b >= |was| :: GraphOf(pool)[b].Leaf?
    ensures forall b | b in GraphOf(pool) :: 0 <= b
  {
    ListsApart(was, p, v, true);
    ListsApart(was, p, v, false);
    forall b | b in v.g
      ensures NodeOf(pool[b]) ==
        Fork(v.g[b].stmts, v.g[b].cond, Resolve(v.g[b].t, |was|, |was| + 1), Resolve(v.g[b].f, |was|, |was| + 1))
    {
      ClosedFits(was[b], b, p, v, |was|, |was| + 1);
    }
  }

  lemma ClosedLeaves(was: Pool, pool: Pool, p: nat, v: View, snaplen: Word)
    requires Represents(was, p, v) && Close(was, pool, p, v, snaplen)
    requires forall i :: i in v.g <==> 0 <= i < |was|
    ensures LeavesEnd(pool)
  {
    forall b | 0 <= b < |was| ensures pool[b].s.Jmp? {
      assert b in v.g && NodeFits(was[b], v.g[b]);
    }
  }

  /** From its root the finished graph returns the snapshot length for the
      packets that the filter accepts, 0 for those it refuses, and rejects on
      the spot those whose loads run out. */
  lemma CompiledRun(g: Graph<int>, r: map<int, nat>, v: View, accept: nat, reject: nat, f: Filter, snaplen: Word,
      k: Packet, st: State)
    requires Layered(v) && Means(v, f) && Finished(g, v, accept, reject, snaplen) && Ranked(g, r)
    ensures v.entry in g && Run(g, r, v.entry, k, st) == Returned(Eval(f, k, st), snaplen)
  {
    FinishRun(g, r, v, accept, reject, snaplen, To(v.entry), k, st);
    assert Walk(v, To(v.entry), k, st) == Eval(f, k, st);
  }

  ghost function FinishRank(g: Graph<int>, v: View): map<int, nat> {
    map b | b in g :: if b in v.rank then v.rank[b] + 1 else 0
  }

  lemma FinishRanked(g: Graph<int>, v: View, accept: nat, reject: nat, k: Word)
    requires Layered(v) && Finished(g, v, accept, reject, k)
    requires forall b | b in g && b >= accept :: g[b].Leaf?
    requires (forall b | b in g :: 0 <= b) && forall i :: i in v.g <==> 0 <= i < accept
    ensures Ranked(g, FinishRank(g, v))
  {
    var r := FinishRank(g, v);
    forall b | b in g ensures Falls(g, r, b) {
      if b in v.g {
        assert NodeBelow(v, b);
      }
    }
  }

  /** The value returned from block b is decided by the exit its walk takes. */
  lemma {:induction false} FinishRun(g: Graph<int>, r: map<int, nat>, v: View, accept: nat, reject: nat, k: Word,
                                     d: Dest, p: Packet, st: State)
    requires Layered(v) && Finished(g, v, accept, reject, k) && Ranked(g, r)
    requires d.To? ==> d.b in v.g
    ensures Run(g, r, Resolve(d, accept, reject), p, st) ==
            Returned(Walk(v, d, p, st), k)
    decreases if d.To? then v.rank[d.b] + 1 else 0
  {
    if d.To? {
      assert NodeBelow(v, d.b) && Falls(g, r, d.b);
      var n := v.g[d.b];
      match ExecAll(n.stmts, p, st)
      case None =>
      case Some(st') => FinishRun(g, r, v, accept, reject, k, n.At(!Taken(n.cond, st')), p, st');
    }
  }
}
