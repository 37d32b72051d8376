/** A filter on which or_pullup spoils a packet:
    `ether[0] > 0 and (len > 5 or ether[0] > ether[1000])`. */
module Spoiling {
  import opened Basics
  import opened Bpf
  import opened Flow
  import opened Blocks
  import opened Dominators
  import opened Predecessors
  import opened Decisions
  import opened ValueTable
  import opened Numbering
  import opened Propagation
  import opened Arith
  import opened Chains
  import opened Pullup
  import opened Hazards
  import opened Optimizer

  // ------------------------------------------------------------- the filter

  /** gen_loadi and gen_loadlen into register r */
  function Into(s: Stmt, r: Reg): seq<Stmt> {
    [s] + ([St(r)] + [])
  }

  /** `ether[0] > 0`: gen_relation of a load into register 1 and a constant in
      register 2. */
  const FIRST: seq<Stmt> := [LdImm(0), St(0), LdxMem(0), LdInd(B, 0), St(1), LdImm(0), St(2), LdxMem(2), LdMem(1)]

  /** `len > 5` */
  const SECOND: seq<Stmt> := [LdLen, St(2), LdImm(5), St(3), LdxMem(3), LdMem(2)]

  /** `ether[0] > ether[1000]` */
  const THIRD: seq<Stmt> :=
    [LdImm(0), St(3), LdxMem(3), LdInd(B, 0), St(4), LdImm(1000), St(5), LdxMem(5), LdInd(B, 0), St(6), LdxMem(6),
      LdMem(4)]

  /** The lists are what the generator joins together. */
  lemma AsGenerated()
    ensures FIRST == Into(LdImm(0), 0) + LoadTail(B, 0, 1) + (Into(LdImm(0), 2) + RelTail(JGT, 1, 2))
    ensures SECOND == Into(LdLen, 2) + (Into(LdImm(5), 3) + RelTail(JGT, 2, 3))
    ensures THIRD ==
      Into(LdImm(0), 3) + LoadTail(B, 3, 4) + (Into(LdImm(1000), 5) + LoadTail(B, 5, 6) + RelTail(JGT, 4, 6))
  {
  }

  /** The blocks, joined and closed. */
  function Ether(snaplen: Word): Pool {
    var over := Jmp(RelCond(JGT));
    [Block(FIRST, over, 1, 4, true, 0), Block(SECOND, over, 3, 2, false, 1), Block(THIRD, over, 3, 4, true, 0),
     Block([], Ret(snaplen), NULL, NULL, true, 3), Block([], Ret(0), NULL, NULL, true, 4)]
  }

  const RANK: map<int, nat> := map[0 := 3, 1 := 2, 2 := 1, 3 := 0, 4 := 0]

  lemma EtherRanked(snaplen: Word)
    ensures Ranked(GraphOf(Ether(snaplen)), RANK) && LeavesEnd(Ether(snaplen))
  {
    var pool := Ether(snaplen);
    forall b | b in GraphOf(pool) ensures Falls(GraphOf(pool), RANK, b) {
    }
  }

  // ------------------------------------------------ what the tests load and say

  lemma LoadedByte(k: Word, r0: Reg, r: Reg, kept: set<nat>)
    requires r0 !in kept && r !in kept
    ensures Generates(Gened(Into(LdImm(k), r0) + LoadTail(B, r0, r), r), kept, Load(B, Arth.Num(k)))
  {
    ImmGenerates(LdImm(k), Arth.Num(k), kept, r0);
    hide Delivers, SelfSet, KeepsMasks;
    LoadDelivers(Into(LdImm(k), r0), r0, Arth.Num(k), kept, B, r);
    LoadSelf(Into(LdImm(k), r0), r0, B, r);
    TailMasks(Into(LdImm(k), r0), r0, Arth.Num(k), kept, LoadTail(B, r0, r), Load(B, Arth.Num(k)));
  }

  /** The block compares the values of l and r. */
  ghost predicate Tests(b: Block, l: Arth, r: Arth, p: Packet) {
    && b.s.Jmp? && (Faults(b, p) <==> Arith.Value(l, p).None? || Arith.Value(r, p).None?)
    && (!Faults(b, p) ==> Decide(b, p) == Holds(JGT, Arith.Value(l, p).value, Arith.Value(r, p).value))
  }

  lemma RelationTests(b: Block, g0: Gened, g1: Gened, l: Arth, r: Arth, p: Packet)
    requires Generates(g0, {}, l) && Generates(g1, {g0.regno}, r)
    requires b.stmts == g0.s + (g1.s + RelTail(JGT, g0.regno, g1.regno)) && b.s == Jmp(RelCond(JGT))
    ensures TestsOwn(b) && Tests(b, l, r, p)
  {
    assert {} + {g0.regno as nat} == {g0.regno as nat};
    RelOwn(g0, g1, JGT);
    RelCompares(g0, g1, {}, JGT, l, r, p, Zero());
    hide Delivers, SelfSet, RelTail, ExecAll;
  }

  lemma FirstTests(snaplen: Word, p: Packet)
    ensures var b := Ether(snaplen)[0]; TestsOwn(b) && Tests(b, Load(B, Arth.Num(0)), Arth.Num(0), p)
  {
    AsGenerated();
    var b := Ether(snaplen)[0];
    assert b.stmts == FIRST && b.s == Jmp(RelCond(JGT));
    LoadedByte(0, 0, 1, {});
    ImmGenerates(LdImm(0), Arth.Num(0), {1}, 2);
    hide Generates, Tests, TestsOwn, Into, LoadTail, RelTail, Ether;
    RelationTests(b, Gened(Into(LdImm(0), 0) + LoadTail(B, 0, 1), 1), Gened(Into(LdImm(0), 2), 2), Load(B, Arth.Num(0)),
      Arth.Num(0), p);
  }

  lemma SecondTests(snaplen: Word, p: Packet)
    ensures var b := Ether(snaplen)[1]; TestsOwn(b) && Tests(b, Len, Arth.Num(5), p)
  {
    AsGenerated();
    var b := Ether(snaplen)[1];
    assert b.stmts == SECOND && b.s == Jmp(RelCond(JGT));
    ImmGenerates(LdLen, Len, {}, 2);
    ImmGenerates(LdImm(5), Arth.Num(5), {2}, 3);
    hide Generates, Tests, TestsOwn, Into, LoadTail, RelTail, Ether;
    RelationTests(b, Gened(Into(LdLen, 2), 2), Gened(Into(LdImm(5), 3), 3), Len, Arth.Num(5), p);
  }

  lemma ThirdTests(snaplen: Word, p: Packet)
    ensures var b := Ether(snaplen)[2]; TestsOwn(b) && Tests(b, Load(B, Arth.Num(0)), Load(B, Arth.Num(1000)), p)
  {
    AsGenerated();
    var b := Ether(snaplen)[2];
    assert b.stmts == THIRD && b.s == Jmp(RelCond(JGT));
    LoadedByte(0, 3, 4, {});
    LoadedByte(1000, 5, 6, {4});
    hide Generates, Tests, TestsOwn, Into, LoadTail, RelTail, Ether;
    RelationTests(b, Gened(Into(LdImm(0), 3) + LoadTail(B, 3, 4), 4),
      Gened(Into(LdImm(1000), 5) + LoadTail(B, 5, 6), 6),
      Load(B, Arth.Num(0)), Load(B, Arth.Num(1000)), p);
  }

  lemma EtherOwn(snaplen: Word)
    ensures AllTestOwn(Ether(snaplen))
  {
    hide Tests, TestsOwn;
    forall b | 0 <= b < |Ether(snaplen)| && Ether(snaplen)[b].s.Jmp? ensures TestsOwn(Ether(snaplen)[b]) {
      OwnAt(snaplen, b);
    }
  }

  lemma OwnAt(snaplen: Word, b: int)
    requires 0 <= b < 3
    ensures |Ether(snaplen)| == 5 && TestsOwn(Ether(snaplen)[b])
  {
    assert |Ether(snaplen)| == 5;
    hide Ether, TestsOwn, Tests;
    if b == 0 {
      FirstTests(snaplen, Short());
    } else if b == 1 {
      SecondTests(snaplen, Short());
    } else {
      ThirdTests(snaplen, Short());
    }
  }

  /** 100 bytes, all 1. */
  function Short(): Packet {
    Packet(k => 1, 100, 100)
  }

  lemma ShortValues()
    ensures Arith.Value(Load(B, Arth.Num(0)), Short()) == Some(1) && Arith.Value(Len, Short()) == Some(100)
    ensures Arith.Value(Load(B, Arth.Num(1000)), Short()).None?
  {
  }

  // ------------------------------------------------------------- the numbers

  /** A constant or the length goes to a register, and keeps its number. */
  lemma IntoNumber(K: seq<Key>, vals: seq<Vals>, ss: seq<Stmt>, i: nat, r: Reg)
    requires Ordered(K) && Traced(K, vals, ss, ss) && i + 2 <= |ss| && (ss[i].LdImm? || ss[i].LdLen?)
      && ss[i + 1] == St(r)
    ensures var v: nat := vals[i + 2][r]; vals[i + 2] == vals[i][A_ATOM := v][r := v] && Named(K, vals[i], ss[i], v)
  {
    assert StepAt(K, vals, ss, ss, i) && StepAt(K, vals, ss, ss, i + 1);
  }

  /** So does a byte that is loaded. */
  lemma LoadNumber(K: seq<Key>, vals: seq<Vals>, ss: seq<Stmt>, i: nat, r0: Reg, r: Reg)
    requires Ordered(K) && Traced(K, vals, ss, ss) && i + 3 <= |ss|
    requires ss[i] == LdxMem(r0) && ss[i + 1] == LdInd(B, 0) && ss[i + 2] == St(r)
    ensures var v, x: nat := vals[i + 3][r], vals[i][r0];
      && vals[i + 3] == vals[i][X_ATOM := x][A_ATOM := v][r := v]
      && 1 <= v <= |K| && K[v - 1] == Key(CInd(B), Const(0), Arg.Num(x))
  {
    assert StepAt(K, vals, ss, ss, i) && StepAt(K, vals, ss, ss, i + 1) && StepAt(K, vals, ss, ss, i + 2);
  }

  /** The relation has the number of its left operand in the accumulator. */
  lemma RelNumber(K: seq<Key>, vals: seq<Vals>, ss: seq<Stmt>, i: nat, r0: Reg, r1: Reg)
    requires Ordered(K) && Traced(K, vals, ss, ss) && i + 2 <= |ss| && ss[i] == LdxMem(r1) && ss[i + 1] == LdMem(r0)
    ensures vals[i + 2] == vals[i][X_ATOM := vals[i][r1]][A_ATOM := vals[i][r0]]
  {
    assert StepAt(K, vals, ss, ss, i) && StepAt(K, vals, ss, ss, i + 1);
  }

  /** v is the number of the first byte. */
  ghost predicate FirstByte(K: seq<Key>, v: nat) {
    && 1 <= v <= |K| && K[v - 1].code == CInd(B) && K[v - 1].v0 == Const(0) && K[v - 1].v1.Num?
    && IsConst(K, K[v - 1].v1.n, 0)
  }

  lemma FirstByteOne(K: seq<Key>, v: nat, w: nat)
    requires NoDups(K) && FirstByte(K, v) && FirstByte(K, w)
    ensures v == w
  {
    var a, b := K[v - 1].v1.n, K[w - 1].v1.n;
    assert K[a - 1] == K[b - 1] && a == b;
    assert K[v - 1] == K[w - 1];
  }

  lemma FirstNumber(K: seq<Key>, vals: seq<Vals>)
    requires Ordered(K) && Traced(K, vals, FIRST, FIRST)
    ensures FirstByte(K, vals[|FIRST|][A_ATOM])
  {
    var ss := FIRST;
    hide Ordered, Traced;
    IntoNumber(K, vals, ss, 0, 0);
    LoadNumber(K, vals, ss, 2, 0, 1);
    IntoNumber(K, vals, ss, 5, 2);
    RelNumber(K, vals, ss, 7, 1, 2);
  }

  lemma SecondNumber(K: seq<Key>, vals: seq<Vals>)
    requires Ordered(K) && Traced(K, vals, SECOND, SECOND)
    ensures !FirstByte(K, vals[|SECOND|][A_ATOM])
  {
    var ss := SECOND;
    hide Ordered, Traced;
    IntoNumber(K, vals, ss, 0, 2);
    IntoNumber(K, vals, ss, 2, 3);
    RelNumber(K, vals, ss, 4, 2, 3);
  }

  lemma ThirdNumber(K: seq<Key>, vals: seq<Vals>)
    requires Ordered(K) && Traced(K, vals, THIRD, THIRD)
    ensures FirstByte(K, vals[|THIRD|][A_ATOM])
  {
    var ss := THIRD;
    hide Ordered, Traced;
    IntoNumber(K, vals, ss, 0, 3);
    LoadNumber(K, vals, ss, 2, 3, 4);
    IntoNumber(K, vals, ss, 5, 5);
    LoadNumber(K, vals, ss, 7, 5, 6);
    RelNumber(K, vals, ss, 10, 4, 6);
  }

  /** The accumulator has the same number after the first and the third test,
      and another after the second. */
  lemma EtherNumbers(K: seq<Key>, snaplen: Word, m: set<int>, f: Found, accNo: seq<int>)
    requires NumbersFound(K, Ether(snaplen), Ether(snaplen), m, 0, f.val, f.oval, f) && 0 in m && 1 in m && 2 in m
    requires AccNumbers(Ether(snaplen), m, f, accNo)
    ensures accNo[0] == accNo[2] && accNo[1] != accNo[2]
  {
    var pool := Ether(snaplen);
    assert pool[0].stmts == FIRST && pool[1].stmts == SECOND && pool[2].stmts == THIRD;
    assert BlockFound(K, pool, pool, f, 0) && BlockFound(K, pool, pool, f, 1) && BlockFound(K, pool, pool, f, 2);
    FirstNumber(K, f.traces[0]);
    SecondNumber(K, f.traces[1]);
    ThirdNumber(K, f.traces[2]);
    FirstByteOne(K, f.val[0][A_ATOM], f.val[2][A_ATOM]);
  }

  // ------------------------------------------------------------ what is pulled

  lemma EtherReached(snaplen: Word)
    requires Ranked(GraphOf(Ether(snaplen)), RANK)
    ensures {0, 1, 2} <= Reach(GraphOf(Ether(snaplen)), RANK, 0)
  {
    var pool := Ether(snaplen);
    ReachStep(pool, RANK, 0, 0, 1);
    ReachStep(pool, RANK, 0, 1, 2);
  }

  /** Every way to the second and the third test visits the second. */
  lemma SecondDominates(snaplen: Word, m: set<int>, dom: seq<set<int>>)
    requires 1 in m && 2 in m && Swept(BlockNext(Ether(snaplen)), m, {0}, dom, m)
    ensures 1 in dom[1] && 1 in dom[2]
  {
    var next := BlockNext(Ether(snaplen));
    assert SetEq(next, {0}, dom, m, 1) && SetEq(next, {0}, dom, m, 2);
    var own := Enters(next, dom, m, 1, 1);
    assert 1 in dom[1] && Enters(next, dom, m, 2, 1);
  }

  /** or_pullup at the second test selects the third. */
  lemma ThirdSelected(x: Puller, snaplen: Word)
    requires x.Valid() && x.pool == Ether(snaplen) && x.root == 0 && 0 in x.m && 1 in x.m && 2 in x.m
    requires x.accNo[0] == x.accNo[2] && x.accNo[1] != x.accNo[2]
    ensures x.Target(1, false) == (1, 2)
  {
    var pool, l := x.pool, x.inEdges[1];
    SecondDominates(snaplen, x.m, x.dom);
    assert InEdges(pool, x.m, 1, l);
    assert 0 in l && forall e | e in l :: e == 0;
    assert x.Incoming(1) == Some(x.accNo[0]);
    assert x.OnLink(1, false, 1) && x.OnLink(1, false, 2);
    var v := x.accNo[0];
    assert x.First(1, false, v, false, 1) == 1;
    assert x.First(1, false, v, true, 2) == 2;
    assert x.First(1, false, v, true, 1) == x.First(1, false, v, true, 2);
  }

  lemma ShortTests(snaplen: Word)
    ensures var pool, p := Ether(snaplen), Short();
      && |pool| == 5 && pool[0].s.Jmp? && pool[1].s.Jmp? && pool[2].s.Jmp?
      && !Faults(pool[0], p) && Decide(pool[0], p) && !Faults(pool[1], p) && Decide(pool[1], p) && Faults(pool[2], p)
  {
    assert |Ether(snaplen)| == 5;
    ShortValues();
    var p := Short();
    hide Ether, Short, Faults, Decide, TestsOwn, Arith.Value;
    FirstTests(snaplen, p);
    SecondTests(snaplen, p);
    ThirdTests(snaplen, p);
  }

  /** The packet is accepted, as it is longer than 5 bytes; the third test, to
      which it does not come, would reject it. */
  lemma ShortGoes(snaplen: Word)
    requires Ranked(GraphOf(Ether(snaplen)), RANK)
    ensures Go(Ether(snaplen), RANK, 0, Short()) == Some(snaplen) && 1 in Visits(Ether(snaplen), RANK, 0, Short())
  {
    var pool, p := Ether(snaplen), Short();
    ShortTests(snaplen);
    hide Faults, Decide, Short;
    assert Go(pool, RANK, 1, p) == Go(pool, RANK, 3, p) == Some(snaplen);
    assert 1 in Visits(pool, RANK, 1, p);
  }

  lemma ShortSpoiled(snaplen: Word, xs: seq<int>)
    requires |xs| >= 2 && AllTests(Ether(snaplen), xs) && xs[0] == 1 && xs[|xs| - 1] == 2
    ensures Spoils(Ether(snaplen), false, xs, Short())
  {
    var pool, p := Ether(snaplen), Short();
    ShortTests(snaplen);
    hide Faults, Decide, Short, Ether;
    assert xs[..|xs| - 1][0] == 1 && Scan(pool, false, xs[..|xs| - 1], p) == Hit;
  }

  lemma SpoiledRuns(snaplen: Word, pool': Pool, m: set<int>, accNo: seq<int>, xs: seq<int>) returns (r': map<int, nat>)
    requires PulledUp(Ether(snaplen), pool', RANK, 0, m, accNo, false, xs) && xs[0] == 1 && xs[|xs| - 1] == 2
    ensures Ranked(GraphOf(pool'), r') && |pool'| == |Ether(snaplen)| && Ranked(GraphOf(Ether(snaplen)), RANK)
    ensures forall st :: Run(GraphOf(Ether(snaplen)), RANK, 0, Short(), st) == Some(snaplen)
    ensures forall st :: Run(GraphOf(pool'), r', 0, Short(), st) != Some(snaplen)
  {
    var pool := Ether(snaplen);
    r' := PulledRank(pool, RANK, m, xs);
    PulledTests(pool, pool', RANK, 0, m, accNo, false, xs);
    EtherOwn(snaplen);
    OwnSame(pool, pool');
    AllContained(pool);
    AllContained(pool');
    ShortGoes(snaplen);
    ShortSpoiled(snaplen, xs);
    hide Ether, AllTestOwn, AllSelfContained, Short, PulledRank, Go, Spoils, OnlyChain, Chain, Pulled, SameIn,
      SameTests;
    assert Go(pool', r', 0, Short()) != Some(snaplen);
    forall st
      ensures Run(GraphOf(pool), RANK, 0, Short(), st) == Some(snaplen)
      ensures Run(GraphOf(pool'), r', 0, Short(), st) != Some(snaplen)
    {
      GoRun(pool, RANK, 0, Short(), st);
      GoRun(pool', r', 0, Short(), st);
    }
  }

  lemma EtherSize(snaplen: Word)
    ensures |Ether(snaplen)| == 5 && Ether(snaplen)[1].s.Jmp?
  {
  }

  /** or_pullup at the second test, by what the analyses find: the packet is no
      longer accepted. */
  method PullSpoils(snaplen: Word, hash: Key -> nat) returns (pool': Pool, ghost r': map<int, nat>)
    ensures Ranked(GraphOf(Ether(snaplen)), RANK) && Ranked(GraphOf(pool'), r') && |pool'| == |Ether(snaplen)| == 5
    ensures forall st :: Run(GraphOf(Ether(snaplen)), RANK, 0, Short(), st) == Some(snaplen)
    ensures forall st :: Run(GraphOf(pool'), r', 0, Short(), st) != Some(snaplen)
  {
    hide Ether, AllTestOwn, NumbersFound, PulledUp, LeavesEnd, Short, Leveled, Ranked, LoadAbs, Pullable, NotPullable,
      AccNumbers;
    EtherRanked(snaplen);
    EtherOwn(snaplen);
    EtherReached(snaplen);
    EtherSize(snaplen);
    var x, m;
    ghost var K, f;
    x, m, K, f := NewPuller(Ether(snaplen), 0, RANK, hash);
    EtherNumbers(K, snaplen, m, f, x.accNo);
    ThirdSelected(x, snaplen);
    ghost var xs, us := x.Pullup(1, false);
    pool' := x.pool;
    r' := SpoiledRuns(snaplen, pool', m, x.accNo, xs);
  }
}
