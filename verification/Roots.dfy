/** opt_root: the blocks at the root that branch nowhere in particular are passed
    by, and what becomes of their statements. */
module Roots {
  import opened Basics
  import opened Bpf
  import opened Flow
  import opened Blocks
  import opened Insns
  import opened Codegen
  import opened Liveness
  import opened Decisions
  import opened Hazards
  import opened Pcap
  import opened Rounds
  import opened Optimizer
  import ValueTable

  /** Both branches go the same way. */
  predicate Idle(b: Block) {
    b.s.Jmp? && b.jt == b.jf
  }

  /** From b to e by these blocks, whatever they test. */
  ghost predicate PassesBy(pool: Pool, bs: seq<int>, b: int, e: int) {
    if bs == [] then b == e
    else bs[0] == b && 0 <= b < |pool| && Idle(pool[b]) && PassesBy(pool, bs[1..], pool[b].jt, e)
  }

  lemma {:induction false} PassesOn(pool: Pool, bs: seq<int>, b: int, e: int)
    requires PassesBy(pool, bs, b, e) && 0 <= e < |pool| && Idle(pool[e])
    ensures PassesBy(pool, bs + [e], b, pool[e].jt)
  {
    if bs == [] {
      assert [e][1..] == [];
    } else {
      assert (bs + [e])[1..] == bs[1..] + [e];
      PassesOn(pool, bs[1..], pool[b].jt, e);
    }
  }

  predicate AllIn(pool: Pool, bs: seq<int>) {
    forall i | 0 <= i < |bs| :: 0 <= bs[i] < |pool|
  }

  /** What the blocks execute. */
  function StmtsOf(pool: Pool, bs: seq<int>): seq<Stmt>
    requires AllIn(pool, bs)
  {
    if bs == [] then [] else pool[bs[0]].stmts + StmtsOf(pool, bs[1..])
  }

  lemma {:induction false} PassedIn(pool: Pool, bs: seq<int>, b: int, e: int)
    requires PassesBy(pool, bs, b, e)
    ensures AllIn(pool, bs)
  {
    if bs != [] {
      PassedIn(pool, bs[1..], pool[b].jt, e);
      forall i | 0 <= i < |bs| ensures 0 <= bs[i] < |pool| {
        assert i > 0 ==> bs[i] == bs[1..][i - 1];
      }
    }
  }

  /** A run passes the blocks, and goes on after their statements. */
  lemma {:induction false} PassedRun(pool: Pool, r: map<int, nat>, bs: seq<int>, b: int, e: int, p: Packet, st: State)
    requires Ranked(GraphOf(pool), r) && PassesBy(pool, bs, b, e) && 0 <= b < |pool| && AllIn(pool, bs)
    ensures 0 <= e < |pool| && r[e] <= r[b]
    ensures Run(GraphOf(pool), r, b, p, st) == match ExecAll(StmtsOf(pool, bs), p, st)
      case None => None
      case Some(st') => Run(GraphOf(pool), r, e, p, st')
  {
    if bs != [] {
      assert GraphOf(pool)[b] == NodeOf(pool[b]) && Falls(GraphOf(pool), r, b);
      ExecAllConcat(pool[b].stmts, StmtsOf(pool, bs[1..]), p, st);
      var o := ExecAll(pool[b].stmts, p, st);
      PassedRun(pool, r, bs[1..], pool[b].jt, e, p, if o.Some? then o.value else st);
    }
  }

  /** What the new root executes: the statements of the old root, and its own;
      nothing if it returns. No other block changes. */
  ghost predicate Headed(pool: Pool, root: int, pool': Pool, root': int) {
    && |pool'| == |pool| && 0 <= root < |pool| && 0 <= root' < |pool| && !Idle(pool[root'])
    && (forall b | 0 <= b < |pool| && b != root && b != root' :: pool'[b] == pool[b])
    && pool'[root'] == pool[root'].(stmts :=
         if pool[root'].s.Ret? then [] else if root' == root then pool[root].stmts
         else pool[root].stmts + pool[root'].stmts)
    && (root' != root ==> pool'[root] == pool[root].(stmts := []))
  }

  /** The new root is the first that is not passed by. */
  ghost predicate Cut(pool: Pool, root: int, pool': Pool, root': int, bs: seq<int>) {
    Headed(pool, root, pool', root') && PassesBy(pool, bs, root, root')
  }

  /** opt_root, with the blocks that it passes. */
  method OptRoot(pool: Pool, root: int, ghost r: map<int, nat>)
      returns (pool': Pool, root': int, ghost bs: seq<int>)
    requires Ranked(GraphOf(pool), r) && LeavesEnd(pool) && 0 <= root < |pool|
    ensures Headed(pool, root, pool', root')
    ensures Cut(pool, root, pool', root', bs)
  {
    var s := pool[root].stmts;
    pool', root', bs := pool[root := pool[root].(stmts := [])], root, [];
    while pool'[root'].s.Jmp? && pool'[root'].jt == pool'[root'].jf
      invariant 0 <= root' < |pool| && PassesBy(pool, bs, root, root')
      invariant pool' == pool[root := pool[root].(stmts := [])]
      decreases r[root']
    {
      assert GraphOf(pool)[root'] == NodeOf(pool[root']) && Falls(GraphOf(pool), r, root');
      PassesOn(pool, bs, root, root');
      bs := bs + [root'];
      root' := pool'[root'].jt;
    }
    pool' := pool'[root' := pool'[root'].(stmts := s + pool'[root'].stmts)];
    if pool'[root'].s.Ret? {
      pool' := pool'[root' := pool'[root'].(stmts := [])];
    }
  }

  lemma CutRanked(pool: Pool, r: map<int, nat>, root: int, pool': Pool, root': int, bs: seq<int>)
    requires Ranked(GraphOf(pool), r) && LeavesEnd(pool) && Cut(pool, root, pool', root', bs)
    ensures Ranked(GraphOf(pool'), r) && LeavesEnd(pool') && r[root'] <= r[root]
  {
    PassedIn(pool, bs, root, root');
    PassedRun(pool, r, bs, root, root', Packet(k => 0, 0, 0), Zero());
    var g, g' := GraphOf(pool), GraphOf(pool');
    forall b | b in g' ensures Falls(g', r, b) {
      assert g[b] == NodeOf(pool[b]) && g'[b] == NodeOf(pool'[b]) && Falls(g, r, b);
    }
  }

  /** Below the new root nothing has changed. */
  lemma {:induction false} BelowRun(pool: Pool, r: map<int, nat>, root: int, pool': Pool, root': int, bs: seq<int>,
      b: int, p: Packet, st: State)
    requires Ranked(GraphOf(pool), r) && Ranked(GraphOf(pool'), r) && Cut(pool, root, pool', root', bs)
    requires r[root'] <= r[root] && 0 <= b < |pool| && r[b] < r[root']
    ensures Run(GraphOf(pool'), r, b, p, st) == Run(GraphOf(pool), r, b, p, st)
    decreases r[b]
  {
    assert pool'[b] == pool[b] && GraphOf(pool)[b] == NodeOf(pool[b]) && Falls(GraphOf(pool), r, b);
    assert GraphOf(pool')[b] == NodeOf(pool[b]);
    if pool[b].s.Jmp? && ExecAll(pool[b].stmts, p, st).Some? {
      var e := ExecAll(pool[b].stmts, p, st).value;
      BelowRun(pool, r, root, pool', root', bs, if Taken(pool[b].s.cond, e) then pool[b].jt else pool[b].jf, p, e);
    }
  }

  /** From the new root a run executes the statements of the first root, if it is
      another, and goes on as before. */
  lemma CutRun(pool: Pool, r: map<int, nat>, root: int, pool': Pool, root': int, bs: seq<int>, p: Packet, st: State)
    requires Ranked(GraphOf(pool), r) && Ranked(GraphOf(pool'), r) && Cut(pool, root, pool', root', bs)
    requires r[root'] <= r[root] && pool[root'].s.Jmp?
    ensures root' == root ==> Run(GraphOf(pool'), r, root', p, st) == Run(GraphOf(pool), r, root, p, st)
    ensures root' != root ==> Run(GraphOf(pool'), r, root', p, st) == match ExecAll(pool[root].stmts, p, st)
      case None => None
      case Some(e) => Run(GraphOf(pool), r, root', p, e)
  {
    var b, b' := pool[root'], pool'[root'];
    assert GraphOf(pool)[root'] == NodeOf(b) && GraphOf(pool')[root'] == NodeOf(b') && Falls(GraphOf(pool), r, root');
    if root' != root {
      ExecAllConcat(pool[root].stmts, b.stmts, p, st);
    }
    if ExecAll(b'.stmts, p, st).Some? {
      var e := ExecAll(b'.stmts, p, st).value;
      BelowRun(pool, r, root, pool', root', bs, if Taken(b.s.cond, e) then b.jt else b.jf, p, e);
    }
  }

  // ------------------------------------------------ statements that are lost

  /** The packet gets to the new root with what only a block that was passed by
      after the first has put where a test looks. */
  ghost predicate RootHits(pool: Pool, r: map<int, nat>, root': int, bs: seq<int>, p: Packet, st: State) {
    && Ranked(GraphOf(pool), r) && AllIn(pool, bs) && 0 <= root' < |pool| && |bs| >= 2 && pool[root'].s.Jmp?
    && ExecAll(StmtsOf(pool, bs), p, st).Some? && ExecAll(pool[bs[0]].stmts, p, st).Some?
    && Run(GraphOf(pool), r, root', p, ExecAll(pool[bs[0]].stmts, p, st).value)
       != Run(GraphOf(pool), r, root', p, ExecAll(StmtsOf(pool, bs), p, st).value)
  }

  /** opt_root keeps the result of a packet that gets through exactly if it does
      not meet lost statements. */
  lemma RootRun(pool: Pool, r: map<int, nat>, root: int, pool': Pool, root': int, bs: seq<int>, p: Packet, st: State)
    requires Ranked(GraphOf(pool), r) && LeavesEnd(pool) && Cut(pool, root, pool', root', bs)
    requires Run(GraphOf(pool), r, root, p, st).Some?
    ensures Ranked(GraphOf(pool'), r)
    ensures Run(GraphOf(pool'), r, root', p, st) == Run(GraphOf(pool), r, root, p, st)
      <==> !RootHits(pool, r, root', bs, p, st)
  {
    CutRanked(pool, r, root, pool', root', bs);
    PassedIn(pool, bs, root, root');
    PassedRun(pool, r, bs, root, root', p, st);
    assert GraphOf(pool)[root'] == NodeOf(pool[root']) && GraphOf(pool')[root'] == NodeOf(pool'[root']);
    assert bs != [] ==> bs[0] == root && Idle(pool[root]) && root' != root;
    hide GraphOf, Ranked, LeavesEnd, PassesBy;
    if pool[root'].s.Jmp? {
      CutRun(pool, r, root, pool', root', bs, p, st);
      hide Cut;
      if bs != [] {
        ExecAllConcat(pool[root].stmts, StmtsOf(pool, bs[1..]), p, st);
        assert |bs| == 1 ==> StmtsOf(pool, bs[1..]) == [] && pool[root].stmts + [] == pool[root].stmts;
      }
    }
  }

  /** Some statement of a block that was passed by after the first sets an atom
      that is in use at the new root. */
  ghost predicate Loses(pool: Pool, bs: seq<int>, live: set<int>)
    requires AllIn(pool, bs)
  {
    bs != [] && exists i :: 0 <= i < |StmtsOf(pool, bs[1..])| && AtomDef(StmtsOf(pool, bs[1..])[i]) in live
  }

  lemma {:induction false} KeepsLive(ss: seq<Stmt>, live: set<int>, p: Packet, st: State)
    requires ExecAll(ss, p, st).Some? && forall i | 0 <= i < |ss| :: AtomDef(ss[i]) !in live
    ensures Agree(st, ExecAll(ss, p, st).value, live)
  {
    if ss != [] {
      var e := Exec(ss[0], p, st).value;
      forall x | 0 <= x < N_ATOMS && x in live ensures e[x] == st[x] {
        ExecWrites(ss[0], p, st, x);
      }
      KeepsLive(ss[1..], live, p, e);
    }
  }

  /** What can be told before the call: where nothing in use is lost, no packet
      meets lost statements. */
  lemma NothingLost(pool: Pool, r: map<int, nat>, root': int, bs: seq<int>, m: set<int>, inUse: seq<AtomSet>,
      outUse: seq<AtomSet>, p: Packet, st: State)
    requires Ranked(GraphOf(pool), r) && Covered(pool, m) && LiveSets(pool, m, inUse, outUse) && root' in m
    requires AllIn(pool, bs) && 0 <= root' < |pool| && !Loses(pool, bs, inUse[root'])
    ensures !RootHits(pool, r, root', bs, p, st)
  {
    if RootHits(pool, r, root', bs, p, st) {
      var rest := StmtsOf(pool, bs[1..]);
      ExecAllConcat(pool[bs[0]].stmts, rest, p, st);
      var e := ExecAll(pool[bs[0]].stmts, p, st).value;
      KeepsLive(rest, inUse[root'], p, e);
      UnusedUnread(pool, r, m, inUse, outUse, root', p, e, ExecAll(rest, p, e).value);
    }
  }

  /** Nor where every test loads what it tests, as before statements are
      rewritten. */
  lemma OwnNothingLost(pool: Pool, r: map<int, nat>, root': int, bs: seq<int>, p: Packet, st: State)
    requires Ranked(GraphOf(pool), r) && AllTestOwn(pool) && AllIn(pool, bs) && 0 <= root' < |pool|
    ensures !RootHits(pool, r, root', bs, p, st)
  {
    if RootHits(pool, r, root', bs, p, st) {
      AllContained(pool);
      GoRun(pool, r, root', p, ExecAll(pool[bs[0]].stmts, p, st).value);
      GoRun(pool, r, root', p, ExecAll(StmtsOf(pool, bs), p, st).value);
    }
  }

  // ------------------------------------------------------- a load that is lost

  /** Interning can leave such a graph behind: two tests whose branches have come
      together, and a mask of the byte that the second has loaded. */
  function Lossy(snaplen: Word): Pool {
    [Block([LdAbs(B, 12)], Jmp(JmpK(JEQ, 1)), 1, 1, true, 0),
     Block([LdAbs(B, 14)], Jmp(JmpK(JGT, 100)), 2, 2, true, 1),
     Block([AluK(AND, 0xf)], Jmp(JmpK(JEQ, 5)), 3, 4, true, 2),
     Block([], Ret(snaplen), NULL, NULL, true, 3), Block([], Ret(0), NULL, NULL, true, 4)]
  }

  const LOSSY_RANK: map<int, nat> := map[0 := 3, 1 := 2, 2 := 1, 3 := 0, 4 := 0]

  lemma LossyRanked(snaplen: Word)
    ensures Ranked(GraphOf(Lossy(snaplen)), LOSSY_RANK) && LeavesEnd(Lossy(snaplen))
  {
    forall b | b in GraphOf(Lossy(snaplen)) ensures Falls(GraphOf(Lossy(snaplen)), LOSSY_RANK, b) {
    }
  }

  lemma LossyMask(snaplen: Word, p: Packet, st: State)
    requires st[A_ATOM] == 0 || st[A_ATOM] == 5
    ensures Ranked(GraphOf(Lossy(snaplen)), LOSSY_RANK)
    ensures Run(GraphOf(Lossy(snaplen)), LOSSY_RANK, 2, p, st) == Some(if st[A_ATOM] == 5 then snaplen else 0)
  {
    LossyRanked(snaplen);
    var e := st[A_ATOM := if st[A_ATOM] == 5 then 5 else 0];
    assert Exec(AluK(AND, 0xf), p, st) == Some(e);
    assert [AluK(AND, 0xf)][1..] == [];
    assert ExecAll([AluK(AND, 0xf)], p, st) == Some(e);
  }

  lemma LoadLost(snaplen: Word, pool': Pool, root': int, bs: seq<int>, p: Packet, st: State)
    requires Cut(Lossy(snaplen), 0, pool', root', bs) && snaplen != 0
    requires LoadAbs(B, 12, p) == Some(5) && LoadAbs(B, 14, p) == Some(0)
    ensures Ranked(GraphOf(Lossy(snaplen)), LOSSY_RANK) && Ranked(GraphOf(pool'), LOSSY_RANK)
    ensures Run(GraphOf(Lossy(snaplen)), LOSSY_RANK, 0, p, st) == Some(0)
    ensures Run(GraphOf(pool'), LOSSY_RANK, root', p, st) == Some(snaplen)
  {
    LossyRanked(snaplen);
    var pool := Lossy(snaplen);
    CutRanked(pool, LOSSY_RANK, 0, pool', root', bs);
    LossyPassed(snaplen, root', bs);
    var bs2 := [0, 1];
    assert bs2[1..] == [1] && [1][1..] == [];
    assert StmtsOf(pool, [1]) == [LdAbs(B, 14)] + [];
    assert StmtsOf(pool, bs2) == [LdAbs(B, 12)] + StmtsOf(pool, [1]) == [LdAbs(B, 12), LdAbs(B, 14)];
    LossyLoads(p, st);
    PassedIn(pool, bs, 0, root');
    PassedRun(pool, LOSSY_RANK, bs, 0, root', p, st);
    CutRun(pool, LOSSY_RANK, 0, pool', root', bs, p, st);
    hide Lossy, Cut, LoadAbs;
    LossyMask(snaplen, p, st[A_ATOM := 5]);
    LossyMask(snaplen, p, st[A_ATOM := 5][A_ATOM := 0]);
  }

  lemma LossyPassed(snaplen: Word, root': int, bs: seq<int>)
    requires PassesBy(Lossy(snaplen), bs, 0, root') && !(0 <= root' < 5 && Idle(Lossy(snaplen)[root']))
    ensures bs == [0, 1] && root' == 2
  {
    var pool := Lossy(snaplen);
    assert bs != [] && bs[0] == 0 && PassesBy(pool, bs[1..], 1, root');
    var cs := bs[1..];
    assert cs != [] && cs[0] == 1 && PassesBy(pool, cs[1..], 2, root');
    assert cs[1..] == [];
    assert bs == [bs[0]] + [cs[0]];
  }

  lemma LossyLoads(p: Packet, st: State)
    requires LoadAbs(B, 12, p) == Some(5) && LoadAbs(B, 14, p) == Some(0)
    ensures ExecAll([LdAbs(B, 12)], p, st) == Some(st[A_ATOM := 5])
    ensures ExecAll([LdAbs(B, 12), LdAbs(B, 14)], p, st) == Some(st[A_ATOM := 5][A_ATOM := 0])
  {
    hide LoadAbs;
    assert [LdAbs(B, 12)][1..] == [] && [LdAbs(B, 12), LdAbs(B, 14)][1..] == [LdAbs(B, 14)]
      && [LdAbs(B, 14)][1..] == [];
    assert ExecAll([LdAbs(B, 14)], p, st[A_ATOM := 5]) == Some(st[A_ATOM := 5][A_ATOM := 0]);
  }

  // ------------------------------------------------------------- the array

  /** The graph before and after opt_root. */
  datatype Rooting = Rooting(before: Pool, r: map<int, nat>, root: nat, after: Pool, root': int, passed: seq<int>)

  /** The steps lead to the graph that opt_root begins with. */
  ghost predicate RootedLed(f: Filter, snaplen: Word, ts: seq<Step>, c: Rooting) {
    && Led(f, snaplen, c.before, c.r, c.root, ts) && Cut(c.before, c.root, c.after, c.root', c.passed)
    && Ranked(GraphOf(c.after), c.r) && 0 <= c.root' < |c.after|
  }

  ghost predicate ReturnsZero(c: Rooting) {
    0 <= c.root' < |c.after| && c.after[c.root'].s == Ret(0)
  }

  /** The array runs the graph after opt_root. */
  ghost predicate RunsRooted(c: Rooting, prog: seq<Insn>) {
    && Ranked(GraphOf(c.after), c.r) && 0 <= c.root' < |c.after|
    && forall p, st :: Interp(prog, 0, p, st) == Done(Run(GraphOf(c.after), c.r, c.root', p, st))
  }

  ghost predicate MeetsLoss(c: Rooting, p: Packet, st: State) {
    RootHits(c.before, c.r, c.root', c.passed, p, st)
  }

  lemma Rooted(c: Rooting, p: Packet, st: State)
    requires Ranked(GraphOf(c.before), c.r) && LeavesEnd(c.before) && c.root < |c.before|
    requires Cut(c.before, c.root, c.after, c.root', c.passed) && Run(GraphOf(c.before), c.r, c.root, p, st).Some?
    ensures Ranked(GraphOf(c.after), c.r) && 0 <= c.root' < |c.after|
    ensures Run(GraphOf(c.after), c.r, c.root', p, st) == Run(GraphOf(c.before), c.r, c.root, p, st)
      <==> !MeetsLoss(c, p, st)
    ensures c.after[c.root'].s == Ret(0) ==> Run(GraphOf(c.before), c.r, c.root, p, st) == Some(0)
  {
    RootRun(c.before, c.r, c.root, c.after, c.root', c.passed, p, st);
    assert GraphOf(c.after)[c.root'] == NodeOf(c.after[c.root']);
  }

  /** What is left of the verdicts that the graph before opt_root gives. */
  lemma RootedVerdicts(f: Filter, snaplen: Word, ts: seq<Step>, c: Rooting)
    requires RootedLed(f, snaplen, ts, c)
    requires forall p, st | Eval(f, p, st).Exit? && !HitsAny(ts, c.root, p, st) ::
      Run(GraphOf(c.before), c.r, c.root, p, st) == Returned(Eval(f, p, st), snaplen)
    ensures forall p, st | Eval(f, p, st).Exit? && !HitsAny(ts, c.root, p, st) ::
      && (Run(GraphOf(c.after), c.r, c.root', p, st) == Returned(Eval(f, p, st), snaplen) <==> !MeetsLoss(c, p, st))
      && (c.after[c.root'].s == Ret(0) && snaplen != 0 ==> !Eval(f, p, st).taken)
  {
    hide LeavesEnd, HitsAny, Cut, MeetsLoss;
    forall p, st | Eval(f, p, st).Exit? && !HitsAny(ts, c.root, p, st)
      ensures Run(GraphOf(c.after), c.r, c.root', p, st) == Returned(Eval(f, p, st), snaplen) <==> !MeetsLoss(c, p, st)
      ensures c.after[c.root'].s == Ret(0) && snaplen != 0 ==> !Eval(f, p, st).taken
    {
      Rooted(c, p, st);
    }
  }

  /** With opt_root as the last step: of the packets that no load of the filter
      rejects and that hit no hazard before, the array gives exactly those the
      verdict of the filter that do not meet lost statements. There is no array if
      the new root returns 0, and then the filter accepts none of them. */
  method CompileRooted(f: Filter, snaplen: Word, hash: ValueTable.Key -> nat, rounds: nat, safe: bool)
      returns (ok: bool, rejectsAll: bool, prog: array<Insn>, ghost ts: seq<Step>, ghost c: Rooting)
    requires Fresh(f)
    ensures !ok ==> UsesDivision(f)
    ensures !ok ==> Failed(f, snaplen, c.root, ts, rounds, safe)
    ensures ok ==> Optimized(ts, c.root, rounds, safe)
    ensures ok ==> RootedLed(f, snaplen, ts, c) && (rejectsAll <==> ReturnsZero(c))
    ensures ok && !rejectsAll ==> RunsRooted(c, prog[..])
    ensures ok && !rejectsAll ==> forall p, st | Eval(f, p, st).Exit? && !HitsAny(ts, c.root, p, st) ::
      Interp(prog[..], 0, p, st) == Done(Returned(Eval(f, p, st), snaplen)) <==> !MeetsLoss(c, p, st)
    ensures ok && rejectsAll && snaplen != 0 ==> forall p, st | Eval(f, p, st).Exit? && !HitsAny(ts, c.root, p, st) ::
      !Eval(f, p, st).taken
    ensures ok && safe ==> forall p, st :: !HitsAny(ts, c.root, p, st)
    ensures ok && OtherMasks(f) ==> forall p, st | LongEnough(f, p) :: !HitsAny(ts, c.root, p, st)
    ensures AllFields(f) ==> ok
    ensures AllFields(f) ==> forall p, st :: !HitsAny(ts, c.root, p, st)
  {
    hide Fresh, AllFields, OtherMasks, UsesDivision, LongEnough, LeavesEnd, Interp, HitsAny, AllSafe, Cut, MeetsLoss,
      Optimized, Failed;
    var pool, root;
    ghost var r;
    ok, pool, root, r, ts := OptimizeFilter(f, snaplen, hash, rounds, safe);
    rejectsAll, prog := false, new Insn[0];
    c := Rooting(pool, r, root, pool, root, []);
    if ok {
      var pool', root';
      ghost var bs;
      pool', root', bs := OptRoot(pool, root, r);
      CutRanked(pool, r, root, pool', root', bs);
      c := Rooting(pool, r, root, pool', root', bs);
      rejectsAll := pool'[root'].s == Ret(0);
      if !rejectsAll {
        prog := Lay(pool', root', r);
      }
      RootedVerdicts(f, snaplen, ts, c);
    }
  }
}
