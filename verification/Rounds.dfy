/** The optimizer as a whole: rounds that move branches, one that rewrites
    statements, and interning. */
module Rounds {
  import opened Flow
  import opened Blocks
  import opened Dominators
  import opened Decisions
  import opened ValueTable
  import opened Intern
  import opened Propagation
  import opened Hazards
  import opened Optimizer

  lemma NothingDone(pool: Pool, r: map<int, nat>, root: int)
    requires Ranked(GraphOf(pool), r) && LeavesEnd(pool) && 0 <= root < |pool| && AllTestOwn(pool)
    ensures Going(pool, r, pool, r, root, [])
  {
    SameKeeps(pool, pool);
    NothingImproves(pool, r, root);
  }

  /** What holds between passes: the steps so far lead from orig to pool. */
  ghost predicate Going(orig: Pool, r: map<int, nat>, pool: Pool, r': map<int, nat>, root: int, ts: seq<Step>) {
    && Improves(orig, r, pool, r', root, ts) && KeepsTests(orig, pool) && AllTestOwn(pool)
    && Ranked(GraphOf(pool), r') && LeavesEnd(pool) && 0 <= root < |pool| == |orig|
  }

  /** A pass more that keeps tests. */
  lemma GoesOn(a: Pool, ra: map<int, nat>, b: Pool, rb: map<int, nat>, c: Pool, rc: map<int, nat>, root: int,
      ts: seq<Step>, us: seq<Step>)
    requires Going(a, ra, b, rb, root, ts) && Improves(b, rb, c, rc, root, us) && KeepsTests(b, c)
    ensures Going(a, ra, c, rc, root, ts + us)
  {
    ImprovesTwice(a, ra, b, rb, c, rc, root, ts, us);
    KeepsTwice(a, b, c);
    hide AllTestOwn, AllMild, AllPlain, Thinner, HitByFaults, Harmless, LeadsOn;
  }

  // ---------------------------------------------------------------- pull-ups

  /** Where pull-ups are tried: at each block of the list, first or_pullup and then
      and_pullup. */
  function TriedList(l: seq<int>): seq<(int, bool)> {
    if l == [] then [] else TriedList(l[..|l| - 1]) + [(l[|l| - 1], false), (l[|l| - 1], true)]
  }

  /** The lists from level 1 up. */
  function Tried(levels: seq<seq<int>>): seq<(int, bool)> {
    if |levels| <= 1 then [] else Tried(levels[..|levels| - 1]) + TriedList(levels[|levels| - 1])
  }

  /** The steps try them in this order. */
  ghost predicate PullSteps(ts: seq<Step>, bs: seq<(int, bool)>) {
    |ts| == |bs| && forall i {:trigger ts[i]} {:trigger bs[i]} | 0 <= i < |ts| :: Tries(ts[i], bs[i].0, bs[i].1)
  }

  lemma PullsMore(ts: seq<Step>, bs: seq<(int, bool)>, s: Step, t: Step, b: int)
    requires PullSteps(ts, bs) && Tries(s, b, false) && Tries(t, b, true)
    ensures PullSteps(ts + [s] + [t], bs + [(b, false), (b, true)])
  {
    hide Tries;
  }

  /** or_pullup and and_pullup at every block, lowest level first. */
  method PullAll(pool: Pool, root: int, ghost r: map<int, nat>, levels: seq<seq<int>>, hash: Key -> nat)
      returns (moved: Pool, ghost r': map<int, nat>, ghost ts: seq<Step>)
    requires Ranked(GraphOf(pool), r) && LeavesEnd(pool) && 0 <= root < |pool| && AllTestOwn(pool)
    ensures Going(pool, r, moved, r', root, ts) && PullSteps(ts, Tried(levels))
  {
    hide Going, PullSteps, LeavesEnd, AllTestOwn, Ranked;
    NothingDone(pool, r, root);
    moved, r', ts := pool, r, [];
    NoSteps();
    var i := 1;
    while i < |levels|
      invariant 1 <= i && Going(pool, r, moved, r', root, ts)
      invariant PullSteps(ts, if i < |levels| then Tried(levels[..i]) else Tried(levels))
    {
      var k := 0;
      assert levels[i][..0] == [];
      assert Tried(levels[..i]) + [] == Tried(levels[..i]);
      while k < |levels[i]|
        invariant 0 <= k <= |levels[i]| && Going(pool, r, moved, r', root, ts)
        invariant PullSteps(ts, Tried(levels[..i]) + TriedList(levels[i][..k]))
      {
        TriedMore(levels, i, k);
        moved, r', ts := PullBoth(pool, r, moved, root, r', ts, hash, levels[i][k],
          Tried(levels[..i]) + TriedList(levels[i][..k]));
        k := k + 1;
      }
      TriedLevel(levels, i);
      i := i + 1;
    }
  }

  lemma NoSteps()
    ensures PullSteps([], [])
  {
  }

  lemma TriedMore(levels: seq<seq<int>>, i: nat, k: nat)
    requires i < |levels| && k < |levels[i]|
    ensures Tried(levels[..i]) + TriedList(levels[i][..k + 1])
      == Tried(levels[..i]) + TriedList(levels[i][..k]) + [(levels[i][k], false), (levels[i][k], true)]
  {
    var l := levels[i][..k + 1];
    assert l[..|l| - 1] == levels[i][..k] && l[|l| - 1] == levels[i][k];
  }

  lemma TriedLevel(levels: seq<seq<int>>, i: nat)
    requires 1 <= i < |levels|
    ensures Tried(levels[..i]) + TriedList(levels[i][..|levels[i]|])
      == if i + 1 < |levels| then Tried(levels[..i + 1]) else Tried(levels)
  {
    var l := levels[..i + 1];
    assert l[..|l| - 1] == levels[..i] && l[|l| - 1] == levels[i] && levels[i][..|levels[i]|] == levels[i];
    assert i + 1 == |levels| ==> l == levels;
  }

  /** Both at one block. */
  method PullBoth(ghost orig: Pool, ghost r: map<int, nat>, pool: Pool, root: int, ghost r0: map<int, nat>,
      ghost ts0: seq<Step>, hash: Key -> nat, b: int, ghost bs: seq<(int, bool)>)
      returns (moved: Pool, ghost r': map<int, nat>, ghost ts: seq<Step>)
    requires Going(orig, r, pool, r0, root, ts0) && PullSteps(ts0, bs)
    ensures Going(orig, r, moved, r', root, ts) && PullSteps(ts, bs + [(b, false), (b, true)])
  {
    hide Going, PullSteps, Tries;
    ghost var s, t;
    moved, r', s := PullNext(orig, r, pool, root, r0, ts0, hash, b, false);
    moved, r', t := PullNext(orig, r, moved, root, r', ts0 + [s], hash, b, true);
    ts := ts0 + [s] + [t];
    PullsMore(ts0, bs, s, t, b);
  }

  method PullNext(ghost orig: Pool, ghost r: map<int, nat>, pool: Pool, root: int, ghost r0: map<int, nat>,
      ghost ts0: seq<Step>, hash: Key -> nat, b: int, side: bool)
      returns (moved: Pool, ghost r': map<int, nat>, ghost s: Step)
    requires Going(orig, r, pool, r0, root, ts0)
    ensures Going(orig, r, moved, r', root, ts0 + [s]) && Tries(s, b, side)
  {
    hide Improves, KeepsTests, AllTestOwn, LeavesEnd, Ranked, SameTests, HitsAny, Tries;
    moved, s := PullGraph(pool, root, r0, hash, b, side);
    r' := s.r';
    SameKeeps(pool, moved);
    GoesOn(orig, r, pool, r0, moved, r', root, ts0, [s]);
  }

  // ------------------------------------------------------------------ rounds

  ghost predicate StripStep(s: Step) {
    s.how.Safe? && s.how.work.Strips?
  }

  ghost predicate ThreadStep(s: Step) {
    s.how.Safe? && s.how.work.Threads?
  }

  /** A round: the peepholes, dead stores and jump threading, and then pull-ups by
      the level lists of the graph with which it began. A safe round consists of
      dead stores and jump threading. */
  ghost predicate RoundSteps(ts: seq<Step>, root: int, safe: bool) {
    if safe then |ts| == 2 && StripStep(ts[0]) && ThreadStep(ts[1])
    else
      && |ts| >= 3 && ts[0].how.Peeps? && !ts[0].how.alter && StripStep(ts[1]) && ThreadStep(ts[2])
      && PullsByLevel(ts[0].pool, ts[0].r, root, ts[3..])
  }

  ghost predicate PullsByLevel(pool: Pool, r: map<int, nat>, root: int, ts: seq<Step>) {
    && Ranked(GraphOf(pool), r) && 0 <= root < |pool|
    && exists level, levels {:trigger Leveled(pool, level, levels, Reach(GraphOf(pool), r, root), root)} ::
         Leveled(pool, level, levels, Reach(GraphOf(pool), r, root), root) && PullSteps(ts, Tried(levels))
  }

  /** Dead stores and jump threading. */
  method StripThread(ghost orig: Pool, pool: Pool, root: int, ghost r: map<int, nat>, ghost ts0: seq<Step>,
      hash: Key -> nat)
      returns (moved: Pool, ghost ts: seq<Step>)
    requires Going(orig, r, pool, r, root, ts0)
    ensures Going(orig, r, moved, r, root, ts)
    ensures |ts| == |ts0| + 2 && ts[..|ts0|] == ts0 && StripStep(ts[|ts0|]) && ThreadStep(ts[|ts0| + 1])
  {
    hide Improves, KeepsTests, AllTestOwn, LeavesEnd, SameTests;
    var stripped, done;
    ghost var v, w;
    stripped, v := StripGraph(pool, root, r);
    GoesOn(orig, r, pool, r, stripped, r, root, ts0, Safely(pool, r, stripped, r, v));
    moved, done, w := ThreadGraph(stripped, root, r, hash);
    SameKeeps(stripped, moved);
    GoesOn(orig, r, stripped, r, moved, r, root, ts0 + Safely(pool, r, stripped, r, v),
      Safely(stripped, r, moved, r, w));
    ts := ts0 + Safely(pool, r, stripped, r, v) + Safely(stripped, r, moved, r, w);
  }

  /** The peepholes, and then dead stores and jump threading. */
  method PeepFirst(pool: Pool, root: int, ghost r: map<int, nat>, hash: Key -> nat)
      returns (moved: Pool, ghost ts: seq<Step>)
    requires Ranked(GraphOf(pool), r) && LeavesEnd(pool) && 0 <= root < |pool| && AllTestOwn(pool)
    ensures Going(pool, r, moved, r, root, ts)
    ensures |ts| == 3 && ts[0].pool == pool && ts[0].r == r && ts[0].how.Peeps? && !ts[0].how.alter
      && StripStep(ts[1]) && ThreadStep(ts[2])
  {
    NothingDone(pool, r, root);
    hide Improves, KeepsTests, AllTestOwn, LeavesEnd, Ranked;
    ghost var s;
    moved, s := PeepGraph(pool, root, r, hash);
    GoesOn(pool, r, pool, r, moved, r, root, [], [s]);
    hide Going;
    moved, ts := StripThread(pool, moved, root, r, [] + [s], hash);
    assert ts[0] == ts[..1][0];
  }

  /** One round of opt_loop: peepholes, dead stores, jump threading and pull-ups.
      A safe round leaves out the peepholes and the pull-ups. */
  method Round(pool: Pool, root: int, ghost r: map<int, nat>, hash: Key -> nat, safe: bool)
      returns (moved: Pool, ghost r': map<int, nat>, ghost ts: seq<Step>)
    requires Ranked(GraphOf(pool), r) && LeavesEnd(pool) && 0 <= root < |pool| && AllTestOwn(pool)
    ensures Going(pool, r, moved, r', root, ts) && RoundSteps(ts, root, safe)
    ensures KeepsTests(pool, moved) && AllTestOwn(moved)
  {
    hide Improves, KeepsTests, AllTestOwn, LeavesEnd, PullSteps, Leveled, StripStep, ThreadStep;
    var level, levels, m := Level(pool, root, r);
    r' := r;
    if safe {
      NothingDone(pool, r, root);
      moved, ts := StripThread(pool, pool, root, r, [], hash);
    } else {
      moved, ts := PeepFirst(pool, root, r, hash);
      ghost var was, us, first := moved, [], ts;
      moved, r', us := PullAll(moved, root, r, levels, hash);
      GoesOn(pool, r, was, r, moved, r', root, ts, us);
      ts := ts + us;
      assert ts[3..] == us && ts[..3] == first;
      assert Leveled(pool, level, levels, Reach(GraphOf(pool), r, root), root) && PullSteps(us, Tried(levels));
    }
  }

  lemma {:induction false} LeadsEnds(ts: seq<Step>, root: int, a: Pool, ra: map<int, nat>, b: Pool, rb: map<int, nat>)
    requires LeadsOn(ts, root, a, ra, b, rb) && ts != []
    ensures ts[0].pool == a && ts[|ts| - 1].next == b
  {
    hide Justified;
    if |ts| > 1 {
      LeadsEnds(ts[1..], root, ts[0].next, ts[0].r', b, rb);
    } else {
      assert ts[1..] == [];
    }
  }

  /** The steps of all rounds, one after another. */
  function Flat(us: seq<seq<Step>>): seq<Step> {
    if us == [] then [] else Flat(us[..|us| - 1]) + us[|us| - 1]
  }

  /** The graph after the steps is not the one before. */
  ghost predicate Changes(ts: seq<Step>) {
    ts != [] && ts[|ts| - 1].next != ts[0].pool
  }

  /** The rounds of the branch optimizer: one more as long as the last has changed
      the graph and not as many have been made as given. */
  ghost predicate Looped(us: seq<seq<Step>>, root: int, rounds: nat, safe: bool) {
    && |us| <= rounds && (forall i {:trigger us[i]} | 0 <= i < |us| :: RoundSteps(us[i], root, safe))
    && (forall i {:trigger us[i]} | 0 <= i < |us| - 1 :: Changes(us[i]))
    && (|us| < rounds ==> us != [] && !Changes(us[|us| - 1]))
  }

  /** The rounds so far. */
  ghost predicate Looping(us: seq<seq<Step>>, root: int, rounds: nat, safe: bool, done: bool) {
    && |us| <= rounds && (forall i {:trigger us[i]} | 0 <= i < |us| :: RoundSteps(us[i], root, safe))
    && (forall i {:trigger us[i]} | 0 <= i < |us| - 1 :: Changes(us[i]))
    && (done <==> us != [] && !Changes(us[|us| - 1]))
  }

  lemma LoopsOn(us: seq<seq<Step>>, root: int, rounds: nat, safe: bool, ts: seq<Step>)
    requires Looping(us, root, rounds, safe, false) && |us| < rounds && RoundSteps(ts, root, safe)
    ensures Looping(us + [ts], root, rounds, safe, !Changes(ts))
  {
    hide RoundSteps, Changes;
    var vs := us + [ts];
    forall i | 0 <= i < |vs| ensures RoundSteps(vs[i], root, safe) && (i < |vs| - 1 ==> Changes(vs[i])) {
      if i < |us| {
        assert vs[i] == us[i];
      }
    }
  }

  lemma FlatMore(us: seq<seq<Step>>, ts: seq<Step>)
    ensures Flat(us + [ts]) == Flat(us) + ts
  {
    assert (us + [ts])[..|us|] == us;
  }

  lemma RoundSafe(ts: seq<Step>, us: seq<Step>, root: int, safe: bool)
    requires RoundSteps(us, root, safe) && (safe ==> AllSafe(ts))
    ensures safe ==> AllSafe(ts + us)
  {
    hide PullsByLevel;
  }

  /** Rounds of the branch optimizer until nothing changes, at most as many as
      given. */
  method OptLoop(pool: Pool, root: int, ghost r: map<int, nat>, hash: Key -> nat, rounds: nat, safe: bool)
      returns (moved: Pool, ghost r': map<int, nat>, ghost us: seq<seq<Step>>)
    requires Ranked(GraphOf(pool), r) && LeavesEnd(pool) && 0 <= root < |pool| && AllTestOwn(pool)
    ensures Going(pool, r, moved, r', root, Flat(us)) && (safe ==> AllSafe(Flat(us))) && Looped(us, root, rounds, safe)
    ensures KeepsTests(pool, moved) && AllTestOwn(moved)
  {
    NothingDone(pool, r, root);
    hide Improves, KeepsTests, AllTestOwn, LeavesEnd, RoundSteps, AllSafe;
    moved, r', us := pool, r, [];
    NoneUnsafe();
    var n, done := 0, false;
    while n < rounds && !done
      invariant Going(pool, r, moved, r', root, Flat(us)) && (safe ==> AllSafe(Flat(us)))
      invariant n == |us| && Looping(us, root, rounds, safe, done)
      decreases rounds - n
    {
      moved, r', us, done := OneMore(pool, r, moved, root, r', us, hash, rounds, safe);
      n := n + 1;
    }
  }

  lemma NoneUnsafe()
    ensures AllSafe([])
  {
  }

  method OneMore(ghost orig: Pool, ghost r: map<int, nat>, pool: Pool, root: int, ghost r0: map<int, nat>,
      ghost us: seq<seq<Step>>, hash: Key -> nat, ghost rounds: nat, safe: bool)
      returns (moved: Pool, ghost r': map<int, nat>, ghost vs: seq<seq<Step>>, done: bool)
    requires Going(orig, r, pool, r0, root, Flat(us)) && (safe ==> AllSafe(Flat(us)))
    requires Looping(us, root, rounds, safe, false) && |us| < rounds
    ensures Going(orig, r, moved, r', root, Flat(vs)) && (safe ==> AllSafe(Flat(vs)))
    ensures |vs| == |us| + 1 && Looping(vs, root, rounds, safe, done)
  {
    hide KeepsTests, AllTestOwn, LeavesEnd, RoundSteps, Looping, AllSafe, Flat, LeadsOn, Refines, Harmless, HitByFaults;
    ghost var ts;
    moved, r', ts := Round(pool, root, r0, hash, safe);
    GoesOn(orig, r, pool, r0, moved, r', root, Flat(us), ts);
    done := moved == pool;
    vs := us + [ts];
    RoundSafe(Flat(us), ts, root, safe);
    LoopsOn(us, root, rounds, safe, ts);
    FlatMore(us, ts);
    StepsSome(ts, root, safe);
    LeadsEnds(ts, root, pool, r0, moved, r');
  }

  lemma StepsSome(ts: seq<Step>, root: int, safe: bool)
    requires RoundSteps(ts, root, safe)
    ensures ts != []
  {
  }

  // --------------------------------------------------------------- interning

  /** No two blocks in use are alike. */
  ghost predicate Interned(pool: Pool, r: map<int, nat>, root: int) {
    && Ranked(GraphOf(pool), r) && LeavesEnd(pool) && 0 <= root < |pool|
    && NoTwins(pool, Reach(GraphOf(pool), r, root))
  }

  /** Interning: no packet that gets through sees a difference. */
  method InternGraph(pool: Pool, root: nat, ghost r: map<int, nat>) returns (interned: Pool, ghost r': map<int, nat>)
    requires Ranked(GraphOf(pool), r) && LeavesEnd(pool) && root < |pool|
    ensures Improves(pool, r, interned, r', root, Safely(pool, r, interned, r', Interns))
    ensures |interned| == |pool| && Interned(interned, r', root)
  {
    EdgesOf(pool, r);
    var i := new Interner(pool, r);
    i.InternBlocks(root);
    interned, r' := i.pool, i.h;
    forall p, st | Run(GraphOf(pool), r, root, p, st).Some?
      ensures Run(GraphOf(interned), r', root, p, st) == Run(GraphOf(pool), r, root, p, st)
    {
      RunRank(GraphOf(pool), r, r', root, p, st);
    }
    SafeImproves(pool, r, interned, r', root, Interns);
  }

  lemma Improved(pool: Pool, r: map<int, nat>, pool': Pool, r': map<int, nat>, root: int, ts: seq<Step>)
    requires Improves(pool, r, pool', r', root, ts)
    ensures Ranked(GraphOf(pool'), r') && LeavesEnd(pool') && |pool'| == |pool|
  {
  }

  // ------------------------------------------------------------ bpf_optimize

  /** The last three steps, after those before. */
  ghost predicate FinishSteps(ts: seq<Step>, ts0: seq<Step>, safe: bool) {
    && |ts| == |ts0| + 3 && ts[..|ts| - 3] == ts0
    && RewriteStep(ts[|ts| - 3], safe) && StripStep(ts[|ts| - 2]) && ts[|ts| - 1].how == Safe(Interns)
  }

  /** The steps of bpf_optimize: the rounds, then the statements are rewritten, dead
      stores go, and equal blocks are merged. */
  ghost predicate Optimized(ts: seq<Step>, root: int, rounds: nat, safe: bool) {
    exists us {:trigger Looped(us, root, rounds, safe)} ::
      Looped(us, root, rounds, safe) && FinishSteps(ts, Flat(us), safe)
  }

  /** After the rounds ts the optimizer gives up: by the numbers found on the graph
      that they leave, a constant is divided by the constant 0. */
  ghost predicate GaveUp(pool: Pool, r: map<int, nat>, root: int, ts: seq<Step>, rounds: nat, safe: bool) {
    && (exists us {:trigger Looped(us, root, rounds, safe)} :: Looped(us, root, rounds, safe) && ts == Flat(us))
    && exists b, rb, stop {:trigger LeadsOn(ts, root, pool, r, b, rb), DividesAt(stop, b, rb, root)} ::
         LeadsOn(ts, root, pool, r, b, rb) && DividesAt(stop, b, rb, root)
  }

  ghost predicate DividesAt(stop: Stop, pool: Pool, r: map<int, nat>, root: int) {
    Ranked(GraphOf(pool), r) && 0 <= root < |pool| && Stops(stop, pool, Reach(GraphOf(pool), r, root))
  }

  /** bpf_optimize: the branches, the statements, and interning. The steps that
      were made lead from the graph to the result; packets that get through and
      hit no hazard of a step see no difference, and no two blocks in use are
      alike. It fails only at a division of a constant by zero. */
  method Optimize(pool: Pool, root: nat, ghost r: map<int, nat>, hash: Key -> nat, rounds: nat, safe: bool)
      returns (ok: bool, pool': Pool, ghost r': map<int, nat>, ghost ts: seq<Step>)
    requires Ranked(GraphOf(pool), r) && LeavesEnd(pool) && root < |pool| && AllTestOwn(pool)
    ensures !ok ==> AnyDivision(pool)
    ensures !ok ==> GaveUp(pool, r, root, ts, rounds, safe)
    ensures ok ==> Improves(pool, r, pool', r', root, ts) && Optimized(ts, root, rounds, safe) && (safe ==> AllSafe(ts))
    ensures ok ==> |pool'| == |pool| && Interned(pool', r', root)
  {
    hide KeepsTests, AllTestOwn, LeavesEnd, Refines, Harmless, HitByFaults, LeadsOn, Looped, Flat, Stops, AllSafe,
      AnyDivision, Interned, FinishSteps;
    var moved;
    ghost var r1, s, us, stop;
    moved, r1, us := OptLoop(pool, root, r, hash, rounds, safe);
    ts := Flat(us);
    ok, pool', s, stop := RewriteGraph(moved, root, r1, hash, safe);
    r' := r1;
    if ok {
      pool', r', ts := Finish(pool, r, moved, pool', root, r1, ts, s, safe);
    } else {
      KeptDivides(pool, moved);
      assert DividesAt(stop, moved, r1, root);
    }
  }

  lemma StepsFinish(ts0: seq<Step>, s: Step, t: Step, u: Step, safe: bool)
    requires RewriteStep(s, safe) && StripStep(t) && u.how == Safe(Interns) && (safe ==> AllSafe(ts0))
    ensures FinishSteps(ts0 + [s] + [t] + [u], ts0, safe) && (safe ==> AllSafe(ts0 + [s] + [t] + [u]))
  {
  }

  /** Dead stores and interning, after the statements have been rewritten. */
  method Finish(ghost orig: Pool, ghost r: map<int, nat>, ghost moved: Pool, pool: Pool, root: nat,
      ghost r1: map<int, nat>, ghost ts0: seq<Step>, ghost s: Step, ghost safe: bool)
      returns (interned: Pool, ghost r': map<int, nat>, ghost ts: seq<Step>)
    requires Improves(orig, r, moved, r1, root, ts0) && KeepsTests(orig, moved) && root < |orig|
    requires Improves(moved, r1, pool, r1, root, [s]) && RewriteStep(s, safe) && (safe ==> AllSafe(ts0))
    ensures Improves(orig, r, interned, r', root, ts) && (safe ==> AllSafe(ts)) && FinishSteps(ts, ts0, safe)
    ensures |interned| == |orig| && Interned(interned, r', root)
  {
    hide KeepsTests, LeavesEnd, Improves, Ranked, Interned, FinishSteps, AllSafe, RewriteStep;
    ImprovesTwice(orig, r, moved, r1, pool, r1, root, ts0, [s]);
    Improved(orig, r, pool, r1, root, ts0 + [s]);
    var stripped;
    ghost var w;
    stripped, w := StripGraph(pool, root, r1);
    ghost var us := Safely(pool, r1, stripped, r1, w);
    SafeOnly(pool, r1, stripped, r1, w);
    SafelyOn(orig, r, pool, r1, stripped, r1, root, ts0 + [s], us);
    Improved(pool, r1, stripped, r1, root, us);
    interned, r' := InternGraph(stripped, root, r1);
    ghost var vs := Safely(stripped, r1, interned, r', Interns);
    SafeOnly(stripped, r1, interned, r', Interns);
    SafelyOn(orig, r, stripped, r1, interned, r', root, ts0 + [s] + us, vs);
    ts := ts0 + [s] + us + vs;
    StepsFinish(ts0, s, us[0], vs[0], safe);
  }

  lemma SafeOnly(pool: Pool, r: map<int, nat>, pool': Pool, r': map<int, nat>, w: Work)
    ensures AllSafe(Safely(pool, r, pool', r', w))
  {
  }

  lemma KeptDivides(pool: Pool, pool': Pool)
    requires KeepsTests(pool, pool') && AnyDivision(pool')
    ensures AnyDivision(pool)
  {
    ThinnerDivides(pool, pool');
  }
}
