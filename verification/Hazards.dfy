/** What the passes of the optimizer keep, and the packets for which two of its
    rules may go wrong. */
module Hazards {
  import opened Bpf
  import opened Flow
  import opened Blocks
  import opened Dominators
  import opened Decisions
  import opened Liveness
  import opened Numbering
  import opened Propagation
  import opened Peephole
  import opened PeepPass
  import opened Chains
  import opened Pullup
  import opened ValueTable
  import Threading
  import Intern

  /** Every block loads what it tests. */
  ghost predicate AllTestOwn(pool: Pool) {
    forall b | 0 <= b < |pool| && pool[b].s.Jmp? :: TestsOwn(pool[b])
  }

  /** Every test is of one field, perhaps masked, or of the length. */
  ghost predicate AllPlain(pool: Pool) {
    forall b | 0 <= b < |pool| && pool[b].s.Jmp? :: PlainTest(pool[b])
  }

  ghost predicate AllMild(pool: Pool) {
    forall b | 0 <= b < |pool| && pool[b].s.Jmp? :: Mild(pool[b])
  }

  lemma PlainMild(pool: Pool)
    requires AllPlain(pool)
    ensures AllMild(pool)
  {
  }

  /** No test rejects p on the spot. */
  ghost predicate NoneFaults(pool: Pool, p: Packet) {
    forall b | 0 <= b < |pool| && pool[b].s.Jmp? :: !Faults(pool[b], p)
  }

  /** The same blocks with the same statements, but for deleted ones. */
  ghost predicate Thinner(pool: Pool, pool': Pool) {
    |pool'| == |pool| && forall b | 0 <= b < |pool| ::
      (pool'[b].s.Jmp? <==> pool[b].s.Jmp?) && Thinned(pool[b].stmts, pool'[b].stmts)
  }

  lemma ThinnerFaults(pool: Pool, pool': Pool, p: Packet)
    requires Thinner(pool, pool') && NoneFaults(pool, p)
    ensures NoneFaults(pool', p)
  {
  }

  /** The tests are still tests of what they load, and plain or mild ones stay
      so. */
  ghost predicate KeepsTests(pool: Pool, pool': Pool) {
    && Thinner(pool, pool') && (AllTestOwn(pool) ==> AllTestOwn(pool')) && (AllMild(pool) ==> AllMild(pool'))
    && (AllTestOwn(pool) && AllPlain(pool) ==> AllPlain(pool'))
  }

  lemma KeepsTwice(a: Pool, b: Pool, c: Pool)
    requires KeepsTests(a, b) && KeepsTests(b, c)
    ensures KeepsTests(a, c)
  {
    hide TestsOwn, PlainTest, Mild;
  }

  lemma SameKeeps(pool: Pool, pool': Pool)
    requires SameTests(pool, pool')
    ensures KeepsTests(pool, pool')
  {
    hide LiveAt;
  }

  /** Some statement divides. */
  ghost predicate AnyDivision(pool: Pool) {
    exists b :: 0 <= b < |pool| && HasDivision(pool[b].stmts)
  }

  lemma ThinnerDivides(pool: Pool, pool': Pool)
    requires Thinner(pool, pool') && AnyDivision(pool')
    ensures AnyDivision(pool)
  {
    var b :| 0 <= b < |pool'| && HasDivision(pool'[b].stmts);
    var i :| 0 <= i < |pool'[b].stmts| && Arithmetic(pool'[b].stmts[i]) && Divides(pool'[b].stmts[i].op);
    assert pool[b].stmts[i] == pool'[b].stmts[i];
    assert HasDivision(pool[b].stmts);
  }

  // ------------------------------------------------------------------ steps

  /** accNo has the numbers that the accumulator has after the blocks of m. */
  ghost predicate AccNumbers(pool: Pool, m: set<int>, f: Found, accNo: seq<int>) {
    && |accNo| == |pool| == |f.val|
    && forall b | b in m :: 0 <= b < |pool| && |f.val[b]| == N_ATOMS && accNo[b] == f.val[b][A_ATOM]
  }

  /** No more can be done for the edges of the tests of m. */
  ghost predicate AllThreaded(orig: Pool, pool: Pool, m: set<int>, vals: seq<Threading.Values>, edom: seq<set<int>>) {
    forall x | x in m && 0 <= x < |pool| && pool[x].s.Jmp? ::
      && Threading.Exhausted(orig, pool, vals, edom, x)
      && Threading.Exhausted(orig, pool, vals, edom, |pool| + x)
  }

  /** What a pass that does no harm has done, with what its analyses have found. */
  datatype Work =
    | Strips(inUse: seq<AtomSet>, outUse: seq<AtomSet>)
    | Threads(K: seq<Key>, f: Found, inUse: seq<AtomSet>, outUse: seq<AtomSet>, edom: seq<set<int>>,
      vals: seq<Threading.Values>)
    | Rewrites(K: seq<Key>, f: Found)
    | Interns
    | Stays(K: seq<Key>, f: Found, dom: seq<set<int>>, accNo: seq<int>, b: int, side: bool)

  /** How a pass has changed a graph: without harm; by the peepholes, perhaps after
      the statements have been rewritten, with the blocks in which the all-ones rule
      has applied; or by pulling the last of the tests xs, the end of the chain us
      from b, before the first. */
  datatype How =
    | Safe(work: Work)
    | Peeps(alter: bool, numbered: Pool, K: seq<Key>, f: Found, m: set<int>, inUse: seq<AtomSet>, outUse: seq<AtomSet>,
      ones: set<int>)
    | Pull(K: seq<Key>, f: Found, m: set<int>, dom: seq<set<int>>, accNo: seq<int>, b: int, side: bool, us: seq<int>,
      xs: seq<int>)

  datatype Step = Step(pool: Pool, r: map<int, nat>, next: Pool, r': map<int, nat>, how: How)

  /** The dead stores of the blocks m have gone, and nothing else. */
  ghost predicate DidStrip(pool: Pool, next: Pool, m: set<int>, inUse: seq<AtomSet>, outUse: seq<AtomSet>) {
    LiveSets(pool, m, inUse, outUse) && DeadGone(pool, next, m, outUse)
  }

  /** The value numbers of the graph and the atoms in use after its blocks. */
  ghost predicate ValuesFound(pool: Pool, m: set<int>, root: int, w: Work)
    requires w.Threads?
  {
    && NumbersFound(w.K, pool, pool, m, root, w.f.val, w.f.oval, w.f) && LiveSets(pool, m, w.inUse, w.outUse)
    && |w.vals| == |pool|
    && forall b | b in m && 0 <= b < |pool| ::
         w.vals[b] == Threading.Values(w.f.val[b], w.f.oval[b], w.outUse[b])
  }

  /** By these and by the dominators of the graph no edge can be moved any more. */
  ghost predicate DidThread(pool: Pool, next: Pool, m: set<int>, root: int, w: Work)
    requires w.Threads?
  {
    && ValuesFound(pool, m, root, w)
    && Swept(EdgeNext(pool), EdgesIn(pool, m), {root, |pool| + root}, w.edom, EdgesIn(pool, m))
    && SameTests(pool, next) && AllThreaded(pool, next, m, w.vals, w.edom)
  }

  /** Every statement has become what the numbers make of it. */
  ghost predicate DidRewrite(pool: Pool, next: Pool, m: set<int>, root: int, K: seq<Key>, f: Found) {
    NumbersFound(K, pool, next, m, root, f.val, f.oval, f) && AllRewritten(K, pool, next, f, m)
  }

  /** The numbers of the accumulator and the dominators by which tests are pulled
      up. */
  ghost predicate PullBasis(pool: Pool, m: set<int>, root: int, K: seq<Key>, f: Found, dom: seq<set<int>>,
      accNo: seq<int>) {
    && NumbersFound(K, pool, pool, m, root, f.val, f.oval, f) && AccNumbers(pool, m, f, accNo)
    && Swept(BlockNext(pool), m, {root}, dom, m)
  }

  /** No test can be pulled up the chain from b. */
  ghost predicate HadToStay(pool: Pool, m: set<int>, root: int, w: Work)
    requires w.Stays?
  {
    && PullBasis(pool, m, root, w.K, w.f, w.dom, w.accNo)
    && (w.b in m && 0 <= w.b < |pool| && pool[w.b].s.Jmp? ==> NotPullable(pool, m, w.dom, w.accNo, w.b, w.side))
  }

  /** The work has been done. */
  ghost predicate Does(s: Step, root: int, w: Work)
    requires Ranked(GraphOf(s.pool), s.r) && Ranked(GraphOf(s.next), s.r') && 0 <= root < |s.pool| == |s.next|
  {
    var m := Reach(GraphOf(s.pool), s.r, root);
    match w
    case Strips(inUse, outUse) => s.r' == s.r && DidStrip(s.pool, s.next, m, inUse, outUse)
    case Threads(_, _, _, _, _, _) => s.r' == s.r && DidThread(s.pool, s.next, m, root, w)
    case Rewrites(K, f) => s.r' == s.r && DidRewrite(s.pool, s.next, m, root, K, f)
    case Interns => Intern.NoTwins(s.next, Reach(GraphOf(s.next), s.r', root))
    case Stays(_, _, _, _, _, _) => s.r' == s.r && s.next == s.pool && HadToStay(s.pool, m, root, w)
  }

  /** No packet that gets through sees a difference. */
  ghost predicate SameRuns(pool: Pool, r: map<int, nat>, pool': Pool, r': map<int, nat>, root: int)
    requires Ranked(GraphOf(pool), r) && Ranked(GraphOf(pool'), r') && 0 <= root < |pool| == |pool'|
  {
    forall p, st {:trigger Run(GraphOf(pool'), r', root, p, st)} | Run(GraphOf(pool), r, root, p, st).Some? ::
      Run(GraphOf(pool'), r', root, p, st) == Run(GraphOf(pool), r, root, p, st)
  }

  ghost predicate DidPeep(s: Step, root: int)
    requires s.how.Peeps?
  {
    var h := s.how;
    && NumbersFound(h.K, s.pool, h.numbered, h.m, root, h.f.val, h.f.oval, h.f)
    && (if h.alter then AllRewritten(h.K, s.pool, h.numbered, h.f, h.m) else h.numbered == s.pool)
    && LiveSets(h.numbered, h.m, h.inUse, h.outUse)
    && Peeped(h.K, h.numbered, s.next, h.m, h.outUse, h.f, h.ones)
  }

  ghost predicate DidPull(s: Step, root: int)
    requires s.how.Pull?
  {
    var h := s.how;
    && PullBasis(s.pool, h.m, root, h.K, h.f, h.dom, h.accNo)
    && PulledUp(s.pool, s.next, s.r, root, h.m, h.accNo, h.side, h.xs) && s.r' == PulledRank(s.pool, s.r, h.m, h.xs)
    && h.b in h.m && |h.us| >= |h.xs| && h.us[|h.us| - |h.xs|..] == h.xs
    && Pullable(s.pool, h.m, h.dom, h.accNo, h.b, h.side, h.us, |h.us| - |h.xs|)
  }

  /** A test of side `side` has been pulled up the chain from b, or there was none
      to pull. */
  ghost predicate Tries(s: Step, b: int, side: bool) {
    match s.how
    case Safe(Stays(_, _, _, _, b', side')) => b' == b && side' == side
    case Pull(_, _, _, _, _, b', side', _, _) => b' == b && side' == side
    case _ => false
  }

  /** The step is what it says. */
  ghost predicate Justified(s: Step, root: int) {
    && Ranked(GraphOf(s.pool), s.r) && Ranked(GraphOf(s.next), s.r') && 0 <= root < |s.pool| == |s.next|
    && match s.how
       case Safe(w) => SameRuns(s.pool, s.r, s.next, s.r', root) && Does(s, root, w)
       case Peeps(_, _, _, _, m, _, _, _) =>
         s.r' == s.r && m == Reach(GraphOf(s.pool), s.r, root) && DidPeep(s, root)
       case Pull(_, _, m, _, _, _, _, _, _) => m == Reach(GraphOf(s.pool), s.r, root) && DidPull(s, root)
  }

  /** The steps lead from one graph to the other. */
  ghost predicate LeadsOn(ts: seq<Step>, root: int, a: Pool, ra: map<int, nat>, b: Pool, rb: map<int, nat>) {
    if ts == [] then a == b && ra == rb else
    ts[0].pool == a && ts[0].r == ra && Justified(ts[0], root) && LeadsOn(ts[1..], root, ts[0].next, ts[0].r', b, rb)
  }

  lemma LeadsOne(s: Step, root: int)
    requires Justified(s, root)
    ensures LeadsOn([s], root, s.pool, s.r, s.next, s.r')
  {
    hide Justified;
    assert [s][1..] == [] && LeadsOn([], root, s.next, s.r', s.next, s.r');
  }

  lemma {:induction false} LeadsConcat(ts: seq<Step>, us: seq<Step>, root: int, a: Pool, ra: map<int, nat>,
      b: Pool, rb: map<int, nat>, c: Pool, rc: map<int, nat>)
    requires LeadsOn(ts, root, a, ra, b, rb) && LeadsOn(us, root, b, rb, c, rc)
    ensures LeadsOn(ts + us, root, a, ra, c, rc)
  {
    hide Justified;
    if ts == [] {
      assert ts + us == us;
    } else {
      assert (ts + us)[1..] == ts[1..] + us;
      LeadsConcat(ts[1..], us, root, ts[0].next, ts[0].r', b, rb, c, rc);
    }
  }

  // ---------------------------------------------------------------- hazards

  /** A packet that comes where the all-ones rule errs, or that meets the pulled
      test, is rejected by it and would not have come to it. */
  ghost predicate Hits(s: Step, root: int, p: Packet, st: State) {
    && Ranked(GraphOf(s.pool), s.r) && Ranked(GraphOf(s.next), s.r') && 0 <= root < |s.pool| == |s.next|
    && match s.how
       case Safe(_) => false
       case Peeps(_, _, _, _, _, _, _, ones) => Errs(GraphOf(s.next), s.r', ones, root, p, st)
       case Pull(_, _, _, _, _, _, side, _, xs) =>
         |xs| >= 2 && AllTests(s.pool, xs) && xs[0] in Visits(s.pool, s.r, root, p) && Spoils(s.pool, side, xs, p)
  }

  ghost predicate HitsAny(ts: seq<Step>, root: int, p: Packet, st: State) {
    exists i :: 0 <= i < |ts| && Hits(ts[i], root, p, st)
  }

  lemma HitsEither(a: seq<Step>, b: seq<Step>, root: int, p: Packet, st: State)
    ensures HitsAny(a + b, root, p, st) <==> HitsAny(a, root, p, st) || HitsAny(b, root, p, st)
  {
    hide Hits;
    if HitsAny(a, root, p, st) {
      var i :| 0 <= i < |a| && Hits(a[i], root, p, st);
      assert (a + b)[i] == a[i];
    }
    if HitsAny(b, root, p, st) {
      var i :| 0 <= i < |b| && Hits(b[i], root, p, st);
      assert (a + b)[|a| + i] == b[i];
    }
  }

  /** No packet can hit them. */
  ghost predicate Harmless(ts: seq<Step>, root: int) {
    forall p, st {:trigger HitsAny(ts, root, p, st)} :: !HitsAny(ts, root, p, st)
  }

  /** No step can do harm. */
  ghost predicate AllSafe(ts: seq<Step>) {
    forall i | 0 <= i < |ts| :: ts[i].how.Safe?
  }

  lemma SafeHarmless(ts: seq<Step>, root: int)
    requires AllSafe(ts)
    ensures Harmless(ts, root)
  {
  }

  /** A packet that no test of the graph rejects does not hit them. */
  ghost predicate HitByFaults(pool: Pool, ts: seq<Step>, root: int) {
    forall p, st {:trigger HitsAny(ts, root, p, st)} | NoneFaults(pool, p) :: !HitsAny(ts, root, p, st)
  }

  lemma {:induction false} NoErrs(g: Graph<int>, r: map<int, nat>, b: int, p: Packet, st: State)
    requires Ranked(g, r) && b in g
    ensures !Errs(g, r, {}, b, p, st)
    decreases r[b]
  {
    assert Falls(g, r, b);
    if g[b].Fork? && ExecAll(g[b].stmts, p, st).Some? {
      var e := ExecAll(g[b].stmts, p, st).value;
      NoErrs(g, r, if Taken(g[b].cond, e) then g[b].jt else g[b].jf, p, e);
    }
  }

  lemma OnesHarmless(s: Step, root: int)
    requires s.how.Peeps? && s.how.ones == {}
    ensures Harmless([s], root)
  {
    forall p, st ensures !HitsAny([s], root, p, st) {
      if Ranked(GraphOf(s.next), s.r') && 0 <= root < |s.next| {
        NoErrs(GraphOf(s.next), s.r', root, p, st);
      }
    }
  }

  // --------------------------------------------------------- what a pass does

  /** Packets that get through the first graph and hit no hazard get the same
      result from the second. */
  ghost predicate Refines(pool: Pool, r: map<int, nat>, pool': Pool, r': map<int, nat>, root: int, ts: seq<Step>) {
    && Ranked(GraphOf(pool), r) && Ranked(GraphOf(pool'), r') && 0 <= root < |pool| == |pool'|
    && forall p, st {:trigger HitsAny(ts, root, p, st)} | Run(GraphOf(pool), r, root, p, st).Some?
      && !HitsAny(ts, root, p, st) ::
         Run(GraphOf(pool'), r', root, p, st) == Run(GraphOf(pool), r, root, p, st)
  }

  /** The steps lead from one graph to the other, which refines it and leaves
      leaves alone. With mild tests only packets that some test rejects can hit
      a hazard, with plain ones none. */
  ghost predicate Improves(pool: Pool, r: map<int, nat>, pool': Pool, r': map<int, nat>, root: int, ts: seq<Step>) {
    && LeadsOn(ts, root, pool, r, pool', r') && Refines(pool, r, pool', r', root, ts) && LeavesEnd(pool')
    && (AllTestOwn(pool) && AllMild(pool) ==> HitByFaults(pool, ts, root))
    && (AllTestOwn(pool) && AllPlain(pool) ==> Harmless(ts, root))
  }

  lemma RefinesTwice(a: Pool, ra: map<int, nat>, b: Pool, rb: map<int, nat>, c: Pool, rc: map<int, nat>, root: int,
      ts: seq<Step>, us: seq<Step>)
    requires Refines(a, ra, b, rb, root, ts) && Refines(b, rb, c, rc, root, us)
    ensures Refines(a, ra, c, rc, root, ts + us)
  {
    forall p, st | Run(GraphOf(a), ra, root, p, st).Some? && !HitsAny(ts + us, root, p, st)
      ensures Run(GraphOf(c), rc, root, p, st) == Run(GraphOf(a), ra, root, p, st)
    {
      HitsEither(ts, us, root, p, st);
    }
  }

  lemma HarmlessBoth(ts: seq<Step>, us: seq<Step>, root: int)
    requires Harmless(ts, root) && Harmless(us, root)
    ensures Harmless(ts + us, root)
  {
    forall p, st ensures !HitsAny(ts + us, root, p, st) {
      HitsEither(ts, us, root, p, st);
    }
  }

  lemma FaultsBoth(a: Pool, b: Pool, ts: seq<Step>, us: seq<Step>, root: int)
    requires Thinner(a, b) && HitByFaults(a, ts, root) && HitByFaults(b, us, root)
    ensures HitByFaults(a, ts + us, root)
  {
    hide HitsAny, Thinner, NoneFaults;
    forall p, st | NoneFaults(a, p) ensures !HitsAny(ts + us, root, p, st) {
      ThinnerFaults(a, b, p);
      HitsEither(ts, us, root, p, st);
    }
  }

  lemma ImprovesTwice(a: Pool, ra: map<int, nat>, b: Pool, rb: map<int, nat>, c: Pool, rc: map<int, nat>, root: int,
      ts: seq<Step>, us: seq<Step>)
    requires Improves(a, ra, b, rb, root, ts) && KeepsTests(a, b) && Improves(b, rb, c, rc, root, us)
    ensures Improves(a, ra, c, rc, root, ts + us)
  {
    hide AllTestOwn, AllPlain, AllMild, LeavesEnd, Refines, Harmless, HitByFaults, Thinner, LeadsOn;
    LeadsConcat(ts, us, root, a, ra, b, rb, c, rc);
    RefinesTwice(a, ra, b, rb, c, rc, root, ts, us);
    if AllTestOwn(a) && AllMild(a) {
      FaultsBoth(a, b, ts, us, root);
    }
    if AllTestOwn(a) && AllPlain(a) {
      HarmlessBoth(ts, us, root);
    }
  }

  /** A pass that does no harm, as a step. */
  function Safely(pool: Pool, r: map<int, nat>, pool': Pool, r': map<int, nat>, w: Work): seq<Step> {
    [Step(pool, r, pool', r', Safe(w))]
  }

  /** Such a pass. */
  lemma SafeImproves(pool: Pool, r: map<int, nat>, pool': Pool, r': map<int, nat>, root: int, w: Work)
    requires Ranked(GraphOf(pool), r) && Ranked(GraphOf(pool'), r') && 0 <= root < |pool| == |pool'| && LeavesEnd(pool')
    requires SameRuns(pool, r, pool', r', root) && Does(Step(pool, r, pool', r', Safe(w)), root, w)
    ensures Improves(pool, r, pool', r', root, Safely(pool, r, pool', r', w))
  {
    hide Does;
    var ts := Safely(pool, r, pool', r', w);
    assert Justified(ts[0], root);
    LeadsOne(ts[0], root);
    SafeHarmless(ts, root);
    hide Justified, LeadsOn;
  }

  /** A pass that does nothing. */
  lemma NothingImproves(pool: Pool, r: map<int, nat>, root: int)
    requires Ranked(GraphOf(pool), r) && LeavesEnd(pool) && 0 <= root < |pool|
    ensures Improves(pool, r, pool, r, root, [])
  {
  }

  lemma SafelyOn(a: Pool, ra: map<int, nat>, b: Pool, rb: map<int, nat>, c: Pool, rc: map<int, nat>, root: int,
      ts: seq<Step>, us: seq<Step>)
    requires Improves(a, ra, b, rb, root, ts) && Improves(b, rb, c, rc, root, us) && AllSafe(us)
    ensures Improves(a, ra, c, rc, root, ts + us)
  {
    hide AllTestOwn, AllPlain, AllMild, LeavesEnd, Refines, LeadsOn, NoneFaults, HitsAny;
    LeadsConcat(ts, us, root, a, ra, b, rb, c, rc);
    RefinesTwice(a, ra, b, rb, c, rc, root, ts, us);
    SafeHarmless(us, root);
    forall p, st ensures HitsAny(ts + us, root, p, st) <==> HitsAny(ts, root, p, st) {
      HitsEither(ts, us, root, p, st);
    }
  }

  /** Mild tests have no use for the all-ones rule. */
  lemma PeepsImprove(s: Step, root: int)
    requires Justified(s, root) && s.how.Peeps? && Refines(s.pool, s.r, s.next, s.r', root, [s]) && LeavesEnd(s.next)
    requires AllTestOwn(s.pool) && AllMild(s.pool) ==> s.how.ones == {}
    ensures Improves(s.pool, s.r, s.next, s.r', root, [s])
  {
    LeadsOne(s, root);
    hide AllTestOwn, Refines, HitsAny, LeavesEnd, Justified, LeadsOn;
    if AllPlain(s.pool) {
      PlainMild(s.pool);
    }
    if AllTestOwn(s.pool) && AllMild(s.pool) {
      OnesHarmless(s, root);
    }
  }

  /** A pulled test hits only packets that it rejects. */
  lemma PullHits(s: Step, root: int)
    requires s.how.Pull?
    ensures HitByFaults(s.pool, [s], root)
  {
  }
}
