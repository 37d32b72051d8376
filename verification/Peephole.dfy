/** The peephole rules for the end of a block: the last operation may be merged
    into the branch, and a branch on constants is decided. */
module Peephole {
  import opened Basics
  import opened Bpf
  import opened Blocks
  import opened Decisions
  import opened Liveness

  /** The first statement from i on that has not been deleted, or |ss|. */
  method ThisOp(ss: seq<Stmt>, i: nat) returns (j: nat)
    requires i <= |ss|
    ensures i <= j <= |ss| && (j < |ss| ==> ss[j] != Nop) && forall k | i <= k < j :: ss[k] == Nop
  {
    j := i;
    while j < |ss| && ss[j] == Nop
      invariant i <= j <= |ss| && forall k | i <= k < j :: ss[k] == Nop
    {
      j := j + 1;
    }
  }

  /** Statement i is followed by deleted ones only. */
  ghost predicate Last(ss: seq<Stmt>, i: nat) {
    i < |ss| && forall k | i < k < |ss| :: ss[k] == Nop
  }

  ghost predicate TwoOps(ss: seq<Stmt>) {
    exists i, j :: 0 <= i < j < |ss| && ss[i] != Nop && ss[j] != Nop
  }

  /** The last operation of a block that has two; without two the first entry of
      the list, whatever it is. */
  ghost predicate IsLastOp(ss: seq<Stmt>, last: int) {
    && 0 <= last < |ss| && (ss[last] != Nop ==> Last(ss, last))
    && if TwoOps(ss) then ss[last] != Nop else last == 0
  }

  method FindLast(ss: seq<Stmt>) returns (last: nat)
    requires ss != []
    ensures IsLastOp(ss, last)
  {
    last := 0;
    var s := ThisOp(ss, 0);
    while s < |ss|
      invariant 0 <= s <= |ss| && last < |ss|
      invariant if s < |ss| then ss[s] != Nop && (last == s || ss[last] == Nop) else ss[last] == Nop
      invariant if last == s then s == 0 || exists i ::
        0 <= i < s && ss[i] != Nop else last == 0 && forall i | 0 <= i < s :: ss[i] == Nop
      decreases |ss| - s
    {
      var next := ThisOp(ss, s + 1);
      if next == |ss| {
        return;
      }
      last, s := next, next;
    }
  }

  // ------------------------------------------- merging the last operation

  lemma SubZero(a: Word, x: Word)
    ensures Minus(a, x) == 0 <==> a == x
  {
    hide Plus, Minus;
    SubMoves(a, x, 0);
    PlusZero(x);
  }

  lemma ExecSubX(p: Packet, e0: State)
    ensures Exec(AluX(SUB), p, e0) == Some(e0[A_ATOM := Minus(e0[A_ATOM], e0[X_ATOM])])
  {
    hide Minus;
  }

  lemma ExecSubK(k: Word, p: Packet, e0: State)
    ensures Exec(AluK(SUB, k), p, e0) == Some(e0[A_ATOM := Minus(e0[A_ATOM], k)])
  {
    hide Minus;
  }

  lemma ExecAndK(k: Word, p: Packet, e0: State)
    ensures Exec(AluK(AND, k), p, e0) == Some(e0[A_ATOM := e0[A_ATOM] & k])
  {
  }

  /** The block without operation `last`, and what its branch becomes. */
  function Merged(b: Block, last: nat, s: Branch): Block
    requires last < |b.stmts|
  {
    b.(stmts := b.stmts[last := Nop], s := s)
  }

  /** The rules for `sub` and `and` before an equality test. `and #k` before a
      test for 0 exchanges the branches. */
  function MergeLast(b: Block, last: nat, outUse: set<int>, xk: Option<Word>): Block
    requires last < |b.stmts|
  {
    if !(b.s.Jmp? && b.s.cond.JmpK? && b.s.cond.test == JEQ) || A_ATOM in outUse then b else
    var y := b.s.cond.k;
    match b.stmts[last]
    case AluX(SUB) =>
      if xk.Some? then Merged(b, last, Jmp(JmpK(JEQ, Plus(y, xk.value))))
      else if y == 0 then Merged(b, last, Jmp(JmpX(JEQ)))
      else b
    case AluK(SUB, k) => Merged(b, last, Jmp(JmpK(JEQ, Plus(y, k))))
    case AluK(AND, k) =>
      if y == 0 then Merged(b, last, Jmp(JmpK(JSET, k))).(jt := b.jf, jf := b.jt) else b
    case _ => b
  }

  /** Where a packet goes that leaves the statements in state e. */
  function Goes(b: Block, e: State): int
    requires b.s.Jmp?
  {
    Succ(b, Taken(b.s.cond, e))
  }

  lemma MergeSubX(b: Block, last: nat, outUse: set<int>, xk: Option<Word>, p: Packet, e0: State, e: State)
    requires b.s.Jmp? && last < |b.stmts| && MergeLast(b, last, outUse, xk) != b && b.stmts[last] == AluX(SUB)
    requires Exec(b.stmts[last], p, e0) == Some(e) && (xk.Some? ==> e[X_ATOM] == xk.value)
    ensures MergeLast(b, last, outUse, xk).s.Jmp? && Goes(MergeLast(b, last, outUse, xk), e0) == Goes(b, e)
  {
    hide Plus, Minus, Exec, Holds;
    ExecSubX(p, e0);
    SubHolds(e0[A_ATOM], e0[X_ATOM], b.s.cond.k);
    SubZeroHolds(e0[A_ATOM], e0[X_ATOM]);
  }

  lemma MergeSubK(b: Block, last: nat, outUse: set<int>, xk: Option<Word>, k: Word, p: Packet, e0: State, e: State)
    requires b.s.Jmp? && last < |b.stmts| && MergeLast(b, last, outUse, xk) != b && b.stmts[last] == AluK(SUB, k)
    requires Exec(b.stmts[last], p, e0) == Some(e)
    ensures MergeLast(b, last, outUse, xk).s.Jmp? && Goes(MergeLast(b, last, outUse, xk), e0) == Goes(b, e)
  {
    hide Plus, Minus, Exec, Holds;
    ExecSubK(k, p, e0);
    SubHolds(e0[A_ATOM], k, b.s.cond.k);
  }

  lemma MergeAndK(b: Block, last: nat, outUse: set<int>, xk: Option<Word>, k: Word, p: Packet, e0: State, e: State)
    requires b.s.Jmp? && last < |b.stmts| && MergeLast(b, last, outUse, xk) != b && b.stmts[last] == AluK(AND, k)
    requires Exec(b.stmts[last], p, e0) == Some(e)
    ensures MergeLast(b, last, outUse, xk).s.Jmp? && Goes(MergeLast(b, last, outUse, xk), e0) == Goes(b, e)
  {
    hide Exec;
    ExecAndK(k, p, e0);
  }

  lemma SubHolds(a: Word, k: Word, y: Word)
    ensures Holds(JEQ, Minus(a, k), y) == Holds(JEQ, a, Plus(y, k))
  {
    hide Plus, Minus;
    SubMoves(a, k, y);
  }

  lemma SubZeroHolds(a: Word, x: Word)
    ensures Holds(JEQ, Minus(a, x), 0) == Holds(JEQ, a, x)
  {
    hide Minus;
    SubZero(a, x);
  }

  /** The deleted operation only changed the accumulator, and what is compared
      with instead of it has the same outcome. */
  lemma MergeGoes(b: Block, last: nat, outUse: set<int>, xk: Option<Word>, p: Packet, e0: State, e: State)
    requires b.s.Jmp? && last < |b.stmts| && MergeLast(b, last, outUse, xk) != b
    requires Exec(b.stmts[last], p, e0) == Some(e) && (xk.Some? ==> e[X_ATOM] == xk.value)
    ensures MergeLast(b, last, outUse, xk).s.Jmp? && Goes(MergeLast(b, last, outUse, xk), e0) == Goes(b, e)
  {
    hide Goes, Exec;
    match b.stmts[last]
    case AluX(SUB) => MergeSubX(b, last, outUse, xk, p, e0, e);
    case AluK(SUB, k) => MergeSubK(b, last, outUse, xk, k, p, e0, e);
    case AluK(AND, k) => MergeAndK(b, last, outUse, xk, k, p, e0, e);
    case _ =>
  }

  // ----------------------------------------------------- deciding the branch

  /** `jset #0` never holds; `jset #ffffffff` is taken to hold always. */
  function JsetRule(b: Block): Block {
    if b.s == Jmp(JmpK(JSET, 0)) then b.(jt := b.jf)
    else if b.s == Jmp(JmpK(JSET, ALL_ONES)) then b.(jf := b.jt)
    else b
  }

  /** With a constant in X the comparison is with that constant. */
  function XRule(b: Block, xk: Option<Word>): Block {
    if xk.Some? && b.s.Jmp? && b.s.cond.JmpX? then b.(s := Jmp(JmpK(b.s.cond.test, xk.value))) else b
  }

  /** With a constant in A the comparison with a constant is decided. */
  function ARule(b: Block, ak: Option<Word>): Block {
    if ak.Some? && b.s.Jmp? && b.s.cond.JmpK? then
      if Holds(b.s.cond.test, ak.value, b.s.cond.k) then b.(jf := b.jt) else b.(jt := b.jf)
    else b
  }

  lemma NoBits(a: Word)
    ensures !Holds(JSET, a, 0) && (Holds(JSET, a, ALL_ONES) <==> a != 0)
  {
  }

  /** The all-ones rule is right exactly for a non-zero accumulator, unless both
      branches lead to the same block. */
  lemma JsetGoes(b: Block, e: State)
    requires b.s.Jmp?
    ensures JsetRule(b).s == b.s && JsetRule(b).stmts == b.stmts
    ensures Goes(JsetRule(b), e) == Goes(b, e) <==>
      !(b.s == Jmp(JmpK(JSET, ALL_ONES)) && e[A_ATOM] == 0 && b.jt != b.jf)
  {
    hide Holds;
    NoBits(e[A_ATOM]);
  }

  lemma RulesGo(b: Block, xk: Option<Word>, ak: Option<Word>, e: State)
    requires b.s.Jmp? && (xk.Some? ==> e[X_ATOM] == xk.value) && (ak.Some? ==> e[A_ATOM] == ak.value)
    ensures ARule(XRule(b, xk), ak).s.Jmp? && ARule(XRule(b, xk), ak).stmts == b.stmts
    ensures Goes(ARule(XRule(b, xk), ak), e) == Goes(b, e)
  {
    hide Holds;
  }

  // -------------------------------------------------------------- the block

  lemma {:induction false} NopsLive(ss: seq<Stmt>, E: set<int>)
    requires (forall k | 0 <= k < |ss| :: ss[k] == Nop) && -1 !in E
    ensures LiveAt(ss, E) == E
  {
    if ss != [] {
      NopsLive(ss[1..], E);
    }
  }

  /** What matters before statements of which i is the last operation. */
  lemma LastLive(ss: seq<Stmt>, i: nat, E: set<int>)
    requires Last(ss, i) && -1 !in E
    ensures LiveAt(ss, E) == LiveAt(ss[..i], Atoms(AtomUse(ss[i])) + (E - {AtomDef(ss[i])}))
    ensures LiveAt(ss[i := Nop], E) == LiveAt(ss[..i], E)
  {
    var nops := ss[i + 1..];
    assert ss == ss[..i] + ([ss[i]] + nops) && ss[i := Nop] == ss[..i] + ([Nop] + nops);
    LiveAtConcat(ss[..i], [ss[i]] + nops, E);
    LiveAtConcat(ss[..i], [Nop] + nops, E);
    NopsLive(nops, E);
    NopsLive([Nop] + nops, E);
    assert ([ss[i]] + nops)[1..] == nops;
  }

  /** What the branch compares with instead of the result was used before. */
  lemma MergeLive(b: Block, last: nat, outUse: set<int>, xk: Option<Word>, E: set<int>)
    requires b.s.Jmp? && last < |b.stmts| && (b.stmts[last] != Nop ==> Last(b.stmts, last)) && -1 !in E
    requires A_ATOM in E ==> A_ATOM in outUse
    ensures var m := MergeLast(b, last, outUse, xk);
      m.s.Jmp? && LiveAt(m.stmts, E + Atoms(BranchUse(m.s))) <= LiveAt(b.stmts, E + Atoms(BranchUse(b.s)))
  {
    var m := MergeLast(b, last, outUse, xk);
    MergeKind(b, last, outUse, xk);
    if m != b {
      var op := b.stmts[last];
      var F, F' := E + Atoms(BranchUse(b.s)), E + Atoms(BranchUse(m.s));
      LastLive(b.stmts, last, F);
      LastLive(b.stmts, last, F');
      LiveAtMono(b.stmts[..last], F', Atoms(AtomUse(op)) + (F - {AtomDef(op)}));
    }
  }

  /** The rules lead where the branch leads, and use no more than it does. */
  lemma RulesShape(b: Block, xk: Option<Word>, ak: Option<Word>)
    requires b.s.Jmp?
    ensures var n := ARule(XRule(JsetRule(b), xk), ak);
      && n.s.Jmp? && n.stmts == b.stmts && n.jt in {b.jt, b.jf} && n.jf in {b.jt, b.jf}
      && Atoms(BranchUse(n.s)) <= Atoms(BranchUse(b.s))
  {
  }

  lemma PeepShape(b: Block, last: nat, outUse: set<int>, xk: Option<Word>, ak: Option<Word>, E: set<int>)
    requires b.s.Jmp? && last < |b.stmts| && (b.stmts[last] != Nop ==> Last(b.stmts, last)) && -1 !in E
    requires A_ATOM in E ==> A_ATOM in outUse
    ensures var n := ARule(XRule(JsetRule(MergeLast(b, last, outUse, xk)), xk), ak);
      && n.s.Jmp? && n.jt in {b.jt, b.jf} && n.jf in {b.jt, b.jf}
      && LiveAt(n.stmts, E + Atoms(BranchUse(n.s))) <= LiveAt(b.stmts, E + Atoms(BranchUse(b.s)))
  {
    var m := MergeLast(b, last, outUse, xk);
    MergeLive(b, last, outUse, xk, E);
    RulesShape(m, xk, ak);
    var n := ARule(XRule(JsetRule(m), xk), ak);
    LiveAtMono(m.stmts, E + Atoms(BranchUse(n.s)), E + Atoms(BranchUse(m.s)));
  }

  /** A mask that the all-ones rule has nothing to do with, or nothing. */
  predicate Masks(s: Stmt) {
    s.Nop? || (s.AluK? && s.op == AND && s.k != ALL_ONES)
  }

  /** The test of one field, perhaps masked, or of the length. */
  predicate PlainTest(b: Block) {
    && b.s.Jmp? && b.s.cond.JmpK? && !(b.s.cond.test == JSET && b.s.cond.k == ALL_ONES)
    && b.stmts != [] && (b.stmts[0].LdAbs? || b.stmts[0].LdLen?)
    && forall i | 0 < i < |b.stmts| :: Masks(b.stmts[i])
  }

  /** Neither mask nor test of all ones. */
  predicate NoOnes(b: Block) {
    && (b.s.Jmp? && b.s.cond.test == JSET ==> b.s.cond.JmpK? && b.s.cond.k != ALL_ONES)
    && forall i | 0 <= i < |b.stmts| :: b.stmts[i] != AluK(AND, ALL_ONES)
  }

  /** X is set before statement i, to something else than all ones for some
      packet. */
  ghost predicate OtherMask(ss: seq<Stmt>, i: nat)
    requires i <= |ss|
  {
    && LiveAt(ss[..i], {X_ATOM}) == {}
    && exists p, st {:trigger ExecAll(ss[..i], p, st)} ::
         ExecAll(ss[..i], p, st).Some? && ExecAll(ss[..i], p, st).value[X_ATOM] != ALL_ONES
  }

  /** No test of all ones, and no mask that could be found to be all ones. */
  ghost predicate Mild(b: Block) {
    NoOnes(b) && forall i | 0 <= i < |b.stmts| && b.stmts[i] == AluX(AND) :: OtherMask(b.stmts, i)
  }

  /** Without these the all-ones rule does not apply, now or later. */
  lemma OnesPeeped(b: Block, last: nat, outUse: set<int>, xk: Option<Word>, ak: Option<Word>)
    requires NoOnes(b) && b.s.Jmp? && last < |b.stmts|
    ensures var m := MergeLast(b, last, outUse, xk);
      !TestsOnes(m) && NoOnes(ARule(XRule(JsetRule(m), xk), ak))
  {
    hide Plus, Holds;
    var m := MergeLast(b, last, outUse, xk);
    assert b.stmts[last] != AluK(AND, ALL_ONES);
    assert m.stmts == b.stmts || m.stmts == b.stmts[last := Nop];
    MergeKind(b, last, outUse, xk);
    RulesShape(m, xk, ak);
  }

  lemma PlainMerged(b: Block, last: nat, outUse: set<int>, xk: Option<Word>)
    requires PlainTest(b) && last < |b.stmts|
    ensures PlainTest(MergeLast(b, last, outUse, xk))
  {
    hide Plus;
    var m := MergeLast(b, last, outUse, xk);
    if m != b {
      assert last > 0 && Masks(b.stmts[last]);
      forall i | 0 < i < |m.stmts| ensures Masks(m.stmts[i]) {
        assert m.stmts[i] == b.stmts[i] || m.stmts[i] == Nop;
      }
    }
  }

  lemma PlainRules(b: Block, xk: Option<Word>, ak: Option<Word>)
    requires PlainTest(b)
    ensures !TestsOnes(b) && PlainTest(ARule(XRule(JsetRule(b), xk), ak))
  {
    hide Holds, Masks;
    var n := ARule(XRule(JsetRule(b), xk), ak);
    assert n.s == b.s && n.stmts == b.stmts;
  }

  /** Such a test stays one, and the all-ones rule does not apply. */
  lemma PlainPeeped(b: Block, last: nat, outUse: set<int>, xk: Option<Word>, ak: Option<Word>)
    requires PlainTest(b) && last < |b.stmts|
    ensures var m := MergeLast(b, last, outUse, xk);
      !TestsOnes(m) && PlainTest(ARule(XRule(JsetRule(m), xk), ak))
  {
    hide *;
    PlainMerged(b, last, outUse, xk);
    PlainRules(MergeLast(b, last, outUse, xk), xk, ak);
  }

  /** Deleting the last operation leaves the state it started from. */
  lemma {:induction false} LastSplit(ss: seq<Stmt>, i: nat, p: Packet, st: State) returns (e0: State)
    requires Last(ss, i) && ExecAll(ss, p, st).Some?
    ensures Exec(ss[i], p, e0) == ExecAll(ss, p, st) && ExecAll(ss[i := Nop], p, st) == Some(e0)
    decreases |ss|
  {
    if i == 0 {
      e0 := st;
      NopsKeep(ss[1..], p, st);
      NopsKeep(ss[1..], p, Exec(ss[0], p, st).value);
      assert ss[0 := Nop][1..] == ss[1..];
    } else {
      forall k | i - 1 < k < |ss[1..]| ensures ss[1..][k] == Nop {
        assert ss[k + 1] == Nop;
      }
      e0 := LastSplit(ss[1..], i - 1, p, Exec(ss[0], p, st).value);
      assert ss[i := Nop][1..] == ss[1..][i - 1 := Nop];
    }
  }

  lemma {:induction false} NopsKeep(ss: seq<Stmt>, p: Packet, st: State)
    requires forall k | 0 <= k < |ss| :: ss[k] == Nop
    ensures ExecAll(ss, p, st) == Some(st)
  {
    if ss != [] {
      assert ss[0] == Nop;
      NopsKeep(ss[1..], p, st);
    }
  }

  lemma MergeThins(b: Block, last: nat, outUse: set<int>, xk: Option<Word>, ak: Option<Word>)
    requires b.s.Jmp? && last < |b.stmts| && (b.stmts[last] != Nop ==> Last(b.stmts, last))
    ensures Thinned(b.stmts, ARule(XRule(JsetRule(MergeLast(b, last, outUse, xk)), xk), ak).stmts)
  {
    hide Plus, Holds, ExecAll;
    var m := MergeLast(b, last, outUse, xk);
    assert m.stmts == b.stmts || m.stmts == b.stmts[last := Nop];
    MergeKind(b, last, outUse, xk);
    RulesShape(m, xk, ak);
    hide MergeLast, ARule, XRule, JsetRule;
    forall p, st | ExecAll(b.stmts, p, st).Some? ensures ExecAll(m.stmts, p, st).Some? {
      if m.stmts != b.stmts {
        var e0 := LastSplit(b.stmts, last, p, st);
      }
    }
  }

  /** The all-ones rule applies, and matters. */
  predicate TestsOnes(b: Block) {
    b.s == Jmp(JmpK(JSET, ALL_ONES)) && b.jt != b.jf
  }

  /** What becomes of b, for a packet that leaves its statements in state e: the
      same atoms, but for the accumulator if it is not in use, and the same way,
      unless the all-ones rule errs. */
  ghost predicate PeepRight(b: Block, ones: bool, b': Block, outUse: set<int>, xk: Option<Word>, ak: Option<Word>,
      p: Packet, st: State) {
    b.s.Jmp? && b'.s.Jmp? &&
    match ExecAll(b.stmts, p, st)
    case None => true
    case Some(e) =>
      (xk.Some? ==> e[X_ATOM] == xk.value) && (ak.Some? ==> e[A_ATOM] == ak.value) ==>
        ExecAll(b'.stmts, p, st).Some? &&
        var e' := ExecAll(b'.stmts, p, st).value;
        && (forall x | 0 <= x < N_ATOMS && (x != A_ATOM || A_ATOM in outUse) :: e'[x] == e[x])
        && (Goes(b', e') == Goes(b, e) <==> !(ones && e'[A_ATOM] == 0))
  }

  lemma PeepRightAt(b: Block, last: nat, outUse: set<int>, xk: Option<Word>, ak: Option<Word>, p: Packet, st: State)
    requires b.s.Jmp? && last < |b.stmts| && (b.stmts[last] != Nop ==> Last(b.stmts, last))
    requires ak.Some? ==> MergeLast(b, last, outUse, xk) == b
    ensures var m := MergeLast(b, last, outUse, xk);
      PeepRight(b, TestsOnes(m), ARule(XRule(JsetRule(m), xk), ak), outUse, xk, ak, p, st)
  {
    hide Goes, ARule, XRule, JsetRule, MergeLast, ExecAll;
    var m := MergeLast(b, last, outUse, xk);
    RulesKind(m, xk, ak);
    MergeKind(b, last, outUse, xk);
    if ExecAll(b.stmts, p, st).Some? {
      var e := ExecAll(b.stmts, p, st).value;
      if (xk.Some? ==> e[X_ATOM] == xk.value) && (ak.Some? ==> e[A_ATOM] == ak.value) {
        if m != b {
          var e0 := LastSplit(b.stmts, last, p, st);
          MergeGoes(b, last, outUse, xk, p, e0, e);
          MergeState(b, last, outUse, xk, p, e0, e);
          JsetGoes(m, e0);
          RulesGo(JsetRule(m), xk, ak, e0);
        } else {
          JsetGoes(b, e);
          RulesGo(JsetRule(b), xk, ak, e);
        }
      }
    }
  }

  /** What is left of `ether[0:4] & 0xffffffff = 0` once its constants are
      found: all packets that get through go to where those whose first word is
      not 0 went. */
  lemma AllOnesErr(jt: int, jf: int, p: Packet, st: State)
    requires LoadAbs(W, 0, p).Some?
    ensures var b := Block([LdAbs(W, 0), AluK(AND, ALL_ONES)], Jmp(JmpK(JEQ, 0)), jt, jf, true, 0);
      var n := ARule(XRule(JsetRule(MergeLast(b, 1, {}, None)), None), None);
      && IsLastOp(b.stmts, 1) && ExecAll(b.stmts, p, st).Some? && ExecAll(n.stmts, p, st).Some?
      && Goes(b, ExecAll(b.stmts, p, st).value) == (if LoadAbs(W, 0, p) == Some(0) then jt else jf)
      && Goes(n, ExecAll(n.stmts, p, st).value) == jf
  {
    var w := LoadAbs(W, 0, p).value;
    var ss := [LdAbs(W, 0), AluK(AND, ALL_ONES)];
    AndAll(w);
    hide LoadAbs;
    assert ss[0] != Nop && ss[1] != Nop && ss[1..] == [AluK(AND, ALL_ONES)] && ss[1..][1..] == [];
    assert ss[1 := Nop][1..] == [Nop] && [Nop][1..] == [];
    assert ExecAll(ss, p, st) == ExecAll(ss[1..], p, st[A_ATOM := w]);
    assert ExecAll(ss[1..], p, st[A_ATOM := w]) == Some(st[A_ATOM := w][A_ATOM := w & ALL_ONES]);
    assert ExecAll(ss[1 := Nop], p, st) == ExecAll([Nop], p, st[A_ATOM := w]) == Some(st[A_ATOM := w]);
  }

  lemma AndAll(w: Word)
    ensures w & ALL_ONES == w
  {
  }

  lemma RulesKind(b: Block, xk: Option<Word>, ak: Option<Word>)
    ensures ARule(XRule(JsetRule(b), xk), ak).s.Jmp? == b.s.Jmp?
  {
    hide Holds;
  }

  lemma MergeKind(b: Block, last: nat, outUse: set<int>, xk: Option<Word>)
    requires last < |b.stmts|
    ensures MergeLast(b, last, outUse, xk).s.Jmp? == b.s.Jmp?
    ensures MergeLast(b, last, outUse, xk) != b ==> b.stmts[last] != Nop
  {
    hide Plus;
  }

  lemma MergeState(b: Block, last: nat, outUse: set<int>, xk: Option<Word>, p: Packet, e0: State, e: State)
    requires b.s.Jmp? && last < |b.stmts| && MergeLast(b, last, outUse, xk) != b
      && Exec(b.stmts[last], p, e0) == Some(e)
    ensures A_ATOM !in outUse && MergeLast(b, last, outUse, xk).stmts == b.stmts[last := Nop]
    ensures forall x | 0 <= x < N_ATOMS && x != A_ATOM :: e0[x] == e[x]
  {
    hide Exec;
    forall x | 0 <= x < N_ATOMS && x != A_ATOM ensures e0[x] == e[x] {
      ExecWrites(b.stmts[last], p, e0, x);
    }
  }

  /** What comes before the last operation is left as it is. */
  lemma MergeMild(b: Block, last: nat, n: Block)
    requires last < |b.stmts| && (b.stmts[last] != Nop ==> Last(b.stmts, last)) && NoOnes(n) && Mild(b)
    requires n.stmts == b.stmts || n.stmts == b.stmts[last := Nop]
    ensures Mild(n)
  {
    hide NoOnes, ExecAll, LiveAt;
    forall i | 0 <= i < |n.stmts| && n.stmts[i] == AluX(AND) ensures OtherMask(n.stmts, i) {
      assert OtherMask(b.stmts, i);
      assert n.stmts[..i] == b.stmts[..i];
    }
  }

  /** The operation has gone, and the branch is on c, to t or f. */
  ghost predicate IsMerged(b: Block, last: nat, m: Block, c: Cond, t: int, f: int) {
    last < |b.stmts| && m == b.(stmts := b.stmts[last := Nop], s := Jmp(c), jt := t, jf := f)
  }

  /** What becomes of the last operation: before a test of A for a constant y, with
      A not in use after the block, a `sub` goes to the other side if its operand
      is known, or y is 0; an `and` with a constant before a test for 0 becomes a
      test of bits the other way round; all else stays. */
  ghost predicate MergeSays(b: Block, last: nat, outUse: set<int>, xk: Option<Word>, m: Block)
    requires last < |b.stmts|
  {
    var s := b.stmts[last];
    if b.s.Jmp? && b.s.cond.JmpK? && b.s.cond.test == JEQ && A_ATOM !in outUse then
      var y := b.s.cond.k;
      && (s == AluX(SUB) && xk.Some? ==> IsMerged(b, last, m, JmpK(JEQ, Plus(y, xk.value)), b.jt, b.jf))
      && (s == AluX(SUB) && xk.None? && y == 0 ==> IsMerged(b, last, m, JmpX(JEQ), b.jt, b.jf))
      && (s.AluK? && s.op == SUB ==> IsMerged(b, last, m, JmpK(JEQ, Plus(y, s.k)), b.jt, b.jf))
      && (s.AluK? && s.op == AND && y == 0 ==> IsMerged(b, last, m, JmpK(JSET, s.k), b.jf, b.jt))
      && (s == AluX(SUB) && xk.None? && y != 0 ==> m == b) && (s.AluK? && s.op == AND && y != 0 ==> m == b)
      && (s != AluX(SUB) && !(s.AluK? && s.op in {SUB, AND}) ==> m == b)
    else m == b
  }

  /** What becomes of the branch: a test of no bits goes to the false side, one of
      all bits to the true side; a known X is tested as a constant; with a known A
      and a constant both sides lead where the test goes. */
  ghost predicate RulesSay(m: Block, xk: Option<Word>, ak: Option<Word>, n: Block)
    requires m.s.Jmp?
  {
    var c := if m.s.cond.JmpX? && xk.Some? then JmpK(m.s.cond.test, xk.value) else m.s.cond;
    && n.stmts == m.stmts && n.s == Jmp(c)
    && if m.s.cond == JmpK(JSET, 0) then n.jt == n.jf == m.jf
       else if m.s.cond == JmpK(JSET, 0xffffffff) then n.jt == n.jf == m.jt
       else if ak.Some? && c.JmpK? then n.jt == n.jf == (if Holds(c.test, ak.value, c.k) then m.jt else m.jf)
       else n.jt == m.jt && n.jf == m.jf
  }

  lemma MergeIs(b: Block, last: nat, outUse: set<int>, xk: Option<Word>)
    requires last < |b.stmts|
    ensures MergeSays(b, last, outUse, xk, MergeLast(b, last, outUse, xk))
  {
    hide Plus;
  }

  lemma RulesAre(m: Block, xk: Option<Word>, ak: Option<Word>)
    requires m.s.Jmp?
    ensures RulesSay(m, xk, ak, ARule(XRule(JsetRule(m), xk), ak))
  {
    hide Holds;
  }

  /** What the rules make of a block, with the constants and the liveness that
      are given; `ones` tells whether the all-ones rule is among them. */
  ghost predicate RulesGive(b: Block, n: Block, outUse: set<int>, xk: Option<Word>, ak: Option<Word>, ones: bool) {
    if b.stmts == [] then n == b && !ones
    else exists last: nat, m: Block {:trigger MergeSays(b, last, outUse, xk, m)} ::
           && IsLastOp(b.stmts, last) && MergeSays(b, last, outUse, xk, m) && m.s.Jmp? && RulesSay(m, xk, ak, n)
           && (ones <==> m.s == Jmp(JmpK(JSET, 0xffffffff)) && m.jt != m.jf)
  }

  lemma RulesGiven(b: Block, last: nat, outUse: set<int>, xk: Option<Word>, ak: Option<Word>)
    requires b.s.Jmp? && b.stmts != [] && IsLastOp(b.stmts, last)
    ensures var m := MergeLast(b, last, outUse, xk);
      RulesGive(b, ARule(XRule(JsetRule(m), xk), ak), outUse, xk, ak, TestsOnes(m))
  {
    hide MergeSays, RulesSay, MergeLast, JsetRule, XRule, ARule;
    MergeIs(b, last, outUse, xk);
    MergeKind(b, last, outUse, xk);
    RulesAre(MergeLast(b, last, outUse, xk), xk, ak);
  }

  lemma OnesShape(m: Block, xk: Option<Word>, ak: Option<Word>)
    requires TestsOnes(m)
    ensures var n := ARule(XRule(JsetRule(m), xk), ak); n.s == Jmp(JmpK(JSET, ALL_ONES)) && n.jt == n.jf
  {
    hide Holds;
  }

  lemma MergeSides(b: Block, last: nat, outUse: set<int>, xk: Option<Word>)
    requires last < |b.stmts|
    ensures var m := MergeLast(b, last, outUse, xk); {m.jt, m.jf} == {b.jt, b.jf}
  {
    hide Plus;
  }

  /** What the rules leave as it is: the branch goes to blocks it went to, the
      statements are the same but for deleted ones, and no more matters before
      the block. */
  ghost predicate Shaped(b: Block, n: Block, outUse: set<int>, ones: bool) {
    && n.s.Jmp? && n.jt in {b.jt, b.jf} && n.jf in {b.jt, b.jf} && Thinned(b.stmts, n.stmts)
    && (PlainTest(b) ==> PlainTest(n)) && (NoOnes(b) ==> NoOnes(n) && !ones) && (Mild(b) ==> Mild(n))
    && forall E: set<int> {:trigger LiveAt(n.stmts, E + Atoms(BranchUse(n.s)))} | -1 !in E
      && (A_ATOM in E ==> A_ATOM in outUse) ::
         LiveAt(n.stmts, E + Atoms(BranchUse(n.s))) <= LiveAt(b.stmts, E + Atoms(BranchUse(b.s)))
  }

  lemma SameShaped(b: Block, outUse: set<int>)
    requires b.s.Jmp?
    ensures Shaped(b, b, outUse, false)
  {
  }

  lemma MergeStmts(b: Block, last: nat, outUse: set<int>, xk: Option<Word>, ak: Option<Word>)
    requires last < |b.stmts|
    ensures var n := ARule(XRule(JsetRule(MergeLast(b, last, outUse, xk)), xk), ak);
      n.stmts == b.stmts || n.stmts == b.stmts[last := Nop]
  {
    hide Plus, Holds;
  }

  lemma RulesShaped(b: Block, last: nat, outUse: set<int>, xk: Option<Word>, ak: Option<Word>)
    requires b.s.Jmp? && last < |b.stmts| && (b.stmts[last] != Nop ==> Last(b.stmts, last))
    ensures var m := MergeLast(b, last, outUse, xk); Shaped(b, ARule(XRule(JsetRule(m), xk), ak), outUse, TestsOnes(m))
  {
    var n := ARule(XRule(JsetRule(MergeLast(b, last, outUse, xk)), xk), ak);
    hide MergeLast, ARule, XRule, JsetRule, PlainTest, NoOnes, Thinned, TestsOnes;
    PeepShape(b, last, outUse, xk, ak, {});
    MergeThins(b, last, outUse, xk, ak);
    if PlainTest(b) {
      PlainPeeped(b, last, outUse, xk, ak);
    }
    if NoOnes(b) {
      OnesPeeped(b, last, outUse, xk, ak);
    }
    if Mild(b) {
      MergeStmts(b, last, outUse, xk, ak);
      MergeMild(b, last, n);
    }
    hide Mild;
    forall E: set<int> | -1 !in E && (A_ATOM in E ==> A_ATOM in outUse)
      ensures LiveAt(n.stmts, E + Atoms(BranchUse(n.s))) <= LiveAt(b.stmts, E + Atoms(BranchUse(b.s)))
    {
      PeepShape(b, last, outUse, xk, ak, E);
    }
  }

  lemma NothingPeeped(b: Block, outUse: set<int>, xk: Option<Word>, ak: Option<Word>)
    requires b.s.Jmp?
    ensures forall p, st {:trigger PeepRight(b, false, b, outUse, xk, ak, p, st)} ::
      PeepRight(b, false, b, outUse, xk, ak, p, st)
  {
  }

  /** The end of opt_peep. xk and ak are the constants that X and A are known to
      hold on exit, if any; what arithmetic leaves is never such a constant. */
  method OptPeep(b: Block, outUse: set<int>, xk: Option<Word>, ak: Option<Word>) returns (n: Block, ghost ones: bool)
    requires b.s.Jmp?
    requires ak.Some? ==> forall i: nat | Last(b.stmts, i) :: !b.stmts[i].AluX? && !b.stmts[i].AluK?
    ensures forall p, st {:trigger PeepRight(b, ones, n, outUse, xk, ak, p, st)} ::
      PeepRight(b, ones, n, outUse, xk, ak, p, st)
    ensures ones ==> n.s == Jmp(JmpK(JSET, ALL_ONES)) && n.jt == n.jf && b.jt != b.jf
    ensures n.s.Jmp? && Shaped(b, n, outUse, ones) && RulesGive(b, n, outUse, xk, ak, ones)
  {
    hide Shaped, PeepRight, MergeSays, RulesSay;
    n, ones := b, false;
    if b.stmts == [] {
      SameShaped(b, outUse);
      NothingPeeped(b, outUse, xk, ak);
      return;
    }
    var last := FindLast(b.stmts);
    n := MergeLast(b, last, outUse, xk);
    MergeKind(b, last, outUse, xk);
    ones := TestsOnes(n);
    ghost var m := n;
    if n.s == Jmp(JmpK(JSET, 0)) {
      n := n.(jt := n.jf);
    }
    if n.s == Jmp(JmpK(JSET, ALL_ONES)) {
      n := n.(jf := n.jt);
    }
    if xk.Some? && n.s.cond.JmpX? {
      n := n.(s := Jmp(JmpK(n.s.cond.test, xk.value)));
    }
    if ak.Some? && n.s.cond.JmpK? {
      n := ARule(n, ak);
    }
    assert n == ARule(XRule(JsetRule(m), xk), ak);
    RulesGiven(b, last, outUse, xk, ak);
    MergeSides(b, last, outUse, xk);
    if ones {
      OnesShape(m, xk, ak);
    }
    forall p, st ensures PeepRight(b, ones, n, outUse, xk, ak, p, st) {
      PeepRightAt(b, last, outUse, xk, ak, p, st);
    }
    RulesShaped(b, last, outUse, xk, ak);
  }
}
