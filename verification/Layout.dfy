/** Layout: the flow graph becomes an array of instructions, filled from its end
    by a depth-first walk; a branch that turns out too long for eight bits is
    flagged, and the walk is repeated with room for an extra jump. */
module Layout {
  import opened Basics
  import opened Bpf
  import opened Flow
  import opened Blocks
  import opened Insns

  /** The instructions of the blocks of m, given the size of each block. */
  function Weight(m: set<int>, size: seq<nat>): nat {
    if size == [] then 0 else
    var n := |size| - 1;
    Weight(m, size[..n]) + if n in m then size[n] else 0
  }

  lemma {:induction false} WeightAdd(m: set<int>, size: seq<nat>, b: int)
    requires 0 <= b < |size| && b !in m
    ensures Weight(m + {b}, size) == Weight(m, size) + size[b]
  {
    var n := |size| - 1;
    if b == n {
      WeightSame(m, m + {b}, size[..n]);
    } else {
      WeightAdd(m, size[..n], b);
    }
  }

  lemma {:induction false} WeightSame(m: set<int>, m': set<int>, size: seq<nat>)
    requires forall b | 0 <= b < |size| :: b in m <==> b in m'
    ensures Weight(m, size) == Weight(m', size)
  {
    if size != [] {
      WeightSame(m, m', size[..|size| - 1]);
    }
  }

  lemma {:induction false} WeightMonotone(m: set<int>, m': set<int>, size: seq<nat>)
    requires m <= m'
    ensures Weight(m, size) <= Weight(m', size)
  {
    if size != [] {
      WeightMonotone(m, m', size[..|size| - 1]);
    }
  }

  lemma {:induction false} WeightEmpty(size: seq<nat>)
    ensures Weight({}, size) == 0
  {
    if size != [] {
      WeightEmpty(size[..|size| - 1]);
    }
  }

  ghost function SizesOf(pool: Pool, longjt: seq<nat>, longjf: seq<nat>): seq<nat>
    requires |longjt| == |longjf| == |pool|
  {
    seq(|pool|, b requires 0 <= b < |pool| => |Live(pool[b].stmts)| + 1 + longjt[b] + longjf[b])
  }

  class Assembler {
    const pool: Pool
    ghost const rank: map<int, nat>
    var marked: set<int>
    var longjt: seq<nat>
    var longjf: seq<nat>
    var offset: seq<nat>
    var code: array<Insn>
    var tail: nat

    constructor (pool: Pool, ghost rank: map<int, nat>)
      requires Ranked(GraphOf(pool), rank) && LeavesEnd(pool)
      ensures this.pool == pool && this.rank == rank && Valid()
      ensures (forall i | 0 <= i < |longjt| :: longjt[i] == 0) && (forall i | 0 <= i < |longjf| :: longjf[i] == 0)
    {
      this.pool, this.rank := pool, rank;
      marked, tail := {}, 0;
      longjt, longjf, offset := seq(|pool|, _ => 0), seq(|pool|, _ => 0), seq(|pool|, _ => 0);
      code := new Insn[0];
    }

    /** The graph never changes during layout. */
    ghost predicate Sound() {
      Ranked(GraphOf(pool), rank) && LeavesEnd(pool)
    }

    ghost predicate Valid()
      reads `longjt, `longjf, `offset
    {
      Sound() && |longjt| == |longjf| == |offset| == |pool|
    }

    ghost function Sizes(): (s: seq<nat>)
      requires |longjt| == |longjf| == |offset| == |pool|
      reads `longjt, `longjf, `offset
      ensures |s| == |pool|
    {
      SizesOf(pool, longjt, longjf)
    }

    ghost function From(p: int): set<int>
      requires Sound() && (p != NULL ==> 0 <= p < |pool|)
    {
      if p == NULL then {} else Reach(GraphOf(pool), rank, p)
    }

    method Slength(ss: seq<Stmt>) returns (n: nat)
      ensures n == |Live(ss)|
    {
      n := 0;
      for i := 0 to |ss|
        invariant n == |Live(ss[..i])|
      {
        assert ss[..i + 1] == ss[..i] + [ss[i]];
        LiveConcat(ss[..i], [ss[i]]);
        if ss[i] != Nop {
          n := n + 1;
        }
      }
      assert ss[..|ss|] == ss;
    }

    method CountStmts(p: int) returns (n: nat)
      requires Valid() && (p != NULL ==> 0 <= p < |pool|)
      requires p != NULL ==> Settled(GraphOf(pool), rank, marked, rank[p])
      modifies `marked
      ensures marked == old(marked) + From(p)
      ensures n + Weight(old(marked), Sizes()) == Weight(marked, Sizes())
      decreases if p == NULL then 0 else 2 * rank[p] + 2
    {
      if p == NULL || p in marked {
        return 0;
      }
      ghost var m := marked;
      marked := marked + {p};
      ghost var size := Sizes();
      WeightAdd(m, size, p);
      Succ(p);
      ghost var g := GraphOf(pool);
      SettledMark(g, rank, m, p);
      var nt := CountStmts(pool[p].jt);
      if pool[p].jt != NULL {
        SettledVisit(g, rank, m + {p}, pool[p].jt, rank[p] - 1);
      }
      var nf := CountStmts(pool[p].jf);
      var len := Slength(pool[p].stmts);
      assert Sizes() == size && size[p] == len + 1 + longjt[p] + longjf[p];
      n := nt + nf + len + 1 + longjt[p] + longjf[p];
    }

    /** Copies the statements that are left to the array, from index `at` on. */
    method EmitStmts(ss: seq<Stmt>, at: nat) returns (dst: nat)
      requires at + |Live(ss)| <= code.Length
      modifies code
      ensures dst == at + |Live(ss)|
      ensures forall i | 0 <= i < |Live(ss)| :: code[at + i] == Plain(Live(ss)[i])
      ensures forall i | 0 <= i < code.Length && !(at <= i < dst) :: code[i] == old(code[i])
    {
      dst := at;
      for j := 0 to |ss|
        invariant dst == at + |Live(ss[..j])| <= at + |Live(ss)|
        invariant forall i | 0 <= i < dst - at :: code[at + i] == Plain(Live(ss[..j])[i])
        invariant forall i | 0 <= i < code.Length && !(at <= i < dst) :: code[i] == old(code[i])
      {
        assert ss[..j + 1] == ss[..j] + [ss[j]];
        assert ss == ss[..j + 1] + ss[j + 1..];
        LiveConcat(ss[..j], [ss[j]]);
        LiveConcat(ss[..j + 1], ss[j + 1..]);
        if ss[j] != Nop {
          code[dst] := Plain(ss[j]);
          dst := dst + 1;
        }
      }
      assert ss[..|ss|] == ss;
    }

    /** Puts block p, whose successors are in place, in front of what has been
        laid out; false when a branch needs an extra jump that it has no room for. */
    method Emit(p: nat) returns (ok: bool)
      requires |longjt| == |longjf| == |offset| == |pool| && p < |pool|
      requires |Live(pool[p].stmts)| + 1 + longjt[p] + longjf[p] <= tail <= code.Length
      requires pool[p].s.Jmp? ==>
        0 <= pool[p].jt < |pool| && tail <= offset[pool[p].jt] && 0 <= pool[p].jf < |pool| && tail <= offset[pool[p].jf]
          && pool[p].jt != p && pool[p].jf != p
      modifies this`longjt, this`longjf, this`offset, this`tail, code
      ensures |longjt| == |longjf| == |offset| == |pool|
      ensures ok ==> longjt == old(longjt) && longjf == old(longjf)
      ensures ok ==> tail == old(tail) - (|Live(pool[p].stmts)| + 1 + longjt[p] + longjf[p])
      ensures ok ==> offset == old(offset)[p := tail]
      ensures ok ==> PlacedAt(code[..], pool, offset, p)
      ensures forall i | old(tail) <= i < code.Length :: code[i] == old(code[i])
      ensures !ok ==> Flagged(pool, offset, old(longjt), old(longjf), longjt, longjf)
    {
      var ss := pool[p].stmts;
      var slen := Slength(ss);
      tail := tail - (slen + 1 + longjt[p] + longjf[p]);
      offset := offset[p := tail];
      var dst := EmitStmts(ss, tail);
      match pool[p].s
      case Ret(k) =>
        code[dst] := Return(k);
        ok := true;
      case Jmp(c) =>
        ok := EmitBranch(p, c, dst);
    }

    /** The successors of p are below it and make up what it reaches. */
    lemma Succ(p: int)
      requires Sound() && 0 <= p < |pool|
      ensures pool[p].jt == NULL || (0 <= pool[p].jt < |pool| && rank[pool[p].jt] < rank[p])
      ensures pool[p].jf == NULL || (0 <= pool[p].jf < |pool| && rank[pool[p].jf] < rank[p])
      ensures pool[p].s.Jmp? ==> pool[p].jt != NULL && pool[p].jf != NULL
      ensures From(p) == {p} + From(pool[p].jt) + From(pool[p].jf)
      ensures p !in From(pool[p].jt) && p !in From(pool[p].jf)
    {
      var g := GraphOf(pool);
      assert g[p] == NodeOf(pool[p]) && Falls(g, rank, p);
      if pool[p].s.Jmp? {
        if p in From(pool[p].jt) { ReachClosed(g, rank, pool[p].jt, p); }
        if p in From(pool[p].jf) { ReachClosed(g, rank, pool[p].jf, p); }
      }
    }

    lemma {:induction false} LaidClosed(c: seq<Insn>, offs: seq<nat>, at: nat, m: set<int>, p: int)
      requires Sound() && |offs| == |pool| && Laid(c, pool, offs, at, m) && p in m
      ensures From(p) <= m
      decreases rank[p]
    {
      Succ(p);
      assert PlacedAt(c, pool, offs, p);
      if pool[p].s.Jmp? {
        LaidClosed(c, offs, at, m, pool[p].jt);
        LaidClosed(c, offs, at, m, pool[p].jf);
      }
    }

    /** Lays out what p reaches and `placed` does not hold: false successor, true
        successor, then p itself in front of them. */
    method ConvertCodeR(p: int, ghost placed: set<int>) returns (ok: bool)
      requires Valid() && (p != NULL ==> 0 <= p < |pool|)
      requires placed <= marked && Laid(code[..], pool, offset, tail, placed)
      requires p != NULL ==> forall x | x in marked && x !in placed :: x in rank && rank[p] < rank[x]
      requires tail + Weight(placed, Sizes()) == code.Length
      requires Weight(placed + From(p), Sizes()) <= code.Length
      modifies this`marked, this`longjt, this`longjf, this`offset, this`tail, code
      ensures Valid()
      ensures ok ==> longjt == old(longjt) && longjf == old(longjf) && marked == old(marked) + From(p)
      ensures ok ==> Laid(code[..], pool, offset, tail, placed + From(p))
      ensures ok ==> tail + Weight(placed + From(p), Sizes()) == code.Length
      ensures ok && p != NULL && p !in old(marked) ==> offset[p] == tail
      ensures !ok ==> Flagged(pool, offset, old(longjt), old(longjf), longjt, longjf)
      decreases if p == NULL then 0 else 2 * rank[p] + 2
    {
      if p == NULL {
        assert placed + From(p) == placed && marked + From(p) == marked;
        return true;
      }
      if p in marked {
        LaidClosed(code[..], offset, tail, placed, p);
        assert placed + From(p) == placed && marked + From(p) == marked;
        return true;
      }
      ok := Convert(p, placed);
    }

    /** Block p, not yet visited, and all below it. */
    method Convert(p: nat, ghost placed: set<int>) returns (ok: bool)
      requires Valid() && p < |pool| && p !in marked
      requires placed <= marked && Laid(code[..], pool, offset, tail, placed)
      requires forall x | x in marked && x !in placed :: x in rank && rank[p] < rank[x]
      requires tail + Weight(placed, Sizes()) == code.Length
      requires Weight(placed + From(p), Sizes()) <= code.Length
      modifies this`marked, this`longjt, this`longjf, this`offset, this`tail, code
      ensures Valid()
      ensures ok ==> longjt == old(longjt) && longjf == old(longjf) && marked == old(marked) + From(p)
      ensures ok ==> Laid(code[..], pool, offset, tail, placed + From(p))
      ensures ok ==> tail + Weight(placed + From(p), Sizes()) == code.Length && offset[p] == tail
      ensures !ok ==> Flagged(pool, offset, old(longjt), old(longjf), longjt, longjf)
      decreases 2 * rank[p] + 1
    {
      Succ(p);
      ghost var jt, jf, size := pool[p].jt, pool[p].jf, Sizes();
      ghost var placed1 := placed + From(jf);
      ghost var placed2 := placed1 + From(jt);
      assert placed + From(p) == placed2 + {p} && p !in placed2;
      WeightMonotone(placed1, placed + From(p), size);
      WeightMonotone(placed2, placed + From(p), size);
      marked := marked + {p};
      ok := ConvertCodeR(pool[p].jf, placed);
      if !ok { return; }
      ok := ConvertCodeR(pool[p].jt, placed1);
      if !ok { return; }
      assert Sizes() == size;
      WeightAdd(placed2, size, p);
      assert marked == old(marked) + From(p);
      ok := Place(p, placed2);
    }

    method Place(p: nat, ghost m: set<int>) returns (ok: bool)
      requires |longjt| == |longjf| == |offset| == |pool| && p < |pool|
      requires |Live(pool[p].stmts)| + 1 + longjt[p] + longjf[p] <= tail <= code.Length
      requires Laid(code[..], pool, offset, tail, m) && p !in m
      requires pool[p].s.Jmp? ==> pool[p].jt in m && pool[p].jf in m
      modifies this`longjt, this`longjf, this`offset, this`tail, code
      ensures |longjt| == |longjf| == |offset| == |pool|
      ensures ok ==> longjt == old(longjt) && longjf == old(longjf)
      ensures ok ==> tail == old(tail) - (|Live(pool[p].stmts)| + 1 + longjt[p] + longjf[p])
      ensures ok ==> Laid(code[..], pool, offset, tail, m + {p}) && offset[p] == tail
      ensures !ok ==> Flagged(pool, offset, old(longjt), old(longjf), longjt, longjf)
    {
      ghost var was, offs, at := code[..], offset, tail;
      assert pool[p].s.Jmp? ==> PlacedAt(was, pool, offs, pool[p].jt) && PlacedAt(was, pool, offs, pool[p].jf);
      ok := Emit(p);
      if ok {
        LaidMore(was, code[..], pool, offs, at, tail, m, p);
      }
    }

    /** Lays out the graph below root, over and over until every branch fits. */
    method IcodeToFcode(root: nat) returns (ghost attempts: nat)
      requires Valid() && root < |pool|
      requires (forall i | 0 <= i < |longjt| :: longjt[i] == 0) && (forall i | 0 <= i < |longjf| :: longjf[i] == 0)
      modifies this
      ensures Valid() && fresh(code)
      ensures Laid(code[..], pool, offset, 0, From(root)) && offset[root] == 0 && root in From(root)
      ensures code.Length == Weight(From(root), Sizes())
      ensures attempts + Zeros(longjt) + Zeros(longjf) == 2 * |pool| + 1
    {
      attempts := 0;
      ZerosAll(longjt);
      ZerosAll(longjf);
      var done := false;
      while !done
        invariant Valid()
        invariant attempts + Zeros(longjt) + Zeros(longjf) == 2 * |pool| + if done then 1 else 0
        invariant done ==> fresh(code)
        invariant done ==> Laid(code[..], pool, offset, 0, From(root)) && offset[root] == 0
        invariant done ==> code.Length == Weight(From(root), Sizes())
        decreases Zeros(longjt) + Zeros(longjf), !done
      {
        ghost var lt, lf := longjt, longjf;
        WeightEmpty(Sizes());
        marked := {};
        var n := CountStmts(root);
        code := new Insn[n](_ => Plain(LdImm(0)));
        tail := n;
        marked := {};
        assert {} + From(root) == From(root);
        done := ConvertCodeR(root, {});
        attempts := attempts + 1;
        if done {
          WeightSame({} + From(root), From(root), Sizes());
        } else {
          FlaggedZeros(pool, offset, lt, lf, longjt, longjf);
        }
      }
    }

    /** Writes the branch of block p at dst, followed by the extra jumps it needs. */
    method EmitBranch(p: nat, c: Cond, dst: nat) returns (ok: bool)
      requires |longjt| == |longjf| == |offset| == |pool| && p < |pool| && pool[p].s == Jmp(c)
      requires dst + 1 + longjt[p] + longjf[p] <= code.Length && dst == offset[p] + |Live(pool[p].stmts)|
      requires 0 <= pool[p].jt < |pool| && dst < offset[pool[p].jt]
      requires 0 <= pool[p].jf < |pool| && dst < offset[pool[p].jf]
      modifies this`longjt, this`longjf, code
      ensures |longjt| == |longjf| == |pool|
      ensures forall i | 0 <= i < code.Length && !(dst <= i < dst + 1 + old(longjt[p] + longjf[p])) ::
        code[i] == old(code[i])
      ensures ok ==> longjt == old(longjt) && longjf == old(longjf) && BranchAt(code[..], pool, offset, p, dst)
      ensures !ok ==> Flagged(pool, offset, old(longjt), old(longjf), longjt, longjf)
    {
      var extra, jt, jf := 0, 0, 0;
      var off := offset[pool[p].jt] - dst - 1;
      if off >= 256 {
        if longjt[p] == 0 {
          longjt := longjt[p := 1];
          return false;
        }
        jt := extra;
        extra := extra + 1;
        code[dst + extra] := Ja(off - extra);
      } else {
        jt := off;
      }
      off := offset[pool[p].jf] - dst - 1;
      if off >= 256 {
        if longjf[p] == 0 {
          longjf := longjf[p := 1];
          return false;
        }
        jf := extra;
        extra := extra + 1;
        code[dst + extra] := Ja(off - extra);
      } else {
        jf := off;
      }
      code[dst] := Cj(c, jt, jf);
      ok := true;
    }
  }

  /** The blocks of m stand in the array from `tail` on, successors included. */
  ghost predicate Laid(code: seq<Insn>, pool: Pool, offset: seq<nat>, tail: nat, m: set<int>)
    requires |offset| == |pool|
  {
    && (forall b | b in m :: 0 <= b < |pool|)
    && forall b {:trigger PlacedAt(code, pool, offset, b)} | b in m ::
         && tail <= offset[b] && PlacedAt(code, pool, offset, b)
         && (pool[b].s.Jmp? ==> pool[b].jt in m && pool[b].jf in m)
  }

  /** Laying out one more block in front leaves the rest standing. */
  lemma LaidMore(code: seq<Insn>, code': seq<Insn>, pool: Pool, offset: seq<nat>, tail: nat, tail': nat, m: set<int>,
      p: nat)
    requires |offset| == |pool| && Laid(code, pool, offset, tail, m)
    requires |code'| == |code| && (forall i | tail <= i < |code| :: code'[i] == code[i]) && tail' <= tail
    requires p < |pool| && p !in m && PlacedAt(code', pool, offset[p := tail'], p)
    requires pool[p].s.Jmp? ==> pool[p].jt in m && pool[p].jf in m
    ensures Laid(code', pool, offset[p := tail'], tail', m + {p})
  {
    var offset' := offset[p := tail'];
    forall b | b in m
      ensures tail' <= offset'[b] && PlacedAt(code', pool, offset', b)
      ensures pool[b].s.Jmp? ==> pool[b].jt in m && pool[b].jf in m
    {
      assert PlacedAt(code, pool, offset, b);
    }
  }

  /** From the branch of block b, behind its statements, more than 255 instructions
      are to be skipped to come to block x. */
  ghost predicate Far(pool: Pool, offset: seq<nat>, b: int, x: int)
    requires |offset| == |pool|
  {
    0 <= b < |pool| && 0 <= x < |pool| && offset[x] - (offset[b] + |Live(pool[b].stmts)| + 1) > 255
  }

  /** Exactly one branch has been flagged for good, and it goes too far. */
  ghost predicate Flagged(pool: Pool, offset: seq<nat>, lt: seq<nat>, lf: seq<nat>, lt': seq<nat>, lf': seq<nat>) {
    |offset| == |pool| && exists b ::
      || (0 <= b < |lt| && b < |pool| && lt[b] == 0 && lt' == lt[b := 1] && lf' == lf
        && Far(pool, offset, b, pool[b].jt))
      || (0 <= b < |lf| && b < |pool| && lf[b] == 0 && lf' == lf[b := 1] && lt' == lt
        && Far(pool, offset, b, pool[b].jf))
  }

  function Zeros(s: seq<nat>): nat {
    if s == [] then 0 else (if s[0] == 0 then 1 else 0) + Zeros(s[1..])
  }

  lemma {:induction false} ZerosAll(s: seq<nat>)
    requires forall i | 0 <= i < |s| :: s[i] == 0
    ensures Zeros(s) == |s|
  {
    if s != [] {
      ZerosAll(s[1..]);
    }
  }

  lemma {:induction false} ZerosSet(s: seq<nat>, b: nat)
    requires b < |s| && s[b] == 0
    ensures Zeros(s[b := 1]) + 1 == Zeros(s)
  {
    if b == 0 {
      assert s[b := 1][1..] == s[1..];
    } else {
      assert s[b := 1][1..] == s[1..][b - 1 := 1];
      ZerosSet(s[1..], b - 1);
    }
  }

  lemma FlaggedZeros(pool: Pool, offset: seq<nat>, lt: seq<nat>, lf: seq<nat>, lt': seq<nat>, lf': seq<nat>)
    requires Flagged(pool, offset, lt, lf, lt', lf')
    ensures Zeros(lt') + Zeros(lf') + 1 == Zeros(lt) + Zeros(lf)
  {
    var b :| || (0 <= b < |lt| && lt[b] == 0 && lt' == lt[b := 1] && lf' == lf)
             || (0 <= b < |lf| && lf[b] == 0 && lf' == lf[b := 1] && lt' == lt);
    if 0 <= b < |lt| && lt[b] == 0 && lt' == lt[b := 1] {
      ZerosSet(lt, b);
    } else {
      ZerosSet(lf, b);
    }
  }

  /** A jump to pc arrives at t, at once or through an unconditional jump. */
  ghost predicate Arrives(code: seq<Insn>, pc: nat, t: nat) {
    pc == t || (pc < |code| && code[pc].Ja? && pc + 1 + code[pc].off == t)
  }

  /** The branch of block b stands at d and arrives at its successors. */
  ghost predicate BranchAt(code: seq<Insn>, pool: Pool, offset: seq<nat>, b: nat, d: nat)
    requires b < |pool| == |offset|
  {
    var n := pool[b];
    d < |code| &&
    match n.s
    case Ret(k) => code[d] == Return(k)
    case Jmp(c) =>
      && 0 <= n.jt < |pool| && 0 <= n.jf < |pool|
      && code[d].Cj? && code[d].cond == c
      && Arrives(code, d + 1 + code[d].jt, offset[n.jt])
      && Arrives(code, d + 1 + code[d].jf, offset[n.jf])
  }

  /** The code of block b stands at its offset: its statements, then its branch. */
  ghost predicate PlacedAt(code: seq<Insn>, pool: Pool, offset: seq<nat>, b: nat)
    requires b < |pool| == |offset|
  {
    var ss := Live(pool[b].stmts);
    && BranchAt(code, pool, offset, b, offset[b] + |ss|)
    && forall i | 0 <= i < |ss| :: code[offset[b] + i] == Plain(ss[i])
  }

  lemma ArrivesRun(code: seq<Insn>, pc: nat, t: nat, p: Packet, st: State)
    requires Arrives(code, pc, t)
    ensures Interp(code, pc, p, st) == Interp(code, t, p, st)
  {
  }

  /** What the code of one block does: its statements, then a jump to the code
      of the successor that its branch chooses. */
  lemma PlacedRun(code: seq<Insn>, pool: Pool, offset: seq<nat>, b: nat, p: Packet, st: State)
    requires b < |pool| == |offset| && PlacedAt(code, pool, offset, b)
    ensures Interp(code, offset[b], p, st) ==
      match ExecAll(pool[b].stmts, p, st)
      case None => Done(None)
      case Some(st') =>
        (match pool[b].s
         case Ret(k) => Done(Some(k))
         case Jmp(c) => Interp(code, offset[if Taken(c, st') then pool[b].jt else pool[b].jf], p, st'))
  {
    hide Exec, Holds;
    var n := pool[b];
    var d := offset[b] + |Live(n.stmts)|;
    StraightLine(code, offset[b], Live(n.stmts), p, st);
    LiveExec(n.stmts, p, st);
    if n.s.Jmp? && ExecAll(n.stmts, p, st).Some? {
      var st' := ExecAll(n.stmts, p, st).value;
      if Taken(n.s.cond, st') {
        ArrivesRun(code, d + 1 + code[d].jt, offset[n.jt], p, st');
      } else {
        ArrivesRun(code, d + 1 + code[d].jf, offset[n.jf], p, st');
      }
    }
  }

  /** Running the array from the offset of a block is running the graph from
      that block: no instruction falls off the end. */
  lemma {:induction false} LaidRun(code: seq<Insn>, pool: Pool, offset: seq<nat>, m: set<int>, r: map<int, nat>, b: int,
      p: Packet, st: State)
    requires |offset| == |pool| && Laid(code, pool, offset, 0, m) && b in m
    requires Ranked(GraphOf(pool), r) && LeavesEnd(pool)
    ensures Interp(code, offset[b], p, st) == Done(Run(GraphOf(pool), r, b, p, st))
    decreases r[b]
  {
    assert PlacedAt(code, pool, offset, b);
    PlacedRun(code, pool, offset, b, p, st);
    var n := pool[b];
    assert GraphOf(pool)[b] == NodeOf(n) && Falls(GraphOf(pool), r, b);
    if n.s.Jmp? && ExecAll(n.stmts, p, st).Some? {
      var st' := ExecAll(n.stmts, p, st).value;
      LaidRun(code, pool, offset, m, r, if Taken(n.s.cond, st') then n.jt else n.jf, p, st');
    }
  }
}
