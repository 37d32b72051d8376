/** The flat form of a filter: an array of instructions whose conditional
    branches have 8-bit forward offsets, and the interpreter that runs it. */
module Insns {
  import opened Basics
  import opened Bpf

  type U8 = n: nat | n < 256

  datatype Insn =
    | Plain(s: Stmt)
    | Cj(cond: Cond, jt: U8, jf: U8)
    | Ja(off: nat)
    | Return(v: Word)

  /** A run returns a value, or None when the packet is rejected on the spot;
      Fell is a run that left the array. */
  datatype Ran = Fell | Done(value: Option<Word>)

  function Interp(code: seq<Insn>, pc: nat, p: Packet, st: State): Ran
    decreases |code| - pc
  {
    if pc >= |code| then Fell else
    match code[pc]
    case Return(v) => Done(Some(v))
    case Ja(off) => Interp(code, pc + 1 + off, p, st)
    case Cj(c, jt, jf) => Interp(code, pc + 1 + if Taken(c, st) then jt else jf, p, st)
    case Plain(s) =>
      match Exec(s, p, st)
      case None => Done(None)
      case Some(st') => Interp(code, pc + 1, p, st')
  }

  /** The statements that are left of a list once the deleted ones are dropped. */
  function Live(ss: seq<Stmt>): (r: seq<Stmt>)
    ensures |r| <= |ss| && forall s | s in r :: s != Nop
  {
    if ss == [] then [] else if ss[0] == Nop then Live(ss[1..]) else [ss[0]] + Live(ss[1..])
  }

  lemma {:induction false} LiveExec(ss: seq<Stmt>, p: Packet, st: State)
    ensures ExecAll(Live(ss), p, st) == ExecAll(ss, p, st)
  {
    if ss != [] {
      match Exec(ss[0], p, st)
      case None =>
      case Some(st') => LiveExec(ss[1..], p, st');
    }
  }

  lemma {:induction false} LiveConcat(a: seq<Stmt>, b: seq<Stmt>)
    ensures Live(a + b) == Live(a) + Live(b)
  {
    if a == [] {
      assert a + b == b;
    } else {
      assert (a + b)[1..] == a[1..] + b;
      LiveConcat(a[1..], b);
    }
  }

  /** Straight-line code runs as the list of its statements. */
  lemma {:induction false} StraightLine(code: seq<Insn>, pc: nat, ss: seq<Stmt>, p: Packet, st: State)
    requires pc + |ss| <= |code|
    requires forall i | 0 <= i < |ss| :: code[pc + i] == Plain(ss[i])
    ensures Interp(code, pc, p, st) ==
            match ExecAll(ss, p, st) { case None => Done(None) case Some(st') => Interp(code, pc + |ss|, p, st') }
    decreases ss
  {
    if ss != [] {
      assert code[pc + 0] == Plain(ss[0]);
      match Exec(ss[0], p, st)
      case None =>
      case Some(st') =>
        forall i | 0 <= i < |ss[1..]| ensures code[pc + 1 + i] == Plain(ss[1..][i]) {
          assert code[pc + (i + 1)] == Plain(ss[i + 1]);
        }
        StraightLine(code, pc + 1, ss[1..], p, st');
    }
  }
}
