/** The shared buffers of zero-copy BPF: the kernel and the reader hand two
    buffers back and forth by their generation numbers. */
module ZeroCopy {

  /** Generation numbers are 32-bit counters that wrap around. */
  type Gen = n: nat | n < 0x1_0000_0000

  function Bump(g: Gen): Gen {
    (g + 1) % 0x1_0000_0000
  }

  /** A shared buffer: the two generations, and the number of the fill that it
      holds or last held. */
  datatype Buf = Buf(kernelGen: Gen, userGen: Gen, fill: int)

  /** Whom the buffer belongs to: the kernel while the generations agree. */
  predicate Writable(b: Buf) {
    b.kernelGen == b.userGen
  }

  const NONE: int := -1

  /** `zbuffer` is the buffer that the reader selected last, or none; `held` says
      that it has not been acknowledged. The kernel fills the buffers in turn:
      `filled` fills are published, and `writing` is one in progress. `taken`
      lists the fills that the reader got. */
  datatype State = State(zbuf: seq<Buf>, zbuffer: int, held: bool, filled: nat, writing: bool, taken: seq<int>)

  // -------------------------------------------------------------- the steps

  datatype Step = Begin | Publish | Next | Ack

  /** The kernel starts to write into the buffer whose turn it is. */
  ghost predicate BeginStep(s: State, s': State) {
    var b := s.filled % 2;
    |s.zbuf| == 2 && !s.writing && Writable(s.zbuf[b])
    && s' == s.(zbuf := s.zbuf[b := s.zbuf[b].(fill := s.filled)], writing := true)
  }

  /** It hands the buffer over. */
  ghost predicate PublishStep(s: State, s': State) {
    var b := s.filled % 2;
    |s.zbuf| == 2 && s.writing
    && s' == s.(zbuf := s.zbuf[b := s.zbuf[b].(kernelGen := Bump(s.zbuf[b].kernelGen))], writing := false,
      filled := s.filled + 1)
  }

  /** pcap_next_zbuf_shm: the buffer after the last one, if it has been handed
      over. */
  function NextZbufShm(s: State): (State, bool)
    requires |s.zbuf| == 2
  {
    var b := if s.zbuffer == 1 || s.zbuffer == NONE then 0 else 1;
    if s.zbuf[b].userGen != s.zbuf[b].kernelGen then
      (s.(zbuffer := b, held := true, taken := s.taken + [s.zbuf[b].fill]), true)
    else (s, false)
  }

  /** pcap_ack_zbuf: the buffer goes back to the kernel. */
  function AckZbuf(s: State): State
    requires |s.zbuf| == 2 && 0 <= s.zbuffer < 2
  {
    s.(zbuf := s.zbuf[s.zbuffer := s.zbuf[s.zbuffer].(userGen := s.zbuf[s.zbuffer].kernelGen)], held := false)
  }

  /** The read loop asks for a buffer only when it holds none. */
  ghost predicate Moves(s: State, step: Step, s': State) {
    match step
    case Begin => BeginStep(s, s')
    case Publish => PublishStep(s, s')
    case Next => |s.zbuf| == 2 && !s.held && s' == NextZbufShm(s).0
    case Ack => |s.zbuf| == 2 && s.held && 0 <= s.zbuffer < 2 && s' == AckZbuf(s)
  }

  ghost predicate Initial(s: State) {
    && |s.zbuf| == 2 && Writable(s.zbuf[0]) && Writable(s.zbuf[1])
    && s.zbuffer == NONE && !s.held && s.filled == 0 && !s.writing && s.taken == []
  }

  // ---------------------------------------------------------- the invariant

  /** How many fills the reader has given back. */
  function Acked(s: State): int {
    |s.taken| - if s.held then 1 else 0
  }

  /** Some fill that is published and not given back has its turn in buffer b. */
  predicate Full(s: State, b: int) {
    var k := Acked(s);
    (k < s.filled && k % 2 == b) || (k + 1 < s.filled && (k + 1) % 2 == b)
  }

  /** Which one that is: the older of two that take turns. */
  function FillIn(s: State, b: int): int {
    if Acked(s) % 2 == b then Acked(s) else Acked(s) + 1
  }

  /** Buffer b does not belong to the kernel exactly if it is full. */
  ghost predicate BufInv(s: State, b: int)
    requires |s.zbuf| == 2 && 0 <= b < 2
  {
    && (Writable(s.zbuf[b]) <==> !Full(s, b))
    && (Full(s, b) ==> s.zbuf[b].fill == FillIn(s, b))
  }

  /** The fills that are published and not given back are at most two; the
      reader got every fill up to some number, in order. */
  ghost predicate Inv(s: State) {
    && |s.zbuf| == 2
    && (forall i | 0 <= i < |s.taken| :: s.taken[i] == i)
    && 0 <= Acked(s) <= |s.taken| <= s.filled <= Acked(s) + 2
    && s.zbuffer == (if s.taken == [] then NONE else (|s.taken| - 1) % 2)
    && (s.writing ==> s.filled < Acked(s) + 2 && s.zbuf[s.filled % 2].fill == s.filled)
    && BufInv(s, 0) && BufInv(s, 1)
  }

  lemma BumpDiffers(g: Gen)
    ensures Bump(g) != g
  {
  }

  lemma InitialInv(s: State)
    requires Initial(s)
    ensures Inv(s)
  {
  }

  lemma MovesInv(s: State, step: Step, s': State)
    requires Inv(s) && Moves(s, step, s')
    ensures Inv(s')
  {
    BumpDiffers(s.zbuf[0].kernelGen);
    BumpDiffers(s.zbuf[1].kernelGen);
  }

  // ------------------------------------------------------------------- runs

  ghost predicate MovesAt(states: seq<State>, steps: seq<Step>, i: int) {
    0 <= i < |steps| && |states| == |steps| + 1 && Moves(states[i], steps[i], states[i + 1])
  }

  /** A run: any steps of the kernel and of the reader, in any order. */
  ghost predicate IsRun(states: seq<State>, steps: seq<Step>) {
    && |states| == |steps| + 1 && Initial(states[0])
    && forall i {:trigger MovesAt(states, steps, i)} | 0 <= i < |steps| :: MovesAt(states, steps, i)
  }

  lemma {:induction false} RunInv(states: seq<State>, steps: seq<Step>, n: nat)
    requires IsRun(states, steps) && n < |states|
    ensures Inv(states[n])
  {
    if n == 0 {
      InitialInv(states[0]);
    } else {
      RunInv(states, steps, n - 1);
      assert MovesAt(states, steps, n - 1);
      MovesInv(states[n - 1], steps[n - 1], states[n]);
    }
  }

  /** In every state of every run: the reader got each published fill at most
      once and in order, with none left out; the buffer that it holds does not
      belong to the kernel, nor is it the one being written; and when a buffer
      is waiting, asking for one gets the next fill. */
  lemma HandoffSafe(states: seq<State>, steps: seq<Step>, n: nat)
    requires IsRun(states, steps) && n < |states|
    ensures var s := states[n];
      && |s.zbuf| == 2 && |s.taken| <= s.filled && (forall i | 0 <= i < |s.taken| :: s.taken[i] == i)
      && (s.held ==> 0 <= s.zbuffer < 2 && !Writable(s.zbuf[s.zbuffer]) && s.zbuf[s.zbuffer].fill == |s.taken| - 1)
      && (s.held && s.writing ==> s.filled % 2 != s.zbuffer)
      && (s.writing ==> Writable(s.zbuf[s.filled % 2]))
      && (!s.held && |s.taken| < s.filled ==> NextZbufShm(s).1 && NextZbufShm(s).0.taken == s.taken + [|s.taken|])
  {
    RunInv(states, steps, n);
  }

  // ------------------------------------------------------------ the reader

  /** The reader's side, on the memory that it shares with the kernel. */
  class Reader {
    var zbuf: array<Buf>
    var zbuffer: int
    var bzh: int
    ghost var filled: nat
    ghost var writing: bool
    ghost var taken: seq<int>

    ghost function Seen(): State
      reads this, zbuf
    {
      State(zbuf[..], zbuffer, bzh != NONE, filled, writing, taken)
    }

    constructor (zbuf: array<Buf>)
      requires zbuf.Length == 2 && Writable(zbuf[0]) && Writable(zbuf[1])
      ensures Initial(Seen()) && this.zbuf == zbuf
    {
      this.zbuf, zbuffer, bzh, filled, writing, taken := zbuf, NONE, NONE, 0, false, [];
    }

    /** The fill of the next buffer, if one is available. */
    method PcapNextZbufShm() returns (data: bool, fill: int)
      requires zbuf.Length == 2
      modifies this
      ensures zbuf == old(zbuf) && Seen() == NextZbufShm(old(Seen())).0 && data == NextZbufShm(old(Seen())).1
      ensures data ==> taken == old(taken) + [fill] && 0 <= bzh < 2 && bzh == zbuffer
    {
      if zbuffer == 1 || zbuffer == NONE {
        if zbuf[0].userGen != zbuf[0].kernelGen {
          bzh, zbuffer := 0, 0;
          taken := taken + [zbuf[0].fill];
          return true, zbuf[0].fill;
        }
      } else {
        if zbuf[1].userGen != zbuf[1].kernelGen {
          bzh, zbuffer := 1, 1;
          taken := taken + [zbuf[1].fill];
          return true, zbuf[1].fill;
        }
      }
      return false, 0;
    }

    method PcapAckZbuf()
      requires zbuf.Length == 2 && 0 <= bzh < 2 && bzh == zbuffer
      modifies this, zbuf
      ensures zbuf == old(zbuf) && Seen() == AckZbuf(old(Seen()))
    {
      zbuf[bzh] := zbuf[bzh].(userGen := zbuf[bzh].kernelGen);
      bzh := NONE;
    }
  }
}
