/** Reading packets from a BPF device: a buffer that the kernel has filled is
    walked packet by packet, over as many calls as it takes. */
module Capture {
  import opened Basics

  /** A packet in a buffer: the length of its header in the buffer, how much of
      it was captured, and what it is. */
  datatype Rec = Rec(hdrlen: nat, caplen: nat, id: int)

  /** What asking the kernel for data comes to. A buffer holds packets one after
      the other, each at a multiple of the alignment; cc is where it ends. */
  datatype Event =
    | Data(recs: seq<Rec>, cc: nat)
    | Interrupted
    | WouldBlock
    | Failed

  const PCAP_ERROR: int := -1
  const PCAP_ERROR_BREAK: int := -2

  // ------------------------------------------------------- a buffer's layout

  /** BPF_WORDALIGN: the multiple of a that is less than a above x. */
  function WordAlign(x: nat, a: nat): (y: nat)
    requires a > 0
    ensures y % a == 0 && x <= y < x + a
  {
    Multiple((x + a - 1) / a, a);
    (x + a - 1) / a * a
  }

  lemma TimesOf(x: int, a: nat) returns (q: int)
    requires a > 0 && x % a == 0
    ensures x == q * a
  {
    q := x / a;
  }

  lemma Distributes(q: int, k: int, a: int)
    ensures (q + k) * a == q * a + k * a && (q - k) * a == q * a - k * a
  {
  }

  lemma SumOfMultiples(x: int, y: int, a: nat)
    requires a > 0 && x % a == 0 && y % a == 0
    ensures (x + y) % a == 0 && (x - y) % a == 0
  {
    var q := TimesOf(x, a);
    var k := TimesOf(y, a);
    Distributes(q, k, a);
    Multiple(q + k, a);
    Multiple(q - k, a);
  }

  /** y is the least multiple of a at or after x. */
  ghost predicate LeastMultiple(x: nat, a: nat, y: nat)
    requires a > 0
  {
    x <= y && y % a == 0 && forall m: nat | m % a == 0 && x <= m :: y <= m
  }

  /** From a multiple, the length rounded up leads to the least multiple at or
      after the end. */
  lemma AlignedEnd(b: nat, x: nat, a: nat)
    requires a > 0 && b % a == 0
    ensures LeastMultiple(b + x, a, b + WordAlign(x, a))
  {
    var y := b + WordAlign(x, a);
    SumOfMultiples(b, WordAlign(x, a), a);
    forall m: nat | m % a == 0 && b + x <= m ensures y <= m {
      if m < y {
        SumOfMultiples(y, m, a);
        NoMultiple(y - m, a);
      }
    }
  }

  lemma NoMultiple(d: int, a: nat)
    requires 0 < d < a
    ensures d % a != 0
  {
  }

  function Size(r: Rec): nat {
    r.caplen + r.hdrlen
  }

  /** Where packet i starts; for i == |recs| where one more would. */
  function Start(recs: seq<Rec>, a: nat, i: nat): nat
    requires a > 0 && i <= |recs|
  {
    if i == 0 then 0 else Start(recs, a, i - 1) + WordAlign(Size(recs[i - 1]), a)
  }

  /** Every packet starts at a multiple of the alignment. */
  lemma {:induction false} StartAligned(recs: seq<Rec>, a: nat, i: nat)
    requires a > 0 && i <= |recs|
    ensures Start(recs, a, i) % a == 0
  {
    if i > 0 {
      StartAligned(recs, a, i - 1);
      SumOfMultiples(Start(recs, a, i - 1), WordAlign(Size(recs[i - 1]), a), a);
    } else {
      Multiple(0, a);
    }
  }

  /** The end need not be aligned: it is at or after the last byte of the last
      packet, and not after its padding. */
  ghost predicate Filled(recs: seq<Rec>, a: nat, cc: nat) {
    && a > 0 && (forall r | r in recs :: r.hdrlen > 0)
    && if recs == [] then cc == 0 else
       Start(recs, a, |recs| - 1) + Size(recs[|recs| - 1]) <= cc <= Start(recs, a, |recs|)
  }

  lemma {:induction false} StartsRise(recs: seq<Rec>, a: nat, i: nat, j: nat)
    requires a > 0 && i <= j <= |recs| && forall r | r in recs :: r.hdrlen > 0
    ensures Start(recs, a, i) <= Start(recs, a, j) && (i < j ==> Start(recs, a, i) < Start(recs, a, j))
  {
    if i < j {
      assert recs[j - 1] in recs;
      StartsRise(recs, a, i, j - 1);
    }
  }

  /** Before the end there is a packet, and after the last there is none. */
  lemma BeforeEnd(recs: seq<Rec>, a: nat, cc: nat, i: nat)
    requires Filled(recs, a, cc) && i <= |recs|
    ensures Start(recs, a, i) < cc <==> i < |recs|
  {
    if recs != [] {
      var n := |recs| - 1;
      assert recs[n] in recs;
      if i < |recs| {
        StartsRise(recs, a, i, n);
      }
    }
  }

  lemma StartsDiffer(recs: seq<Rec>, a: nat)
    requires a > 0 && forall r | r in recs :: r.hdrlen > 0
    ensures forall i, j | 0 <= i < |recs| && 0 <= j < |recs| && Start(recs, a, i) == Start(recs, a, j) :: i == j
  {
    forall i, j | 0 <= i < |recs| && 0 <= j < |recs| && Start(recs, a, i) == Start(recs, a, j) ensures i == j {
      if i < j {
        StartsRise(recs, a, i, j);
      } else if j < i {
        StartsRise(recs, a, j, i);
      }
    }
  }

  /** What a packet pointer finds at position bp of the buffer. */
  function At(recs: seq<Rec>, a: nat, bp: nat): Rec
    requires a > 0 && (forall r | r in recs :: r.hdrlen > 0) && exists i :: 0 <= i < |recs| && Start(recs, a, i) == bp
  {
    StartsDiffer(recs, a);
    var i :| 0 <= i < |recs| && Start(recs, a, i) == bp;
    recs[i]
  }

  lemma AtStart(recs: seq<Rec>, a: nat, i: nat)
    requires a > 0 && (forall r | r in recs :: r.hdrlen > 0) && i < |recs|
    ensures At(recs, a, Start(recs, a, i)) == recs[i]
  {
    StartsDiffer(recs, a);
  }

  // ------------------------------------------------------------ conservation

  function Kept(recs: seq<Rec>, passes: Rec -> bool): seq<Rec> {
    if recs == [] then [] else (if passes(recs[0]) then [recs[0]] else []) + Kept(recs[1..], passes)
  }

  lemma {:induction false} KeptConcat(x: seq<Rec>, y: seq<Rec>, passes: Rec -> bool)
    ensures Kept(x + y, passes) == Kept(x, passes) + Kept(y, passes)
  {
    if x == [] {
      assert x + y == y;
    } else {
      var head := if passes(x[0]) then [x[0]] else [];
      assert (x + y)[1..] == x[1..] + y && (x + y)[0] == x[0];
      KeptConcat(x[1..], y, passes);
      assert Kept(x + y, passes) == head + Kept(x[1..] + y, passes) && Kept(x, passes) == head + Kept(x[1..], passes);
      hide Kept;
      Regroup(head, Kept(x[1..], passes), Kept(y, passes));
    }
  }

  lemma KeptNext(recs: seq<Rec>, i: nat, passes: Rec -> bool)
    requires i < |recs|
    ensures Kept(recs[i..], passes) == (if passes(recs[i]) then [recs[i]] else []) + Kept(recs[i + 1..], passes)
  {
    assert recs[i..][1..] == recs[i + 1..];
  }

  /** The packets that the answers brought, in order. */
  function Arrivals(es: seq<Event>): seq<Rec> {
    if es == [] then [] else Arrivals(es[..|es| - 1]) + if es[|es| - 1].Data? then es[|es| - 1].recs else []
  }

  lemma ArrivalsNext(es: seq<Event>, i: nat)
    requires i < |es|
    ensures Arrivals(es[..i + 1]) == Arrivals(es[..i]) + if es[i].Data? then es[i].recs else []
  {
    assert es[..i + 1][..i] == es[..i];
  }

  /** Of the packets of the answers es, those of the buffer came last; what the
      callback got and what it will get of the rest of the buffer are all that
      pass, in order. */
  ghost predicate Conserved(es: seq<Event>, arrived: seq<Rec>, buffer: seq<Rec>, walked: nat, delivered: seq<Rec>,
      passes: Rec -> bool) {
    && walked <= |buffer| <= |arrived| && arrived == Arrivals(es) && arrived[|arrived| - |buffer|..] == buffer
    && delivered + Kept(buffer[walked..], passes) == Kept(arrived, passes)
  }

  lemma ConservedStep(es: seq<Event>, arrived: seq<Rec>, buffer: seq<Rec>, walked: nat, delivered: seq<Rec>,
      passes: Rec -> bool)
    requires Conserved(es, arrived, buffer, walked, delivered, passes) && walked < |buffer|
    ensures Conserved(es, arrived, buffer, walked + 1, if passes(buffer[walked]) then delivered + [buffer[walked]]
      else delivered, passes)
  {
    hide Kept, Arrivals;
    KeptNext(buffer, walked, passes);
  }

  lemma ConservedNext(es: seq<Event>, i: nat, arrived: seq<Rec>, buffer: seq<Rec>, delivered: seq<Rec>,
      passes: Rec -> bool)
    requires i < |es| && Conserved(es[..i], arrived, buffer, |buffer|, delivered, passes)
    ensures delivered == Kept(arrived, passes)
    ensures es[i].Data? ==> Conserved(es[..i + 1], arrived + es[i].recs, es[i].recs, 0, delivered, passes)
    ensures !es[i].Data? ==> Conserved(es[..i + 1], arrived, buffer, |buffer|, delivered, passes)
  {
    ArrivalsNext(es, i);
    assert buffer[|buffer|..] == [] && Kept([], passes) == [];
    hide Kept, Arrivals;
    if es[i].Data? {
      var recs := es[i].recs;
      KeptConcat(arrived, recs, passes);
      assert recs[0..] == recs && (arrived + recs)[|arrived|..] == recs;
    }
  }

  lemma DeliveredFirst(es: seq<Event>, arrived: seq<Rec>, buffer: seq<Rec>, walked: nat, delivered: seq<Rec>,
      passes: Rec -> bool)
    requires Conserved(es, arrived, buffer, walked, delivered, passes)
    ensures var n := |arrived| - (|buffer| - walked);
      0 <= n <= |arrived| && delivered == Kept(arrived[..n], passes) && arrived[n..] == buffer[walked..]
        && arrived == Arrivals(es)
    ensures walked == |buffer| ==> delivered == Kept(arrived, passes)
  {
    hide Arrivals;
    var n := |arrived| - (|buffer| - walked);
    var front, rest := arrived[..n], buffer[walked..];
    assert arrived[n..] == arrived[|arrived| - |buffer|..][walked..] == rest;
    assert arrived == front + rest;
    assert walked == |buffer| ==> front == arrived;
    KeptConcat(front, rest, passes);
    Cancel(delivered, Kept(front, passes), Kept(rest, passes));
  }

  lemma Cancel(a: seq<Rec>, b: seq<Rec>, c: seq<Rec>)
    requires a + c == b + c
    ensures a == b
  {
    assert |a| == |b|;
    assert a == (a + c)[..|a|] && b == (b + c)[..|b|];
  }

  /** An answer after which the call asks again. */
  predicate AsksAgain(e: Event, zerocopy: bool) {
    e.Interrupted? || (e.WouldBlock? && zerocopy)
  }

  /** What calls with these results have delivered. */
  function Total(ns: seq<int>): nat {
    if ns == [] then 0 else Total(ns[..|ns| - 1]) + if ns[|ns| - 1] > 0 then ns[|ns| - 1] else 0
  }

  lemma TotalNext(ns: seq<int>, n: int)
    ensures Total(ns + [n]) == Total(ns) + if n > 0 then n else 0
  {
    assert (ns + [n])[..|ns|] == ns;
  }

  lemma FirstStart(recs: seq<Rec>, a: nat, cc: nat)
    requires Filled(recs, a, cc)
    ensures Start(recs, a, 0) == 0 && (recs == [] <==> cc == 0)
  {
    BeforeEnd(recs, a, cc, 0);
  }

  class Handle {
    const alignment: nat
    const passes: Rec -> bool
    const zerocopy: bool
    const events: seq<Event>
    const signals: nat -> bool
    var asked: nat
    var checks: nat
    var buffer: seq<Rec>
    var held: bool
    var bp: nat
    var cc: nat
    var breakLoop: bool
    var delivered: seq<Rec>
    ghost var arrived: seq<Rec>
    ghost var taken: nat
    ghost var acked: nat
    ghost var walked: nat

    /** Since check number `from`, when the flag was `was`: a call of
        pcap_breakloop is seen at the first check after it, which is the last; a
        break before the first packet is reported, a later one is left for the
        next call. The code for a break is -2. */
    ghost predicate Heeds(from: nat, was: bool, n: int)
      reads `checks, `breakLoop
    {
      var seen := checks > from && (was || signals(checks - 1));
      && from <= checks && (forall t | from <= t < checks - 1 :: !signals(t)) && (checks > from + 1 ==> !was)
      && (if seen then (n == -2 && !breakLoop) || (n > 0 && breakLoop) else n != -2 && breakLoop == was)
    }

    /** There was no break from check `from` up to check `mid`. */
    ghost predicate Quiet(from: nat, was: bool, mid: nat) {
      from <= mid && (mid > from ==> !was) && forall t | from <= t < mid :: !signals(t)
    }

    lemma QuietHeeds(from: nat, was: bool, mid: nat, n: int)
      requires Quiet(from, was, mid) && Heeds(mid, was, n)
      ensures Heeds(from, was, n) && checks >= mid
    {
    }

    lemma BreakHeeds(from: nat, was: bool)
      requires checks > 0 && Quiet(from, was, checks - 1) && (was || signals(checks - 1)) && !breakLoop
      ensures Heeds(from, was, -2) && checks > from
    {
    }

    lemma NoneHeeds(from: nat, was: bool, n: int)
      requires checks > 0 && Quiet(from, was, checks - 1) && !was && !signals(checks - 1) && !breakLoop && n != -2
      ensures Heeds(from, was, n) && Quiet(from, was, checks) && !signals(from) && checks > from
    {
    }

    lemma QuietHere(from: nat, was: bool)
      ensures Quiet(from, was, from)
    {
    }

    /** `asked` answers of the kernel have been taken. `walked` packets of the
        buffer have been walked; what the callback got and what it will get of
        the rest are all the packets of those answers that pass the filter, in
        order. A zero-copy buffer is held while there is anything left in it. */
    ghost predicate Valid()
      reads this
    {
      && alignment > 0 && asked <= |events| && Conserved(events[..asked], arrived, buffer, walked, delivered, passes)
      && (forall e | e in events && e.Data? :: Filled(e.recs, alignment, e.cc))
      && (forall r | r in buffer :: r.hdrlen > 0) && walked <= |buffer|
      && (if walked == |buffer| then cc == 0 else
           Start(buffer, alignment, walked) == bp && Filled(buffer, alignment, bp + cc))
      && (walked < |buffer| && zerocopy ==> held)
      && acked + (if held then 1 else 0) == taken && (held ==> zerocopy)
    }

    constructor (alignment: nat, passes: Rec -> bool, zerocopy: bool, events: seq<Event>, signals: nat -> bool)
      requires alignment > 0 && forall e | e in events && e.Data? :: Filled(e.recs, alignment, e.cc)
      ensures Valid() && delivered == [] && arrived == [] && this.events == events && asked == 0
      ensures this.alignment == alignment && this.passes == passes && this.zerocopy == zerocopy
      ensures this.signals == signals && checks == 0 && !breakLoop && buffer == [] && cc == 0 && !held
    {
      this.alignment, this.passes, this.zerocopy, this.events, this.signals := alignment, passes, zerocopy, events,
        signals;
      checks, asked, buffer, held, bp, cc, breakLoop, delivered := 0, 0, [], false, 0, 0, false, [];
      arrived, taken, acked, walked := [], 0, 0, 0;
    }

    /** pcap_breakloop may have been called before any check. */
    method Signalled()
      requires Valid()
      modifies `breakLoop, `checks
      ensures Valid() && checks == old(checks) + 1 && (breakLoop <==> old(breakLoop) || signals(old(checks)))
    {
      if signals(checks) {
        breakLoop := true;
      }
      checks := checks + 1;
    }

    method Clear()
      requires Valid()
      modifies `breakLoop
      ensures Valid() && !breakLoop
    {
      breakLoop := false;
    }

    /** The next buffer, or why there is none. A zero-copy buffer goes back to
        the kernel first, which happens only when nothing is left in it. */
    method Refill() returns (e: Event)
      requires Valid() && cc == 0
      modifies `asked, `buffer, `held, `bp, `cc, `arrived, `taken, `acked, `walked
      ensures Valid() && asked == (if old(asked) < |events| then old(asked) + 1 else old(asked))
      ensures e == if old(asked) < |events| then events[old(asked)] else WouldBlock
      ensures acked == old(acked) + (if old(held) then 1 else 0) && (held <==> zerocopy && e.Data?)
      ensures if e.Data? then arrived == old(arrived) + e.recs && buffer == e.recs && walked == 0 && bp == 0
        && cc == e.cc
              else arrived == old(arrived) && buffer == old(buffer) && walked == old(walked) && cc == 0
    {
      Drained();
      if zerocopy && held {
        Ack();
      }
      if asked == |events| {
        return WouldBlock;
      }
      e := events[asked];
      if e.Data? {
        Load();
      } else {
        ConservedNext(events, asked, arrived, buffer, delivered, passes);
        asked := asked + 1;
      }
    }

    method Ack()
      requires Valid() && held && walked == |buffer|
      modifies `held, `acked
      ensures Valid() && !held && acked == old(acked) + 1
    {
      held := false;
      acked := acked + 1;
    }

    /** The next answer is a buffer. */
    method Load()
      requires Valid() && !(zerocopy && held) && walked == |buffer| && asked < |events| && events[asked].Data?
      modifies `asked, `buffer, `held, `bp, `cc, `arrived, `taken, `walked
      ensures Valid() && asked == old(asked) + 1 && (held <==> zerocopy)
      ensures var e := events[old(asked)];
        arrived == old(arrived) + e.recs && buffer == e.recs && walked == 0 && bp == 0 && cc == e.cc
    {
      hide WordAlign, Start, Conserved;
      var recs, end := events[asked].recs, events[asked].cc;
      assert events[asked] in events && Filled(recs, alignment, end);
      FirstStart(recs, alignment, end);
      ConservedNext(events, asked, arrived, buffer, delivered, passes);
      asked, buffer, bp, cc := asked + 1, recs, 0, end;
      arrived, walked := arrived + recs, 0;
      if zerocopy {
        held := true;
        taken := taken + 1;
      }
    }

    lemma Drained()
      requires Valid() && cc == 0
      ensures walked == |buffer|
    {
      if walked < |buffer| {
        BeforeEnd(buffer, alignment, bp + cc, walked);
      }
    }

    /** The walk has come to position b of a buffer that ends at ep. */
    ghost predicate Walking(b: nat, ep: nat)
      reads this
    {
      && alignment > 0 && asked <= |events| && Conserved(events[..asked], arrived, buffer, walked, delivered, passes)
      && (forall e | e in events && e.Data? :: Filled(e.recs, alignment, e.cc))
      && Filled(buffer, alignment, ep) && walked <= |buffer| && b == Start(buffer, alignment, walked)
      && (walked < |buffer| && zerocopy ==> held)
      && acked + (if held then 1 else 0) == taken && (held ==> zerocopy)
    }

    /** Where a call that stops leaves off. What is past the end counts as the
        end: the last packet may lack its padding. */
    method Stop(b: nat, ep: nat)
      requires Walking(b, ep)
      modifies `bp, `cc
      ensures Valid()
    {
      hide WordAlign, Kept;
      BeforeEnd(buffer, alignment, ep, walked);
      bp := b;
      cc := if ep - b < 0 then 0 else ep - b;
    }

    lemma StepReady(b: nat, ep: nat)
      requires Walking(b, ep) && b < ep
      ensures walked < |buffer| && At(buffer, alignment, b) == buffer[walked]
      ensures Start(buffer, alignment, walked + 1) == b + WordAlign(Size(buffer[walked]), alignment)
      ensures b % alignment == 0
      ensures LeastMultiple(b + buffer[walked].hdrlen + buffer[walked].caplen, alignment,
        b + WordAlign(Size(buffer[walked]), alignment))
      ensures Conserved(events[..asked], arrived, buffer, walked + 1,
                if passes(buffer[walked]) then delivered + [buffer[walked]] else delivered, passes)
    {
      hide WordAlign, Conserved, At;
      BeforeEnd(buffer, alignment, ep, walked);
      AtStart(buffer, alignment, walked);
      StartAligned(buffer, alignment, walked);
      AlignedEnd(b, Size(buffer[walked]), alignment);
      ConservedStep(events[..asked], arrived, buffer, walked, delivered, passes);
    }

    /** The packet at b, to the callback if it passes the filter; the next is
        looked for at the least multiple of the alignment after its end. */
    method Step(b: nat, ep: nat) returns (b': nat, passed: bool)
      requires Walking(b, ep) && b < ep
      modifies `delivered, `walked
      ensures Walking(b', ep) && walked == old(walked) + 1 && walked <= |buffer|
      ensures b % alignment == 0
      ensures var r := buffer[old(walked)]; LeastMultiple(b + r.hdrlen + r.caplen, alignment, b')
      ensures passed ==> exists r :: delivered == old(delivered) + [r]
      ensures !passed ==> delivered == old(delivered)
    {
      hide WordAlign, Conserved, At, Kept, Arrivals, LeastMultiple;
      StepReady(b, ep);
      var r := At(buffer, alignment, b);
      passed := passes(r);
      if passed {
        delivered := delivered + [r];
      }
      b' := b + WordAlign(Size(r), alignment);
      walked := walked + 1;
    }

    /** The packet loop: up to cnt packets, or all of them if cnt is not
        positive, with a check before each. */
    method Walk(cnt: int, start: nat, ep: nat) returns (n: int)
      requires Walking(start, ep)
      modifies `bp, `cc, `breakLoop, `checks, `delivered, `walked
      ensures Valid() && old(delivered) <= delivered && Heeds(old(checks), old(breakLoop), n)
      ensures n >= 0 ==> |delivered| == |old(delivered)| + n && (cnt > 0 ==> n <= cnt)
      ensures n < 0 ==> n == -2 && delivered == old(delivered)
      ensures 0 <= n && (cnt <= 0 || n < cnt) ==> cc == 0 || breakLoop
      ensures walked - old(walked) <= checks - old(checks)
    {
      hide Filled, WordAlign, Kept, Start, At, Conserved, LeastMultiple;
      n := 0;
      var b: nat := start;
      while b < ep
        invariant Walking(b, ep) && old(delivered) <= delivered && n >= 0 && |delivered| == |old(delivered)| + n
        invariant cnt > 0 ==> n < cnt
        invariant checks - old(checks) == walked - old(walked) >= 0 && breakLoop == old(breakLoop)
        invariant checks > old(checks) ==> !breakLoop
        invariant forall t | old(checks) <= t < checks :: !signals(t)
        decreases |buffer| - walked
      {
        Look(b, ep);
        if breakLoop {
          Stop(b, ep);
          if n == 0 {
            breakLoop := false;
            return PCAP_ERROR_BREAK;
          }
          return n;
        }
        var passed;
        b, passed := Step(b, ep);
        if passed {
          n := n + 1;
          if n >= cnt && cnt > 0 {
            Stop(b, ep);
            return n;
          }
        }
      }
      End(b, ep);
    }

    /** The check of the packet loop. */
    method Look(b: nat, ep: nat)
      requires Walking(b, ep)
      modifies `breakLoop, `checks
      ensures Walking(b, ep)
      ensures checks == old(checks) + 1 && (breakLoop <==> old(breakLoop) || signals(old(checks)))
    {
      if signals(checks) {
        breakLoop := true;
      }
      checks := checks + 1;
    }

    method End(b: nat, ep: nat)
      requires Walking(b, ep) && b >= ep
      modifies `cc
      ensures Valid() && cc == 0
    {
      hide WordAlign, Kept;
      BeforeEnd(buffer, alignment, ep, walked);
      cc := 0;
    }

    /** The loop over what is in the buffer. */
    method WalkOn(cnt: int) returns (n: int)
      requires Valid() && (cc > 0 || (bp == 0 && walked == 0))
      modifies `bp, `cc, `breakLoop, `checks, `delivered, `walked
      ensures Valid() && old(delivered) <= delivered && Heeds(old(checks), old(breakLoop), n)
      ensures n >= 0 ==> |delivered| == |old(delivered)| + n && (cnt > 0 ==> n <= cnt)
      ensures n < 0 ==> n == -2 && delivered == old(delivered)
      ensures 0 <= n && (cnt <= 0 || n < cnt) ==> cc == 0 || breakLoop
    {
      hide WordAlign, Kept, At;
      n := Walk(cnt, bp, bp + cc);
    }

    /** pcap_read_bpf: n packets to the callback, or an error code; or the call
        is still waiting for the kernel when the events run out. Fewer packets
        than asked for mean that the buffer is empty or that a break is due. */
    method Read(cnt: int) returns (n: int, waiting: bool)
      requires Valid()
      modifies this
      ensures Valid() && old(delivered) <= delivered
      ensures n >= 0 ==> |delivered| == |old(delivered)| + n && (cnt > 0 ==> n <= cnt)
      ensures n < 0 ==> (n == -2 || n == -1) && delivered == old(delivered)
      ensures Heeds(old(checks), old(breakLoop), n) && checks > old(checks)
      ensures old(breakLoop) || signals(old(checks)) ==> n == -2 && arrived == old(arrived)
      ensures 0 <= n && !waiting && (cnt <= 0 || n < cnt) ==> cc == 0 || breakLoop
      ensures old(asked) <= asked <= |events|
      ensures old(cc) > 0 ==> asked == old(asked)
      ensures forall i | old(asked) <= i < asked - 1 :: AsksAgain(events[i], zerocopy)
      ensures n != -2 && !waiting && asked > old(asked) ==> !AsksAgain(events[asked - 1], zerocopy)
      ensures waiting ==> n == 0 && cc == 0 && asked == |events|
      ensures n == -1 ==> 0 < asked <= |events| && events[asked - 1] == Failed
      ensures old(cc) == 0 && n != -2 ==> waiting || asked > old(asked)
    {
      hide Valid, Heeds, Quiet;
      waiting := false;
      QuietHere(checks, breakLoop);
      while true
        invariant Valid() && delivered == old(delivered)
        invariant Quiet(old(checks), old(breakLoop), checks) && breakLoop == old(breakLoop)
        invariant checks == old(checks) ==> asked == old(asked) && arrived == old(arrived)
        invariant asked >= old(asked) && (asked == old(asked) ==> cc == old(cc))
          && (asked > old(asked) ==> old(cc) == 0 && cc == 0)
        invariant forall i | old(asked) <= i < asked :: 0 <= i < |events| && AsksAgain(events[i], zerocopy)
        decreases |events| - asked
      {
        Signalled();
        if breakLoop {
          Clear();
          BreakHeeds(old(checks), old(breakLoop));
          return PCAP_ERROR_BREAK, false;
        }
        NoneHeeds(old(checks), old(breakLoop), 0);
        ghost var now := checks;
        if cc == 0 {
          if asked == |events| {
            return 0, true;
          }
          var e := Refill();
          match e
          case Data(_, _) =>
            n := WalkOn(cnt);
            QuietHeeds(old(checks), old(breakLoop), now, n);
            return;
          case Interrupted =>
          case WouldBlock =>
            if !zerocopy {
              return 0, false;
            }
          case Failed =>
            NoneHeeds(old(checks), old(breakLoop), -1);
            return PCAP_ERROR, false;
        } else {
          n := WalkOn(cnt);
          QuietHeeds(old(checks), old(breakLoop), now, n);
          return;
        }
      }
    }

    /** Any number of calls, with any counts: the callback got the packets that
        arrived and pass, in order and each once, up to some packet; those from
        there on are in the buffer. The calls say how many they delivered. */
    method Calls(counts: seq<int>) returns (ns: seq<int>)
      requires Valid()
      modifies this
      ensures Valid() && old(delivered) <= delivered && old(asked) <= asked <= |events|
      ensures |ns| == |counts| && |delivered| == |old(delivered)| + Total(ns) && checks >= old(checks) + |counts|
      ensures forall i | 0 <= i < |ns| :: counts[i] > 0 ==> ns[i] <= counts[i]
      ensures var all := Arrivals(events[..asked]);
        var n := |all| - (|buffer| - walked);
        0 <= n <= |all| && delivered == Kept(all[..n], passes) && all[n..] == buffer[walked..]
      ensures cc == 0 ==> delivered == Kept(Arrivals(events[..asked]), passes)
    {
      hide Conserved, Kept, Arrivals, Heeds, Filled, Start;
      ns := [];
      var k := 0;
      while k < |counts|
        invariant 0 <= k <= |counts| && Valid() && old(delivered) <= delivered && old(asked) <= asked <= |events|
        invariant |ns| == k && |delivered| == |old(delivered)| + Total(ns) && checks >= old(checks) + k
        invariant forall i | 0 <= i < |ns| :: counts[i] > 0 ==> ns[i] <= counts[i]
      {
        var n, waiting := Read(counts[k]);
        TotalNext(ns, n);
        ns := ns + [n];
        k := k + 1;
      }
      if cc == 0 {
        Drained();
      }
      DeliveredFirst(events[..asked], arrived, buffer, walked, delivered, passes);
    }
  }
}
