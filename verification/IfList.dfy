/** The list of capture devices: kept in order of merit as devices are found. */
module IfList {
  import opened Basics

  /** A device of the list, with its addresses. */
  datatype Dev = Dev(name: string, loopback: bool, up: bool, running: bool, addresses: seq<int>)

  // ---------------------------------------------------------- figure of merit

  predicate IsDigit(c: char) {
    '0' <= c <= '9'
  }

  /** atoi: the number at the front of a string; no more than 32 bits are kept. */
  function Atoi(s: string, n: nat): nat {
    if s == [] || !IsDigit(s[0]) then n else Atoi(s[1..], (10 * n + (s[0] as int - '0' as int)) % 0x1_0000_0000)
  }

  /** How far back the digits go that stand before position i. */
  function Back(name: string, i: nat): (j: nat)
    requires i < |name|
    ensures j <= i && (forall k | j <= k < i :: IsDigit(name[k])) && (j > 0 ==> !IsDigit(name[j - 1]))
  {
    if i > 0 && IsDigit(name[i - 1]) then Back(name, i - 1) else i
  }

  /** The unit number: the digits at the end of the name, not counting its last
      character, which need not be a digit. */
  function Unit(name: string): nat {
    if name == [] then 0 else
    var i := Back(name, |name| - 1);
    if IsDigit(name[i]) then Atoi(name[i..], 0) else 0
  }

  /** What a character counts for in a decimal number. */
  function Figure(c: char): Option<nat> {
    match c
    case '0' => Some(0)
    case '1' => Some(1)
    case '2' => Some(2)
    case '3' => Some(3)
    case '4' => Some(4)
    case '5' => Some(5)
    case '6' => Some(6)
    case '7' => Some(7)
    case '8' => Some(8)
    case '9' => Some(9)
    case _ => None
  }

  predicate Numeral(s: string) {
    forall i | 0 <= i < |s| :: Figure(s[i]).Some?
  }

  /** The number that a numeral stands for. */
  function Decimal(s: string): nat
    requires Numeral(s)
  {
    if s == [] then 0 else 10 * Decimal(s[..|s| - 1]) + Figure(s[|s| - 1]).value
  }

  lemma DigitFigure(c: char)
    ensures IsDigit(c) <==> Figure(c).Some?
    ensures IsDigit(c) ==> Figure(c) == Some(c as int - '0' as int)
  {
  }

  lemma FigureMore(n: nat, d: nat)
    ensures (10 * (n % 0x1_0000_0000) + d) % 0x1_0000_0000 == (10 * n + d) % 0x1_0000_0000
  {
    var q := n / 0x1_0000_0000;
    assert 10 * n + d == 0x1_0000_0000 * (10 * q) + (10 * (n % 0x1_0000_0000) + d);
  }

  lemma DecimalMore(p: string, c: char)
    requires Numeral(p) && Figure(c).Some?
    ensures Numeral(p + [c]) && Decimal(p + [c]) == 10 * Decimal(p) + Figure(c).value
  {
    hide Figure;
    var q := p + [c];
    assert q[..|q| - 1] == p;
  }

  /** atoi reads a numeral as far as it goes, from the left. */
  lemma {:induction false} AtoiDecimal(p: string, s: string, rest: string)
    requires Numeral(p) && Numeral(s) && (rest == [] || Figure(rest[0]).None?)
    ensures Numeral(p + s) && Atoi(s + rest, Decimal(p) % 0x1_0000_0000) == Decimal(p + s) % 0x1_0000_0000
    decreases |s|
  {
    if s == [] {
      assert p + s == p && s + rest == rest;
      if rest != [] {
        DigitFigure(rest[0]);
      }
    } else {
      var q := p + [s[0]];
      DigitFigure(s[0]);
      assert q + s[1..] == p + s && (s + rest)[1..] == s[1..] + rest && (s + rest)[0] == s[0];
      DecimalMore(p, s[0]);
      FigureMore(Decimal(p), Figure(s[0]).value);
      hide Figure, IsDigit, Decimal;
      assert Numeral(s[1..]);
      AtoiDecimal(q, s[1..], rest);
    }
  }

  /** The unit is the number at the end of the name; what comes before its last
      character is taken for one even if that is no digit. */
  lemma UnitIs(prefix: string, digits: string, c: char)
    requires Numeral(digits) && (prefix == [] || Figure(prefix[|prefix| - 1]).None?)
    ensures var s := if Figure(c).Some? then digits + [c] else digits;
      Numeral(s) && Unit(prefix + digits + [c]) == Decimal(s) % 0x1_0000_0000
  {
    var name := prefix + digits + [c];
    forall k | 0 <= k < |name| ensures IsDigit(name[k]) <==> Figure(name[k]).Some? {
      DigitFigure(name[k]);
    }
    UnitStart(name, |prefix|, |name| - 1);
    assert name[|prefix|..] == digits + [c] && name[|prefix|] == (digits + [c])[0];
    DigitFigure(name[|prefix|]);
    hide Figure, IsDigit, Atoi, Back;
    if Figure(c).Some? {
      AtoiFirst(digits + [c], []);
      assert digits + [c] + [] == digits + [c];
    } else {
      AtoiFirst(digits, [c]);
    }
  }

  lemma AtoiFirst(s: string, rest: string)
    requires Numeral(s) && (rest == [] || Figure(rest[0]).None?)
    ensures Atoi(s + rest, 0) == Decimal(s) % 0x1_0000_0000
  {
    hide Figure, Atoi;
    var none: string := [];
    assert Decimal(none) == 0 && none + s == s;
    hide Decimal;
    AtoiDecimal(none, s, rest);
  }

  lemma {:induction false} UnitStart(name: string, i: nat, n: nat)
    requires i <= n < |name| && (forall k | i <= k < n :: IsDigit(name[k])) && (i > 0 ==> !IsDigit(name[i - 1]))
    ensures Back(name, n) == i
    decreases n
  {
    if n > i {
      UnitStart(name, i, n - 1);
    }
  }

  /** n with the bit b set. */
  function OrBit(n: nat, b: nat): (r: nat)
    requires b > 0
    ensures r >= n && r >= b
  {
    if n / b % 2 == 1 then n else n + b
  }

  const ANY_UNIT: nat := 0x1FFFFFFF

  /** What the name counts for. */
  function UnitOf(d: Dev): nat {
    if d.name == "any" then ANY_UNIT else Unit(d.name)
  }

  /** The lower the better. */
  function Merit(d: Dev): nat {
    var n := UnitOf(d);
    var n1 := if !d.running then OrBit(n, 0x80000000) else n;
    var n2 := if !d.up then OrBit(n1, 0x40000000) else n1;
    if d.loopback then OrBit(n2, 0x20000000) else n2
  }

  /** Bit b of n, a power of 2. */
  predicate HasBit(n: nat, b: nat)
    requires b > 0
  {
    n / b % 2 == 1
  }

  /** The bits of a merit, in 32: the unit, and what the state of the device adds to
      it. */
  ghost predicate MeritOf(n: nat, d: Dev) {
    && n % 0x20000000 == UnitOf(d) % 0x20000000 && n / 0x1_0000_0000 == UnitOf(d) / 0x1_0000_0000
    && (HasBit(n, 0x80000000) <==> !d.running || HasBit(UnitOf(d), 0x80000000))
    && (HasBit(n, 0x40000000) <==> !d.up || HasBit(UnitOf(d), 0x40000000))
    && (HasBit(n, 0x20000000) <==> d.loopback || HasBit(UnitOf(d), 0x20000000))
  }

  lemma Parts(u: nat, b0: nat, b1: nat, b2: nat, h: nat)
    requires u < 0x20000000 && b0 < 2 && b1 < 2 && b2 < 2
    ensures var n := u + 0x20000000 * b0 + 0x40000000 * b1 + 0x80000000 * b2 + 0x1_0000_0000 * h;
      && n % 0x20000000 == u && n / 0x1_0000_0000 == h && (HasBit(n, 0x20000000) <==> b0 == 1)
      && (HasBit(n, 0x40000000) <==> b1 == 1) && (HasBit(n, 0x80000000) <==> b2 == 1)
  {
    var n := u + 0x20000000 * b0 + 0x40000000 * b1 + 0x80000000 * b2 + 0x1_0000_0000 * h;
    var v := u + 0x20000000 * b0;
    var w := v + 0x40000000 * b1;
    QuotientIs(n, 0x1_0000_0000, h, w + 0x80000000 * b2);
    QuotientIs(n, 0x80000000, b2 + 2 * h, w);
    QuotientIs(n, 0x40000000, b1 + 2 * b2 + 4 * h, v);
    QuotientIs(n, 0x20000000, b0 + 2 * b1 + 4 * b2 + 8 * h, u);
  }

  /** Setting bits of a number that is given by its parts. */
  lemma PartsSet(u: nat, b0: nat, b1: nat, b2: nat, h: nat)
    requires u < 0x20000000 && b0 < 2 && b1 < 2 && b2 < 2
    ensures var n := u + 0x20000000 * b0 + 0x40000000 * b1 + 0x80000000 * b2 + 0x1_0000_0000 * h;
      && OrBit(n, 0x80000000) == n + 0x80000000 * (1 - b2) && OrBit(n, 0x40000000) == n + 0x40000000 * (1 - b1)
      && OrBit(n, 0x20000000) == n + 0x20000000 * (1 - b0)
  {
    Parts(u, b0, b1, b2, h);
  }

  lemma PartsOf(n: nat) returns (u: nat, b0: nat, b1: nat, b2: nat, h: nat)
    ensures u < 0x20000000 && b0 < 2 && b1 < 2 && b2 < 2
    ensures n == u + 0x20000000 * b0 + 0x40000000 * b1 + 0x80000000 * b2 + 0x1_0000_0000 * h
  {
    var v, w;
    h, v := n / 0x1_0000_0000, n % 0x1_0000_0000;
    b2, w := v / 0x80000000, v % 0x80000000;
    b1, v := w / 0x40000000, w % 0x40000000;
    b0, u := v / 0x20000000, v % 0x20000000;
  }

  lemma MeritIs(d: Dev)
    ensures MeritOf(Merit(d), d) && (d.name == "any" ==> UnitOf(d) == 536870911)
  {
    var u, b0, b1, b2, h := PartsOf(UnitOf(d));
    hide Unit, OrBit, HasBit;
    Parts(u, b0, b1, b2, h);
    PartsSet(u, b0, b1, b2, h);
    var c2 := if d.running then b2 else 1;
    PartsSet(u, b0, b1, c2, h);
    var c1 := if d.up then b1 else 1;
    PartsSet(u, b0, c1, c2, h);
    Parts(u, if d.loopback then 1 else b0, c1, c2, h);
  }

  /** What the two top bits of the merit say: running comes before up. */
  function Rank(d: Dev): nat {
    (if d.running then 0 else 2) + (if d.up then 0 else 1)
  }

  /** With unit numbers of less than 29 bits the state of the device counts most,
      then whether it is a loopback, and then the unit. */
  lemma MeritBits(d: Dev)
    requires Unit(d.name) < 0x20000000
    ensures Merit(d) == Rank(d) * 0x40000000 + (if d.loopback then 0x20000000 else 0) + UnitOf(d)
    ensures UnitOf(d) < 0x20000000
  {
  }

  /** get_figure_of_merit */
  method GetFigureOfMerit(d: Dev) returns (n: nat)
    ensures n == Merit(d) && MeritOf(n, d) && (d.name == "any" ==> UnitOf(d) == 536870911)
    ensures Unit(d.name) < 0x20000000 ==>
      n == Rank(d) * 0x40000000 + (if d.loopback then 0x20000000 else 0) + UnitOf(d) && UnitOf(d) < 0x20000000
  {
    MeritIs(d);
    if Unit(d.name) < 0x20000000 {
      MeritBits(d);
    }
    hide MeritOf;
    if d.name == "any" {
      n := ANY_UNIT;
    } else if d.name == [] {
      n := 0;
    } else {
      var cp := |d.name| - 1;
      while cp > 0 && IsDigit(d.name[cp - 1])
        invariant 0 <= cp < |d.name| && Back(d.name, cp) == Back(d.name, |d.name| - 1)
      {
        cp := cp - 1;
      }
      n := if IsDigit(d.name[cp]) then Atoi(d.name[cp..], 0) else 0;
    }
    if !d.running {
      n := OrBit(n, 0x80000000);
    }
    if !d.up {
      n := OrBit(n, 0x40000000);
    }
    if d.loopback {
      n := OrBit(n, 0x20000000);
    }
  }

  // -------------------------------------------------------- order of the list

  ghost predicate Sorted(devs: seq<Dev>) {
    forall i, j | 0 <= i < j < |devs| :: Merit(devs[i]) <= Merit(devs[j])
  }

  ghost predicate Unique(devs: seq<Dev>) {
    forall i, j | 0 <= i < j < |devs| :: devs[i].name != devs[j].name
  }

  function Plain(d: Dev): Dev {
    d.(addresses := [])
  }

  /** The devices with merit v, in order, apart from their addresses. */
  ghost function WithMerit(devs: seq<Dev>, v: nat): seq<Dev> {
    if devs == [] then [] else (if Merit(devs[0]) == v then [Plain(devs[0])] else []) + WithMerit(devs[1..], v)
  }

  lemma {:induction false} WithMeritConcat(a: seq<Dev>, b: seq<Dev>, v: nat)
    ensures WithMerit(a + b, v) == WithMerit(a, v) + WithMerit(b, v)
  {
    hide Merit;
    if a == [] {
      assert a + b == b;
    } else {
      assert (a + b)[1..] == a[1..] + b;
      WithMeritConcat(a[1..], b, v);
      var head := if Merit(a[0]) == v then [Plain(a[0])] else [];
      Regroup(head, WithMerit(a[1..], v), WithMerit(b, v));
    }
  }

  lemma {:induction false} WithMeritNone(devs: seq<Dev>, v: nat)
    requires forall d | d in devs :: Merit(d) != v
    ensures WithMerit(devs, v) == []
  {
    hide Merit;
    if devs != [] {
      WithMeritNone(devs[1..], v);
    }
  }

  /** The list has the devices that were added, those of equal merit in the
      order of their addition. */
  ghost predicate Stable(devs: seq<Dev>, added: seq<Dev>) {
    forall v: nat {:trigger WithMerit(devs, v)} :: WithMerit(devs, v) == WithMerit(added, v)
  }

  /** d put before place i of the list. */
  function Inserted(devs: seq<Dev>, d: Dev, i: nat): seq<Dev>
    requires i <= |devs|
  {
    devs[..i] + [d] + devs[i..]
  }

  lemma InsertMerits(devs: seq<Dev>, added: seq<Dev>, d: Dev, i: nat, v: nat)
    requires WithMerit(devs, v) == WithMerit(added, v) && i <= |devs|
    requires forall x | x in devs[i..] :: Merit(d) < Merit(x)
    ensures WithMerit(Inserted(devs, d, i), v) == WithMerit(added + [d], v)
  {
    var front, back := devs[..i], devs[i..];
    assert front + back == devs;
    WithMeritAround(front, [d], back, v);
    WithMeritConcat(front, back, v);
    WithMeritConcat(added, [d], v);
    hide Merit, WithMerit;
    if v == Merit(d) {
      WithMeritNone(back, v);
    } else {
      WithMeritNone([d], v);
    }
    Exchange(WithMerit(front, v), WithMerit([d], v), WithMerit(back, v));
  }

  lemma Exchange(a: seq<Dev>, b: seq<Dev>, c: seq<Dev>)
    requires b == [] || c == []
    ensures a + b + c == a + c + b
  {
  }

  lemma WithMeritAround(a: seq<Dev>, b: seq<Dev>, c: seq<Dev>, v: nat)
    ensures WithMerit(a + b + c, v) == WithMerit(a, v) + WithMerit(b, v) + WithMerit(c, v)
  {
    hide Merit, WithMerit;
    WithMeritConcat(a + b, c, v);
    WithMeritConcat(a, b, v);
  }

  lemma InsertSorted(devs: seq<Dev>, d: Dev, i: nat)
    requires Sorted(devs) && i <= |devs|
    requires (forall k | 0 <= k < i :: Merit(devs[k]) <= Merit(d)) && (i < |devs| ==> Merit(d) < Merit(devs[i]))
    ensures Sorted(Inserted(devs, d, i)) && forall x | x in devs[i..] :: Merit(d) < Merit(x)
  {
    hide Merit;
    var devs' := Inserted(devs, d, i);
    forall x | x in devs[i..] ensures Merit(d) < Merit(x) {
      var k :| 0 <= k < |devs| - i && devs[i..][k] == x;
      assert x == devs[i + k];
    }
    forall j, k | 0 <= j < k < |devs'| ensures Merit(devs'[j]) <= Merit(devs'[k]) {
      if k > i {
        assert devs'[k] == devs[k - 1] && devs'[k] in devs[i..];
        if j > i {
          assert devs'[j] == devs[j - 1];
        }
      }
    }
  }

  /** Putting a device before the first one that is worse keeps the order. */
  lemma InsertKeeps(devs: seq<Dev>, added: seq<Dev>, d: Dev, i: nat)
    requires Sorted(devs) && Stable(devs, added) && i <= |devs|
    requires (forall k | 0 <= k < i :: Merit(devs[k]) <= Merit(d)) && (i < |devs| ==> Merit(d) < Merit(devs[i]))
    ensures Sorted(Inserted(devs, d, i)) && Stable(Inserted(devs, d, i), added + [d])
  {
    hide Merit, Inserted;
    InsertSorted(devs, d, i);
    forall v: nat ensures WithMerit(Inserted(devs, d, i), v) == WithMerit(added + [d], v) {
      assert WithMerit(devs, v) == WithMerit(added, v);
      InsertMerits(devs, added, d, i, v);
    }
  }

  function WithAddress(d: Dev, addr: int): (r: Dev)
    ensures Merit(r) == Merit(d) && Plain(r) == Plain(d) && r.name == d.name
  {
    d.(addresses := d.addresses + [addr])
  }

  lemma AddressMerits(devs: seq<Dev>, i: nat, addr: int, v: nat)
    requires i < |devs|
    ensures WithMerit(devs[i := WithAddress(devs[i], addr)], v) == WithMerit(devs, v)
  {
    hide Merit;
    var d := WithAddress(devs[i], addr);
    var back := devs[i + 1..];
    assert devs == devs[..i] + ([devs[i]] + back) && devs[i := d] == devs[..i] + ([d] + back);
    WithMeritConcat(devs[..i], [devs[i]] + back, v);
    WithMeritConcat(devs[..i], [d] + back, v);
    assert ([devs[i]] + back)[1..] == back == ([d] + back)[1..];
  }

  /** Giving device i one more address changes neither names nor merits. */
  lemma AddressKeeps(devs: seq<Dev>, added: seq<Dev>, i: nat, addr: int)
    requires Sorted(devs) && Unique(devs) && Stable(devs, added) && i < |devs|
    ensures Sorted(devs[i := WithAddress(devs[i], addr)]) && Unique(devs[i := WithAddress(devs[i], addr)])
    ensures Stable(devs[i := WithAddress(devs[i], addr)], added)
  {
    hide Merit;
    var devs' := devs[i := WithAddress(devs[i], addr)];
    forall v: nat ensures WithMerit(devs', v) == WithMerit(added, v) {
      AddressMerits(devs, i, addr, v);
      assert WithMerit(devs, v) == WithMerit(added, v);
    }
    hide WithAddress;
    assert forall k | 0 <= k < |devs| :: Merit(devs'[k]) == Merit(devs[k]) && devs'[k].name == devs[k].name;
  }

  // ------------------------------------------------------- whose addresses

  /** The addresses that were given to a device of this name, in order. */
  ghost function Given(log: seq<(string, int)>, name: string): seq<int> {
    if log == [] then []
      else Given(log[..|log| - 1], name) + (if log[|log| - 1].0 == name then [log[|log| - 1].1] else [])
  }

  lemma GivenNext(log: seq<(string, int)>, e: (string, int), name: string)
    ensures Given(log + [e], name) == Given(log, name) + (if e.0 == name then [e.1] else [])
  {
    assert (log + [e])[..|log|] == log;
  }

  // ---------------------------------------------------------------- the list

  class Devices {
    var alldevs: seq<Dev>
    ghost var added: seq<Dev>
    ghost var log: seq<(string, int)>

    ghost predicate Valid()
      reads this
    {
      && Unique(alldevs) && Sorted(alldevs) && Stable(alldevs, added)
      && (forall d | d in alldevs :: d.addresses == Given(log, d.name))
      && forall e | e in log :: exists d :: d in alldevs && d.name == e.0
    }

    constructor ()
      ensures Valid() && alldevs == [] && added == [] && log == []
    {
      alldevs, added, log := [], [], [];
    }

    method Find(name: string) returns (i: int)
      ensures i == -1 ==> forall d | d in alldevs :: d.name != name
      ensures i != -1 ==> 0 <= i < |alldevs| && alldevs[i].name == name
    {
      for k := 0 to |alldevs|
        invariant forall j | 0 <= j < k :: alldevs[j].name != name
      {
        if alldevs[k].name == name {
          return k;
        }
      }
      return -1;
    }

    /** add_or_find_if: the place of the device; -1 if it is not on the list and
        cannot be opened. */
    method AddOrFindIf(name: string, loopback: bool, up: bool, running: bool, canOpen: bool) returns (i: int)
      requires Valid()
      modifies this
      ensures Valid() && log == old(log)
      ensures i == -1 || (0 <= i < |alldevs| && alldevs[i].name == name)
      ensures i == -1 <==> !canOpen && forall d | d in old(alldevs) :: d.name != name
      ensures (exists d :: d in old(alldevs) && d.name == name) || !canOpen ==>
        alldevs == old(alldevs) && added == old(added)
      ensures !(exists d :: d in old(alldevs) && d.name == name) && canOpen ==>
        added == old(added) + [Dev(name, loopback, up, running, [])]
          && alldevs[i] == Dev(name, loopback, up, running, [])
        && i <= |old(alldevs)| && alldevs == Inserted(old(alldevs), alldevs[i], i)
    {
      hide Merit;
      i := Find(name);
      if i != -1 || !canOpen {
        return;
      }
      var d := Dev(name, loopback, up, running, []);
      i := Place(d);
      InsertKeeps(alldevs, added, d, i);
      GivenNone(alldevs, log, name);
      ghost var was := alldevs;
      alldevs := Inserted(alldevs, d, i);
      added := added + [d];
      InsertedNames(was, alldevs, d, i);
    }

    /** The place before the first device that is worse than d. */
    method Place(d: Dev) returns (i: nat)
      requires Sorted(alldevs)
      ensures i <= |alldevs| && (forall k | 0 <= k < i :: Merit(alldevs[k]) <= Merit(d))
      ensures i < |alldevs| ==> Merit(d) < Merit(alldevs[i])
    {
      hide Merit;
      var this_merit := GetFigureOfMerit(d);
      i := 0;
      while i < |alldevs|
        invariant 0 <= i <= |alldevs| && forall k | 0 <= k < i :: Merit(alldevs[k]) <= Merit(d)
      {
        var next_merit := GetFigureOfMerit(alldevs[i]);
        if this_merit < next_merit {
          return;
        }
        i := i + 1;
      }
    }

    /** add_addr_to_iflist */
    method AddAddrToIflist(name: string, loopback: bool, up: bool, running: bool, canOpen: bool, addr: Option<int>)
      requires Valid()
      modifies this
      ensures Valid()
      ensures var on := exists d :: d in old(alldevs) && d.name == name;
        && added == old(added) + (if !on && canOpen then [Dev(name, loopback, up, running, [])] else [])
        && log == old(log) + (if (on || canOpen) && addr.Some? then [(name, addr.value)] else [])
    {
      hide Merit;
      var i := AddOrFindIf(name, loopback, up, running, canOpen);
      if i == -1 || addr.None? {
        return;
      }
      AddAddrToDev(i, addr.value);
    }

    /** add_addr_to_dev: the address goes to the end of the device's list. */
    method AddAddrToDev(i: nat, addr: int)
      requires Valid() && i < |alldevs|
      modifies this
      ensures Valid() && added == old(added) && log == old(log) + [(old(alldevs)[i].name, addr)]
      ensures alldevs == old(alldevs)[i := WithAddress(old(alldevs)[i], addr)]
    {
      hide Merit;
      AddressKeeps(alldevs, added, i, addr);
      ghost var was, e := alldevs, (alldevs[i].name, addr);
      alldevs := alldevs[i := WithAddress(alldevs[i], addr)];
      AddressNames(was, alldevs, log, i, addr);
      log := log + [e];
    }

    /** pcap_lookupdev: the first device, unless it is a loopback. */
    method LookupDev() returns (name: Option<string>)
      requires Valid()
      ensures name.None? <==> alldevs == [] || alldevs[0].loopback
      ensures name.Some? ==> name.value == alldevs[0].name
      ensures name.None? ==> forall d | d in alldevs :: !Good(d)
    {
      if alldevs == [] || alldevs[0].loopback {
        if alldevs != [] {
          LoopbackFirst(alldevs);
        }
        return None;
      }
      return Some(alldevs[0].name);
    }
  }

  lemma {:induction false} GivenNone(devs: seq<Dev>, log: seq<(string, int)>, name: string)
    requires (forall d | d in devs :: d.name != name) && forall e | e in log :: exists d :: d in devs && d.name == e.0
    ensures Given(log, name) == []
  {
    forall e | e in log ensures e.0 != name {
    }
    GivenOthers(log, name);
  }

  lemma {:induction false} GivenOthers(log: seq<(string, int)>, name: string)
    requires forall e | e in log :: e.0 != name
    ensures Given(log, name) == []
  {
    if log != [] {
      GivenOthers(log[..|log| - 1], name);
    }
  }

  lemma InsertedNames(devs: seq<Dev>, devs': seq<Dev>, d: Dev, i: nat)
    requires Unique(devs) && (forall x | x in devs :: x.name != d.name) && i <= |devs| && devs' == Inserted(devs, d, i)
    ensures Unique(devs') && forall x :: x in devs' <==> x == d || x in devs
  {
    forall j, k | 0 <= j < k < |devs'| ensures devs'[j].name != devs'[k].name {
      assert devs'[j] == d || devs'[j] in devs;
      assert devs'[k] == d || devs'[k] in devs;
    }
    forall x ensures x in devs' <==> x == d || x in devs {
      assert devs == devs[..i] + devs[i..];
      assert x in devs <==> x in devs[..i] || x in devs[i..];
    }
  }

  lemma AddressNames(devs: seq<Dev>, devs': seq<Dev>, log: seq<(string, int)>, i: nat, addr: int)
    requires Unique(devs) && i < |devs| && devs' == devs[i := WithAddress(devs[i], addr)]
    requires forall d | d in devs :: d.addresses == Given(log, d.name)
    requires forall e | e in log :: exists d :: d in devs && d.name == e.0
    ensures forall d | d in devs' :: d.addresses == Given(log + [(devs[i].name, addr)], d.name)
    ensures forall e | e in log + [(devs[i].name, addr)] :: exists d :: d in devs' && d.name == e.0
  {
    var e0 := (devs[i].name, addr);
    forall d | d in devs' ensures d.addresses == Given(log + [e0], d.name) {
      GivenNext(log, e0, d.name);
      var k :| 0 <= k < |devs'| && devs'[k] == d;
      assert devs[k] in devs && devs[k].name == d.name;
    }
    forall e | e in log + [e0] ensures exists d :: d in devs' && d.name == e.0 {
      if e in log {
        var d :| d in devs && d.name == e.0;
        var k :| 0 <= k < |devs| && devs[k] == d;
        assert devs'[k] in devs' && devs'[k].name == e.0;
      } else {
        assert devs'[i] in devs' && devs'[i].name == e.0;
      }
    }
  }

  // ---------------------------------------------------------- what comes first

  /** A device to capture on: up, running, not a loopback, with a unit number of
      less than 29 bits. */
  predicate Good(d: Dev) {
    d.up && d.running && !d.loopback && (d.name == "any" || Unit(d.name) < 0x20000000)
  }

  lemma GoodMerit(d: Dev)
    ensures Good(d) ==> Merit(d) < 0x20000000
    ensures d.loopback ==> Merit(d) >= 0x20000000
  {
  }

  /** If a loopback comes first, no good device is on the list. */
  lemma LoopbackFirst(devs: seq<Dev>)
    requires Sorted(devs) && devs != [] && devs[0].loopback
    ensures forall d | d in devs :: !Good(d)
  {
    forall d | d in devs ensures !Good(d) {
      GoodMerit(d);
      GoodMerit(devs[0]);
      hide Merit;
      var k :| 0 <= k < |devs| && devs[k] == d;
    }
  }

  /** When no device is found: exactly when each network device is in a worse
      state than some loopback (for unit numbers of less than 29 bits). */
  lemma NoneFound(devs: seq<Dev>)
    requires Sorted(devs) && forall d | d in devs :: Unit(d.name) < 0x20000000
    ensures devs == [] || devs[0].loopback <==>
      forall d | d in devs && !d.loopback :: exists l :: l in devs && l.loopback && Rank(l) < Rank(d)
  {
    forall d | d in devs ensures Merit(devs[0]) <= Merit(d) {
    }
    forall d, l | d in devs && l in devs && l.loopback && !d.loopback
      ensures Merit(l) <= Merit(d) <==> Rank(l) < Rank(d)
    {
      MeritBits(d);
      MeritBits(l);
    }
    if devs != [] && devs[0].loopback {
      forall d | d in devs && !d.loopback ensures exists l :: l in devs && l.loopback && Rank(l) < Rank(d) {
        assert devs[0] in devs && Rank(devs[0]) < Rank(d);
      }
    } else if devs != [] {
      var d := devs[0];
      forall l | l in devs && l.loopback ensures Rank(d) <= Rank(l) {
        MeritBits(d);
        MeritBits(l);
      }
    }
  }

  /** There may be others: a loopback that runs comes before a network device
      that is not up, and then no device is returned. */
  lemma LoopbackHides()
    ensures var lo, eth := Dev("lo", true, true, true, []), Dev("eth0", false, false, false, []);
      Sorted([lo, eth]) && [lo, eth][0].loopback && !eth.loopback
  {
    assert Back("lo", 1) == 1;
  }
}
