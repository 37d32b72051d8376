/** Value numbering over the whole flow graph: the numbers on entry to a block
    are those on which all the blocks before it agree. */
module Propagation {
  import opened Basics
  import opened Bpf
  import opened Flow
  import opened Blocks
  import opened Levels
  import opened Dominators
  import opened Predecessors
  import opened Liveness
  import opened ValueTable
  import opened Numbering
  import opened Insns

  // ---------------------------------------------- steps, for the final table

  ghost predicate StepOk(K: seq<Key>, val: Vals, s: Stmt, val': Vals, s': Stmt)
    requires Ordered(K)
  {
    && InRange(K, val) && InRange(K, val')
    && if s.Nop? then s' == s && val' == val else
       var d := AtomDef(s);
       && d >= 0 && val' == val[d := val'[d]] && (KnownReads(val, s) ==> val'[d] != 0)
         && Computed(K, val, s, s', val'[d])
       && (forall p, st {:trigger NumberRight(K, val, s, K, val'[d], p, st)} ::
         NumberRight(K, val, s, K, val'[d], p, st))
       && forall p, st {:trigger RewriteRight(K, val, s, s', p, st)} :: RewriteRight(K, val, s, s', p, st)
  }

  lemma ReadsKept(keys: seq<Key>, K: seq<Key>, val: Vals, s: Stmt, p: Packet, st: State)
    requires Ordered(keys) && Ordered(K) && keys <= K && InRange(keys, val)
    ensures ReadsRight(K, val, s, p, st) <==> ReadsRight(keys, val, s, p, st)
    ensures forall a | 0 <= a < N_ATOMS :: Right(K, val, p, st, a) <==> Right(keys, val, p, st, a)
  {
    forall a | 0 <= a < N_ATOMS ensures Right(K, val, p, st, a) <==> Right(keys, val, p, st, a) {
      DenKept(keys, K, val[a], p);
    }
  }

  lemma RightLift(keys: seq<Key>, val: Vals, s: Stmt, keys': seq<Key>, v: nat, s': Stmt, K: seq<Key>, p: Packet,
      st: State)
    requires Ordered(keys) && Ordered(keys') && Ordered(K) && keys <= keys' <= K && InRange(keys, val) && v <= |keys'|
    requires NumberRight(keys, val, s, keys', v, p, st) && RewriteRight(keys, val, s, s', p, st)
    ensures NumberRight(K, val, s, K, v, p, st) && RewriteRight(K, val, s, s', p, st)
  {
    ReadsKept(keys, K, val, s, p, st);
    DenKept(keys', K, v, p);
  }

  /** What a step promises holds for any larger table. */
  lemma StepLift(keys: seq<Key>, val: Vals, s: Stmt, keys': seq<Key>, val': Vals, s': Stmt, K: seq<Key>)
    requires InRange(keys, val) && InRange(keys', val') && StmtRight(keys, val, s, keys', val', s')
    requires Ordered(keys) && Ordered(keys') && Ordered(K) && keys <= keys' <= K
    ensures StepOk(K, val, s, val', s')
  {
    hide NumberRight, RewriteRight, Computed, KnownReads;
    if !s.Nop? {
      var v := val'[AtomDef(s)];
      ComputedKept(keys', K, val, s, s', v);
      forall p, st ensures NumberRight(K, val, s, K, v, p, st) && RewriteRight(K, val, s, s', p, st) {
        assert NumberRight(keys, val, s, keys', v, p, st) && RewriteRight(keys, val, s, s', p, st);
        RightLift(keys, val, s, keys', v, s', K, p, st);
      }
    }
  }

  lemma StepAgain(keys: seq<Key>, val: Vals, s: Stmt, val': Vals, s': Stmt, K: seq<Key>)
    requires Ordered(keys) && Ordered(K) && keys <= K && StepOk(keys, val, s, val', s')
    ensures StepOk(K, val, s, val', s')
  {
    hide NumberRight, RewriteRight, Computed, KnownReads;
    if !s.Nop? {
      var v := val'[AtomDef(s)];
      ComputedKept(keys, K, val, s, s', v);
      forall p, st ensures NumberRight(K, val, s, K, v, p, st) && RewriteRight(K, val, s, s', p, st) {
        assert NumberRight(keys, val, s, keys, v, p, st) && RewriteRight(keys, val, s, s', p, st);
        RightLift(keys, val, s, keys, v, s', K, p, st);
      }
    }
  }

  // ------------------------------------------------------------- one block

  /** vals are the numbers before, between and after the statements ss, which
      have become ts. */
  ghost predicate Traced(K: seq<Key>, vals: seq<Vals>, ss: seq<Stmt>, ts: seq<Stmt>)
    requires Ordered(K)
  {
    && |ts| == |ss| && |vals| == |ss| + 1 && (forall i | 0 <= i < |vals| :: InRange(K, vals[i]))
    && forall i {:trigger StepAt(K, vals, ss, ts, i)} | 0 <= i < |ss| :: StepAt(K, vals, ss, ts, i)
  }

  ghost predicate StepAt(K: seq<Key>, vals: seq<Vals>, ss: seq<Stmt>, ts: seq<Stmt>, i: int)
    requires Ordered(K)
  {
    0 <= i < |ss| == |ts| && |vals| == |ss| + 1 && StepOk(K, vals[i], ss[i], vals[i + 1], ts[i])
  }

  /** No statement reads an atom whose number is 0. */
  ghost predicate AllKnown(vals: seq<Vals>, ss: seq<Stmt>)
    requires |vals| == |ss| + 1 && forall i | 0 <= i < |vals| :: |vals[i]| == N_ATOMS
  {
    forall i | 0 <= i < |ss| :: KnownReads(vals[i], ss[i])
  }

  /** Every atom with a number holds the value that its number denotes. */
  ghost predicate Consistent(K: seq<Key>, val: Vals, p: Packet, st: State)
    requires Ordered(K) && |val| == N_ATOMS
  {
    forall a {:trigger Right(K, val, p, st, a)} | 0 <= a < N_ATOMS && val[a] != 0 :: Right(K, val, p, st, a)
  }

  lemma StepKeeps(K: seq<Key>, val: Vals, s: Stmt, val': Vals, s': Stmt, p: Packet, st: State)
    requires Ordered(K) && StepOk(K, val, s, val', s') && KnownReads(val, s) && Consistent(K, val, p, st)
    requires Exec(s, p, st).Some?
    ensures Exec(s', p, st) == Exec(s, p, st) && Consistent(K, val', p, Exec(s, p, st).value)
  {
    ExecPut(s, p, st);
    if !s.Nop? {
      var d, e := AtomDef(s), Exec(s, p, st).value;
      forall a | 0 <= a < N_ATOMS && a in Atoms(AtomUse(s)) ensures Right(K, val, p, st, a) {
      }
      assert NumberRight(K, val, s, K, val'[d], p, st) && RewriteRight(K, val, s, s', p, st);
      assert val[d] != 0 ==> Right(K, val, p, st, d);
      forall a | 0 <= a < N_ATOMS && val'[a] != 0 ensures Right(K, val', p, e, a) {
        assert a != d ==> Right(K, val, p, st, a);
      }
    }
  }

  lemma TracedTail(K: seq<Key>, vals: seq<Vals>, ss: seq<Stmt>, ts: seq<Stmt>)
    requires Ordered(K) && Traced(K, vals, ss, ts) && ss != []
    ensures Traced(K, vals[1..], ss[1..], ts[1..]) && StepOk(K, vals[0], ss[0], vals[1], ts[0])
    ensures AllKnown(vals, ss) ==> AllKnown(vals[1..], ss[1..]) && KnownReads(vals[0], ss[0])
  {
    assert StepAt(K, vals, ss, ts, 0);
    forall i | 0 <= i < |ss[1..]| ensures StepAt(K, vals[1..], ss[1..], ts[1..], i) {
      assert StepAt(K, vals, ss, ts, i + 1);
    }
  }

  /** A packet that gets through the statements gets through the rewritten ones
      with the same state, and the numbers stay right. */
  lemma {:induction false} BlockKeeps(K: seq<Key>, vals: seq<Vals>, ss: seq<Stmt>, ts: seq<Stmt>, p: Packet, st: State)
    requires Ordered(K) && Traced(K, vals, ss, ts) && AllKnown(vals, ss) && Consistent(K, vals[0], p, st)
    requires ExecAll(ss, p, st).Some?
    ensures ExecAll(ts, p, st) == ExecAll(ss, p, st) && Consistent(K, vals[|ss|], p, ExecAll(ss, p, st).value)
    decreases |ss|
  {
    if ss != [] {
      TracedTail(K, vals, ss, ts);
      StepKeeps(K, vals[0], ss[0], vals[1], ts[0], p, st);
      BlockKeeps(K, vals[1..], ss[1..], ts[1..], p, Exec(ss[0], p, st).value);
    }
  }

  /** The atoms of D hold what their numbers denote. */
  ghost predicate RightOn(K: seq<Key>, val: Vals, p: Packet, st: State, D: set<int>)
    requires Ordered(K) && |val| == N_ATOMS
  {
    forall a {:trigger Right(K, val, p, st, a)} | 0 <= a < N_ATOMS && a in D :: Right(K, val, p, st, a)
  }

  /** Atoms of interest after the statements are right if those that they depend
      on were right before. */
  lemma {:induction false} BlockLive(K: seq<Key>, vals: seq<Vals>, ss: seq<Stmt>, ts: seq<Stmt>, E: set<int>, p: Packet,
      st: State)
    requires Ordered(K) && Traced(K, vals, ss, ts) && RightOn(K, vals[0], p, st, LiveAt(ss, E))
    requires ExecAll(ss, p, st).Some?
    ensures RightOn(K, vals[|ss|], p, ExecAll(ss, p, st).value, E)
    decreases |ss|
  {
    if ss != [] {
      TracedTail(K, vals, ss, ts);
      StepLive(K, vals[0], ss[0], vals[1], ts[0], LiveAt(ss[1..], E), p, st);
      BlockLive(K, vals[1..], ss[1..], ts[1..], E, p, Exec(ss[0], p, st).value);
    }
  }

  lemma StepLive(K: seq<Key>, val: Vals, s: Stmt, val': Vals, s': Stmt, E: set<int>, p: Packet, st: State)
    requires Ordered(K) && StepOk(K, val, s, val', s') && RightOn(K, val, p, st, Atoms(AtomUse(s)) + (E - {AtomDef(s)}))
    requires Exec(s, p, st).Some?
    ensures RightOn(K, val', p, Exec(s, p, st).value, E)
  {
    ExecPut(s, p, st);
    var d, e := AtomDef(s), Exec(s, p, st).value;
    if !s.Nop? {
      forall a | 0 <= a < N_ATOMS && a in Atoms(AtomUse(s)) ensures Right(K, val, p, st, a) {
      }
      assert NumberRight(K, val, s, K, val'[d], p, st);
    }
    forall a | 0 <= a < N_ATOMS && a in E ensures Right(K, val', p, e, a) {
      assert a != d ==> Right(K, val, p, st, a);
    }
  }

  /** A block that uses nothing it has not defined knows all it reads, and
      what of E it defines. */
  lemma {:induction false} SelfKnown(K: seq<Key>, vals: seq<Vals>, ss: seq<Stmt>, ts: seq<Stmt>, E: set<int>)
    requires Ordered(K) && Traced(K, vals, ss, ts)
    requires forall a | 0 <= a < N_ATOMS && a in LiveAt(ss, E) :: vals[0][a] != 0
    ensures AllKnown(vals, ss) && forall a | 0 <= a < N_ATOMS && a in E :: vals[|ss|][a] != 0
    decreases |ss|
  {
    if ss != [] {
      TracedTail(K, vals, ss, ts);
      SelfKnown(K, vals[1..], ss[1..], ts[1..], E);
      forall i | 0 <= i < |ss| ensures KnownReads(vals[i], ss[i]) {
        assert i > 0 ==> KnownReads(vals[1..][i - 1], ss[1..][i - 1]);
      }
    }
  }

  lemma TracedAgain(keys: seq<Key>, vals: seq<Vals>, ss: seq<Stmt>, ts: seq<Stmt>, K: seq<Key>)
    requires Ordered(keys) && Ordered(K) && keys <= K && Traced(keys, vals, ss, ts)
    ensures Traced(K, vals, ss, ts)
  {
    forall i | 0 <= i < |ss| ensures StepAt(K, vals, ss, ts, i) {
      assert StepAt(keys, vals, ss, ts, i);
      StepAgain(keys, vals[i], ss[i], vals[i + 1], ts[i], K);
    }
  }

  lemma TracedGrow(keys: seq<Key>, vals: seq<Vals>, ss: seq<Stmt>, ts: seq<Stmt>, s: Stmt, K: seq<Key>, val': Vals,
      s': Stmt)
    requires Ordered(keys) && Ordered(K) && keys <= K && Traced(keys, vals, ss, ts)
    requires InRange(K, val') && StmtRight(keys, vals[|ss|], s, K, val', s')
    ensures Traced(K, vals + [val'], ss + [s], ts + [s'])
  {
    TracedAgain(keys, vals, ss, ts, K);
    StepLift(keys, vals[|ss|], s, K, val', s', K);
    forall i | 0 <= i < |ss + [s]| ensures StepAt(K, vals + [val'], ss + [s], ts + [s'], i) {
      assert i < |ss| ==> StepAt(K, vals, ss, ts, i);
    }
  }

  lemma LiveGrow(ss: seq<Stmt>, k: nat)
    requires k < |ss|
    ensures |Live(ss[..k + 1])| == |Live(ss[..k])| + if ss[k].Nop? then 0 else 1
    ensures |Live(ss[..k + 1])| <= |Live(ss)|
  {
    assert ss[..k + 1] == ss[..k] + [ss[k]] && [ss[k]][1..] == [] && ss == ss[..k + 1] + ss[k + 1..];
    LiveConcat(ss[..k], [ss[k]]);
    LiveConcat(ss[..k + 1], ss[k + 1..]);
  }

  /** Each statement has become what the constants that are known before it, and
      the number that it gives its atom, make of it. */
  ghost predicate BlockRewritten(K: seq<Key>, vals: seq<Vals>, ss: seq<Stmt>, ts: seq<Stmt>) {
    && |ts| == |ss| && |vals| == |ss| + 1
    && forall i {:trigger ts[i]} | 0 <= i < |ss| :: RewrittenAt(K, vals, ss[i], ts[i], i)
  }

  ghost predicate RewrittenAt(K: seq<Key>, vals: seq<Vals>, s: Stmt, s': Stmt, i: int) {
    && 0 <= i < |vals| - 1 && |vals[i]| == |vals[i + 1]| == N_ATOMS
    && s' == if AtomDef(s) < 0 then s else Becomes(s, K, vals[i], vals[i + 1][AtomDef(s)])
  }

  lemma ConstKept(keys: seq<Key>, K: seq<Key>, v: nat)
    requires keys <= K && v <= |keys|
    ensures ConstOf(K, v) == ConstOf(keys, v)
  {
  }

  lemma BecomesKept(keys: seq<Key>, K: seq<Key>, s: Stmt, val: Vals, v: nat)
    requires keys <= K && InRange(keys, val) && AtomDef(s) >= 0
    ensures Becomes(s, K, val, v) == Becomes(s, keys, val, v)
  {
    ConstKept(keys, K, val[A_ATOM]);
    ConstKept(keys, K, val[X_ATOM]);
    if Source(s) >= 0 {
      ConstKept(keys, K, val[Source(s)]);
    }
    hide Simpler, ConstOf;
  }

  lemma RewrittenKept(keys: seq<Key>, K: seq<Key>, vals: seq<Vals>, ss: seq<Stmt>, ts: seq<Stmt>)
    requires keys <= K && (forall i | 0 <= i < |vals| :: InRange(keys, vals[i])) && BlockRewritten(keys, vals, ss, ts)
    ensures BlockRewritten(K, vals, ss, ts)
  {
    hide Becomes;
    forall i | 0 <= i < |ss| ensures RewrittenAt(K, vals, ss[i], ts[i], i) {
      assert RewrittenAt(keys, vals, ss[i], ts[i], i) && InRange(keys, vals[i]);
      if AtomDef(ss[i]) >= 0 {
        BecomesKept(keys, K, ss[i], vals[i], vals[i + 1][AtomDef(ss[i])]);
      }
    }
  }

  lemma RewrittenGrow(keys: seq<Key>, K: seq<Key>, vals: seq<Vals>, ss: seq<Stmt>, ts: seq<Stmt>, s: Stmt, v: Vals,
      s': Stmt)
    requires keys <= K && (forall i | 0 <= i < |vals| :: InRange(keys, vals[i])) && BlockRewritten(keys, vals, ss, ts)
    requires |v| == |vals[|ss|]| == N_ATOMS && (s.Nop? ==> s' == s) && (!s.Nop? ==> AtomDef(s) >= 0)
      && (!s.Nop? ==> s' == Becomes(s, keys, vals[|ss|], v[AtomDef(s)]))
    ensures BlockRewritten(K, vals + [v], ss + [s], ts + [s'])
  {
    RewrittenKept(keys, K, vals, ss, ts);
    var n, ws, us, xs := |ss|, vals + [v], ss + [s], ts + [s'];
    if !s.Nop? {
      BecomesKept(keys, K, s, vals[n], v[AtomDef(s)]);
    }
    hide Becomes;
    forall i | 0 <= i < |us| ensures RewrittenAt(K, ws, us[i], xs[i], i) {
      if i < n {
        assert RewrittenAt(K, vals, ss[i], ts[i], i) && ws[i] == vals[i] && ws[i + 1] == vals[i + 1];
      }
    }
  }

  /** The statement after ts divides a constant by the constant 0. */
  ghost predicate StopsAfter(K: seq<Key>, vals: seq<Vals>, ss: seq<Stmt>, ts: seq<Stmt>)
    requires Ordered(K)
  {
    && |ts| < |ss| && Traced(K, vals, ss[..|ts|], ts)
    && DividesByZero(ss[|ts|], ConstOf(K, vals[|ts|][A_ATOM]), ConstOf(K, vals[|ts|][X_ATOM]))
  }

  /** The statements ss have been numbered, and rewritten if they are to be. */
  ghost predicate StmtsNumbered(K: seq<Key>, vals: seq<Vals>, ss: seq<Stmt>, ts: seq<Stmt>, alter: bool)
    requires Ordered(K)
  {
    Traced(K, vals, ss, ts) && if alter then BlockRewritten(K, vals, ss, ts) else ts == ss
  }

  lemma NumberedMore(keys: seq<Key>, vals: seq<Vals>, ss: seq<Stmt>, ts: seq<Stmt>, alter: bool, s: Stmt, K: seq<Key>,
      v: Vals, s': Stmt)
    requires Ordered(keys) && Ordered(K) && keys <= K && StmtsNumbered(keys, vals, ss, ts, alter)
    requires InRange(K, v) && StmtRight(keys, vals[|ss|], s, K, v, s') && (!alter ==> s' == s)
    requires !s.Nop? ==> AtomDef(s) >= 0
    requires alter && !s.Nop? ==> s' == Becomes(s, keys, vals[|ss|], v[AtomDef(s)])
    ensures StmtsNumbered(K, vals + [v], ss + [s], ts + [s'], alter)
  {
    assert s.Nop? ==> s' == s;
    assert InRange(keys, vals[|ss|]);
    hide Becomes, StmtRight, StepAt, BlockRewritten;
    TracedGrow(keys, vals, ss, ts, s, K, v, s');
    if alter {
      RewrittenGrow(keys, K, vals, ss, ts, s, v, s');
    }
  }

  lemma NumberedAgain(keys: seq<Key>, vals: seq<Vals>, ss: seq<Stmt>, ts: seq<Stmt>, alter: bool, K: seq<Key>)
    requires Ordered(keys) && Ordered(K) && keys <= K && StmtsNumbered(keys, vals, ss, ts, alter)
    ensures StmtsNumbered(K, vals, ss, ts, alter)
  {
    hide BlockRewritten, StepAt;
    TracedAgain(keys, vals, ss, ts, K);
    if alter {
      RewrittenKept(keys, K, vals, ss, ts);
    }
  }

  lemma Defines(s: Stmt)
    ensures !s.Nop? ==> AtomDef(s) >= 0
  {
  }

  /** Statement k of a block, after those before it. */
  method OptNext(num: Numberer, ss: seq<Stmt>, k: nat, ts: seq<Stmt>, val: Vals, alter: bool, ghost vals: seq<Vals>)
      returns (ok: bool, s: Stmt, v: Vals)
    requires num.table.Valid() && k < |ss| && StmtsNumbered(num.table.keys, vals, ss[..k], ts, alter) && val == vals[k]
    requires num.table.curval + 2 < num.table.maxval
    modifies num.table, num.table.hashtbl, num.table.vmap
    ensures num.table.Valid() && old(num.table.keys) <= num.table.keys
    ensures |num.table.keys| <= |old(num.table.keys)| + if ss[k].Nop? then 0 else 2
    ensures ok ==> |v| == N_ATOMS && StmtsNumbered(num.table.keys, vals + [v], ss[..k + 1], ts + [s], alter)
    ensures !alter ==> ok
    ensures !ok ==> HasDivision(ss) && StopsAfter(num.table.keys, vals, ss, ts)
  {
    ghost var keys := num.table.keys;
    assert InRange(keys, vals[k]) && |ts| == k;
    hide StmtRight, StepAt, Becomes, ConstOf, BlockRewritten;
    ok, s, v := num.OptStmt(ss[k], val, alter);
    Defines(ss[k]);
    if ok {
      assert ss[..k + 1] == ss[..k] + [ss[k]];
      NumberedMore(keys, vals, ss[..k], ts, alter, ss[k], num.table.keys, v, s);
    } else {
      TracedAgain(keys, vals, ss[..k], ts, num.table.keys);
      ConstKept(keys, num.table.keys, val[A_ATOM]);
      ConstKept(keys, num.table.keys, val[X_ATOM]);
    }
  }

  /** All statements of a block, from the numbers val on. */
  method OptStmts(num: Numberer, ss: seq<Stmt>, val: Vals, alter: bool)
      returns (ok: bool, ts: seq<Stmt>, val': Vals, known: bool, ghost vals: seq<Vals>)
    requires num.table.Valid() && InRange(num.table.keys, val)
    requires num.table.curval + 2 * |Live(ss)| + 2 < num.table.maxval
    modifies num.table, num.table.hashtbl, num.table.vmap
    ensures num.table.Valid() && old(num.table.keys) <= num.table.keys
    ensures |num.table.keys| <= |old(num.table.keys)| + 2 * |Live(ss)|
    ensures ok ==>
      StmtsNumbered(num.table.keys, vals, ss, ts, alter) && vals[0] == val && vals[|ss|] == val'
      && (known <==> AllKnown(vals, ss))
    ensures !alter ==> ok
    ensures !ok ==> HasDivision(ss) && StopsAfter(num.table.keys, vals, ss, ts) && vals[0] == val
  {
    hide StepAt, KnownReads, BlockRewritten;
    NothingRewritten(num.table.keys, val);
    ok, ts, val', known, vals := true, [], val, true, [val];
    var k := 0;
    while k < |ss|
      invariant 0 <= k <= |ss| && num.table.Valid() && old(num.table.keys) <= num.table.keys
      invariant |num.table.keys| <= |old(num.table.keys)| + 2 * |Live(ss[..k])|
      invariant StmtsNumbered(num.table.keys, vals, ss[..k], ts, alter) && vals[0] == val && vals[k] == val'
      invariant known <==> AllKnown(vals, ss[..k])
    {
      LiveGrow(ss, k);
      var s, v;
      var knows := KnownReads(val', ss[k]);
      ok, s, v := OptNext(num, ss, k, ts, val', alter, vals);
      if !ok {
        return;
      }
      assert ss[..k + 1] == ss[..k] + [ss[k]];
      KnownGrow(vals, ss[..k], ss[k], v);
      ts, val', known, vals := ts + [s], v, known && knows, vals + [v];
      k := k + 1;
    }
    assert ss[..k] == ss;
  }

  lemma NothingRewritten(K: seq<Key>, val: Vals)
    ensures BlockRewritten(K, [val], [], [])
  {
  }

  lemma KnownGrow(vals: seq<Vals>, ss: seq<Stmt>, s: Stmt, v: Vals)
    requires |vals| == |ss| + 1 && (forall i | 0 <= i < |vals| :: |vals[i]| == N_ATOMS) && |v| == N_ATOMS
    ensures AllKnown(vals + [v], ss + [s]) <==> AllKnown(vals, ss) && KnownReads(vals[|ss|], s)
  {
    if AllKnown(vals + [v], ss + [s]) {
      forall i | 0 <= i < |ss| ensures KnownReads(vals[i], ss[i]) {
        assert KnownReads((vals + [v])[i], (ss + [s])[i]);
      }
      assert KnownReads((vals + [v])[|ss|], (ss + [s])[|ss|]);
    }
  }

  // -------------------------------------------------------- the flow graph

  /** The numbers on entry are those of the block before, or unknown. */
  predicate Inherits(out: Vals, entry: Vals)
    requires |out| == |entry| == N_ATOMS
  {
    forall a | 0 <= a < N_ATOMS :: entry[a] == 0 || entry[a] == out[a]
  }

  /** What the pass has found for the graph: for each block the numbers at every
      point (the last are those on exit), and that of the branch operand. */
  datatype Found = Found(traces: seq<seq<Vals>>, val: seq<Vals>, oval: seq<nat>)

  /** Block b has been gone through; its branch has not changed. */
  ghost predicate BlockFound(K: seq<Key>, orig: Pool, pool: Pool, f: Found, b: int)
    requires Ordered(K)
  {
    && 0 <= b < |orig| == |pool| == |f.traces| == |f.val| == |f.oval|
    && pool[b].s == orig[b].s && pool[b].jt == orig[b].jt && pool[b].jf == orig[b].jf
    && Traced(K, f.traces[b], orig[b].stmts, pool[b].stmts) && f.val[b] == f.traces[b][|orig[b].stmts|]
    && match orig[b].s
       case Jmp(JmpK(_, k)) => IsConst(K, f.oval[b], k)
       case Jmp(JmpX(_)) => f.oval[b] == f.val[b][X_ATOM]
       case Ret(k) => IsConst(K, f.oval[b], k)
  }

  /** On entry to c the block b, if it leads there, agrees with the numbers. */
  ghost predicate EntryFrom(orig: Pool, f: Found, b: int, c: int) {
    && 0 <= b < |orig| == |f.val| == |f.traces| && 0 <= c < |orig| && |f.val[b]| == N_ATOMS
    && f.traces[c] != [] && |f.traces[c][0]| == N_ATOMS
    && (orig[b].s.Jmp? && (orig[b].jt == c || orig[b].jf == c) ==> Inherits(f.val[b], f.traces[c][0]))
  }

  /** All blocks that lead to c end with number v for atom a. */
  ghost predicate AllSend(orig: Pool, m: set<int>, f: Found, c: int, a: int, v: nat) {
    && (exists b :: Leads(orig, m, b, c))
    && forall b {:trigger Leads(orig, m, b, c)} | Leads(orig, m, b, c) ::
         0 <= b < |f.val| && 0 <= a < |f.val[b]| && f.val[b][a] == v
  }

  /** What all of them agree on is what c begins with. */
  ghost predicate Agreed(orig: Pool, m: set<int>, f: Found, c: int) {
    && 0 <= c < |f.traces| && f.traces[c] != [] && |f.traces[c][0]| == N_ATOMS
    && forall a, v {:trigger AllSend(orig, m, f, c, a, v)} | 0 <= a < N_ATOMS && AllSend(orig, m, f, c, a, v) ::
         f.traces[c][0][a] == v
  }

  /** So it is for the blocks of done, and those that lead to them are of done. */
  ghost predicate AllAgreed(orig: Pool, m: set<int>, f: Found, done: set<int>) {
    && (forall c {:trigger Agreed(orig, m, f, c)} | c in done :: Agreed(orig, m, f, c))
    && forall b, c {:trigger Leads(orig, m, b, c)} | c in done && Leads(orig, m, b, c) :: b in done
  }

  /** The blocks of done have been rewritten. */
  ghost predicate AllRewritten(K: seq<Key>, orig: Pool, pool: Pool, f: Found, done: set<int>) {
    && |f.traces| == |orig| == |pool|
    && forall b | b in done && 0 <= b < |orig| :: BlockRewritten(K, f.traces[b], orig[b].stmts, pool[b].stmts)
  }

  ghost predicate AllFound(K: seq<Key>, orig: Pool, pool: Pool, m: set<int>, f: Found)
    requires Ordered(K)
  {
    && (forall b {:trigger BlockFound(K, orig, pool, f, b)} | b in m :: BlockFound(K, orig, pool, f, b))
    && forall b, c {:trigger EntryFrom(orig, f, b, c)} | b in m && c in m :: EntryFrom(orig, f, b, c)
  }

  /** What is found for the graph: numbers of all blocks of m, none of them
      before the root; blocks elsewhere are as they were. */
  ghost predicate NumbersFound(K: seq<Key>, pool: Pool, pool': Pool, m: set<int>, root: int, val: seq<Vals>,
      oval: seq<nat>, f: Found) {
    && Ordered(K) && NoDups(K) && AllFound(K, pool, pool', m, f) && f.val == val && f.oval == oval
    && |val| == |oval| == |f.traces| == |pool'| == |pool| && 0 <= root < |pool| && AllAgreed(pool, m, f, m)
    && f.traces[root] != [] && f.traces[root][0] == seq(N_ATOMS, a => 0)
    && forall b | 0 <= b < |pool| && b !in m :: pool'[b] == pool[b]
  }

  /** Block b of the graph knows what it reads. */
  ghost predicate BlockKnown(orig: Pool, f: Found, b: int) {
    && 0 <= b < |orig| == |f.traces| && |f.traces[b]| == |orig[b].stmts| + 1
    && (forall i | 0 <= i < |f.traces[b]| :: |f.traces[b][i]| == N_ATOMS)
    && AllKnown(f.traces[b], orig[b].stmts)
  }

  /** No statement of the blocks of m reads an atom whose number is 0. */
  ghost predicate GraphKnown(orig: Pool, m: set<int>, f: Found) {
    forall b {:trigger BlockKnown(orig, f, b)} | b in m :: BlockKnown(orig, f, b)
  }

  lemma FoundRanked(K: seq<Key>, orig: Pool, pool: Pool, r: map<int, nat>, m: set<int>, f: Found)
    requires Ordered(K) && Ranked(GraphOf(orig), r) && AllFound(K, orig, pool, m, f) && |pool| == |orig|
    requires forall b | 0 <= b < |orig| && b !in m :: pool[b] == orig[b]
    ensures Ranked(GraphOf(pool), r)
  {
    var g, g' := GraphOf(orig), GraphOf(pool);
    forall b | b in g' ensures Falls(g', r, b) {
      assert g[b] == NodeOf(orig[b]) && g'[b] == NodeOf(pool[b]) && Falls(g, r, b);
      assert b in m ==> BlockFound(K, orig, pool, f, b);
    }
  }

  /** On every run, from any block: if the numbers on entry are right, they are
      right at every block that the run visits, and the rewritten graph gives
      the result that the original gives. */
  lemma {:induction false} FoundRun(K: seq<Key>, orig: Pool, pool: Pool, r: map<int, nat>, m: set<int>, f: Found,
                                    b: int, p: Packet, st: State)
    requires Ordered(K) && Ranked(GraphOf(orig), r) && Ranked(GraphOf(pool), r) && Covered(orig, m)
    requires AllFound(K, orig, pool, m, f) && GraphKnown(orig, m, f) && b in m && 0 <= b < |orig|
    requires BlockFound(K, orig, pool, f, b) && Consistent(K, f.traces[b][0], p, st)
    requires Run(GraphOf(orig), r, b, p, st).Some?
    ensures Run(GraphOf(pool), r, b, p, st) == Run(GraphOf(orig), r, b, p, st)
    decreases r[b]
  {
    var g, g' := GraphOf(orig), GraphOf(pool);
    assert g[b] == NodeOf(orig[b]) && g'[b] == NodeOf(pool[b]) && Falls(g, r, b);
    match orig[b].s
    case Ret(_) =>
    case Jmp(c) =>
      assert BlockKnown(orig, f, b);
      BlockKeeps(K, f.traces[b], orig[b].stmts, pool[b].stmts, p, st);
      var e := ExecAll(orig[b].stmts, p, st).value;
      var y := if Taken(c, e) then orig[b].jt else orig[b].jf;
      assert BlockFound(K, orig, pool, f, y) && EntryFrom(orig, f, b, y);
      InheritsRight(K, f.val[b], f.traces[y][0], p, e);
      FoundRun(K, orig, pool, r, m, f, y, p, e);
  }

  lemma InheritsRight(K: seq<Key>, out: Vals, entry: Vals, p: Packet, st: State)
    requires Ordered(K) && |out| == |entry| == N_ATOMS && Inherits(out, entry) && Consistent(K, out, p, st)
    ensures Consistent(K, entry, p, st)
  {
    forall a | 0 <= a < N_ATOMS && entry[a] != 0 ensures Right(K, entry, p, st, a) {
      assert Right(K, out, p, st, a);
    }
  }

  /** A run from b in state st comes to block x in state end. */
  ghost predicate Comes(g: Graph<int>, r: map<int, nat>, b: int, p: Packet, st: State, x: int, end: State)
    requires Ranked(g, r) && b in g
    decreases r[b]
  {
    assert Falls(g, r, b);
    (x == b && end == st) ||
    (g[b].Fork? && ExecAll(g[b].stmts, p, st).Some? &&
     var e := ExecAll(g[b].stmts, p, st).value;
     Comes(g, r, if Taken(g[b].cond, e) then g[b].jt else g[b].jf, p, e, x, end))
  }

  /** Wherever a run comes, an atom with a number holds what it denotes. */
  lemma {:induction false} FoundRight(K: seq<Key>, orig: Pool, pool: Pool, r: map<int, nat>, m: set<int>, f: Found,
                                      b: int, p: Packet, st: State, x: int, end: State)
    requires Ordered(K) && Ranked(GraphOf(orig), r) && Covered(orig, m) && AllFound(K, orig, pool, m, f)
      && GraphKnown(orig, m, f)
    requires b in m && 0 <= b < |orig| && BlockFound(K, orig, pool, f, b) && Consistent(K, f.traces[b][0], p, st)
    requires Comes(GraphOf(orig), r, b, p, st, x, end)
    ensures BlockFound(K, orig, pool, f, x) && Consistent(K, f.traces[x][0], p, end)
    decreases r[b]
  {
    var g := GraphOf(orig);
    assert g[b] == NodeOf(orig[b]) && Falls(g, r, b);
    if !(x == b && end == st) {
      assert BlockKnown(orig, f, b);
      BlockKeeps(K, f.traces[b], orig[b].stmts, pool[b].stmts, p, st);
      var e := ExecAll(orig[b].stmts, p, st).value;
      var y := if Taken(orig[b].s.cond, e) then orig[b].jt else orig[b].jf;
      assert BlockFound(K, orig, pool, f, y) && EntryFrom(orig, f, b, y);
      InheritsRight(K, f.val[b], f.traces[y][0], p, e);
      FoundRight(K, orig, pool, r, m, f, y, p, e, x, end);
    }
  }

  // ------------------------------------------- numbers of self-contained blocks

  /** The block tests only what it has loaded itself. */
  predicate TestsOwn(b: Block) {
    LiveAt(b.stmts, Atoms(BranchUse(b.s))) == {}
  }

  /** The numbers on exit from such a block are right, whatever the state on
      entry was. */
  lemma OwnRight(K: seq<Key>, orig: Pool, pool: Pool, f: Found, b: int, p: Packet, st: State)
    requires Ordered(K) && BlockFound(K, orig, pool, f, b) && TestsOwn(orig[b]) && orig[b].s.Jmp?
    requires ExecAll(orig[b].stmts, p, st).Some?
    ensures Den(K, f.val[b][A_ATOM], p) == Some(ExecAll(orig[b].stmts, p, st).value[A_ATOM])
    ensures orig[b].s.cond.JmpX? ==> Den(K, f.val[b][X_ATOM], p) == Some(ExecAll(orig[b].stmts, p, st).value[X_ATOM])
  {
    var e, E := ExecAll(orig[b].stmts, p, st).value, Atoms(BranchUse(orig[b].s));
    BlockLive(K, f.traces[b], orig[b].stmts, pool[b].stmts, E, p, st);
    assert Right(K, f.val[b], p, e, A_ATOM);
    assert orig[b].s.cond.JmpX? ==> Right(K, f.val[b], p, e, X_ATOM);
  }

  // --------------------------------------------- how many numbers are needed

  /** per numbers for each statement that is not deleted and base for each
      block, over the blocks of m below n. */
  function Need(pool: Pool, m: set<int>, n: nat, per: nat, base: nat): nat
    requires n <= |pool|
  {
    if n == 0 then 0 else
    Need(pool, m, n - 1, per, base) + if n - 1 in m then per * |Live(pool[n - 1].stmts)| + base else 0
  }

  lemma {:induction false} NeedAdd(pool: Pool, m: set<int>, n: nat, per: nat, base: nat, b: int)
    requires n <= |pool| && 0 <= b < |pool| && b !in m
    ensures Need(pool, m + {b}, n, per, base) == Need(pool, m, n, per, base) + if b < n
      then per * |Live(pool[b].stmts)| + base else 0
  {
    if n > 0 {
      NeedAdd(pool, m, n - 1, per, base, b);
    }
  }

  lemma {:induction false} NeedGrows(pool: Pool, a: set<int>, b: set<int>, n: nat)
    requires n <= |pool| && a <= b
    ensures Need(pool, a, n, 2, 1) <= Need(pool, b, n, 3, 3)
  {
    if n > 0 {
      NeedGrows(pool, a, b, n - 1);
    }
  }

  /** Two numbers for each statement and one for each block: before block b is
      gone through there is room for its own, and some to spare. */
  lemma RoomFor(pool: Pool, m: set<int>, done: set<int>, b: int)
    requires done <= m && b in m && b !in done && 0 <= b < |pool|
    ensures Need(pool, done, |pool|, 2, 1) + 2 * |Live(pool[b].stmts)| + 3 <= Need(pool, m, |pool|, 3, 3)
    ensures Need(pool, done + {b}, |pool|, 2, 1) == Need(pool, done, |pool|, 2, 1) + 2 * |Live(pool[b].stmts)| + 1
  {
    var rest := m - {b};
    assert rest + {b} == m;
    NeedGrows(pool, done, rest, |pool|);
    NeedAdd(pool, rest, |pool|, 3, 3, b);
    NeedAdd(pool, done, |pool|, 2, 1, b);
  }

  lemma BlockFoundAgain(keys: seq<Key>, K: seq<Key>, orig: Pool, pool: Pool, f: Found, pool': Pool, f': Found, x: int,
      b: int)
    requires Ordered(keys) && Ordered(K) && keys <= K && BlockFound(keys, orig, pool, f, x) && x != b && 0 <= b < |orig|
    requires |pool'| == |pool| && pool'[x] == pool[x] && |f'.traces| == |f'.val| == |f'.oval| == |orig|
    requires f'.traces[x] == f.traces[x] && f'.val[x] == f.val[x] && f'.oval[x] == f.oval[x]
    ensures BlockFound(K, orig, pool', f', x)
  {
    TracedAgain(keys, f.traces[x], orig[x].stmts, pool[x].stmts, K);
  }

  /** What is found for one more block does not change what was agreed before. */
  lemma AgreedGrow(orig: Pool, m: set<int>, f: Found, done: set<int>, b: int, vals: seq<Vals>, v: Vals, o: nat)
    requires 0 <= b < |f.traces| == |f.val| == |f.oval| && b !in done && AllAgreed(orig, m, f, done)
    requires Agreed(orig, m, WithBlock(f, b, vals, v, o), b)
    requires forall x {:trigger Leads(orig, m, x, b)} | Leads(orig, m, x, b) :: x in done
    ensures AllAgreed(orig, m, WithBlock(f, b, vals, v, o), done + {b})
  {
    var f' := WithBlock(f, b, vals, v, o);
    forall c | c in done ensures Agreed(orig, m, f', c) {
      assert Agreed(orig, m, f, c);
      forall a, w | 0 <= a < N_ATOMS && AllSend(orig, m, f', c, a, w) ensures f'.traces[c][0][a] == w {
        assert forall x {:trigger Leads(orig, m, x, c)} | Leads(orig, m, x, c) :: f'.val[x] == f.val[x];
        assert AllSend(orig, m, f, c, a, w);
      }
    }
  }

  lemma RewrittenMore(keys: seq<Key>, K: seq<Key>, orig: Pool, pool: Pool, f: Found, done: set<int>, b: int,
      pool': Pool, vals: seq<Vals>, v: Vals, o: nat)
    requires Ordered(keys) && keys <= K && AllFound(keys, orig, pool, done, f)
      && AllRewritten(keys, orig, pool, f, done)
    requires |pool'| == |pool| == |orig| == |f.traces| == |f.val| == |f.oval| && 0 <= b < |orig| && b !in done
    requires forall x | 0 <= x < |orig| && x != b :: pool'[x] == pool[x]
    requires BlockRewritten(K, vals, orig[b].stmts, pool'[b].stmts)
    ensures AllRewritten(K, orig, pool', WithBlock(f, b, vals, v, o), done + {b})
  {
    hide BlockRewritten, StepAt;
    forall x | x in done && 0 <= x < |orig| ensures BlockRewritten(K, f.traces[x], orig[x].stmts, pool'[x].stmts) {
      assert BlockFound(keys, orig, pool, f, x);
      RewrittenKept(keys, K, f.traces[x], orig[x].stmts, pool[x].stmts);
    }
  }

  lemma SettledMore(keys: seq<Key>, K: seq<Key>, orig: Pool, m: set<int>, pool: Pool, f: Found, done: set<int>, b: int,
      pool': Pool, ts: seq<Stmt>, vals: seq<Vals>, v: Vals, o: nat, alter: bool)
    requires Ordered(keys) && Ordered(K) && keys <= K && AllFound(keys, orig, pool, done, f)
    requires |pool| == |orig| == |f.traces| == |f.val| == |f.oval| && 0 <= b < |orig| && b !in done
    requires AllAgreed(orig, m, f, done) && (alter ==> AllRewritten(keys, orig, pool, f, done))
    requires forall x {:trigger Leads(orig, m, x, b)} | Leads(orig, m, x, b) :: x in done
    requires ComesIn(orig, m, f, b, vals) && StmtsNumbered(K, vals, orig[b].stmts, ts, alter)
    requires pool' == pool[b := pool[b].(stmts := ts)]
    ensures AllAgreed(orig, m, WithBlock(f, b, vals, v, o), done + {b})
    ensures alter ==> AllRewritten(K, orig, pool', WithBlock(f, b, vals, v, o), done + {b})
  {
    hide ComesIn, AllAgreed, AllFound, Traced, BlockRewritten, AllRewritten, Leads;
    ComesInAgreed(orig, m, f, done, b, vals, v, o);
    AgreedGrow(orig, m, f, done, b, vals, v, o);
    if alter {
      RewrittenMore(keys, K, orig, pool, f, done, b, pool', vals, v, o);
    }
  }

  function WithBlock(f: Found, b: int, vals: seq<Vals>, v: Vals, o: nat): Found
    requires 0 <= b < |f.traces| == |f.val| == |f.oval|
  {
    Found(f.traces[b := vals], f.val[b := v], f.oval[b := o])
  }

  lemma FoundGrow(keys: seq<Key>, K: seq<Key>, orig: Pool, pool: Pool, f: Found, done: set<int>, b: int,
                  pool': Pool, vals: seq<Vals>, v: Vals, o: nat)
    requires Ordered(keys) && Ordered(K) && keys <= K && AllFound(keys, orig, pool, done, f) && b !in done
      && 0 <= b < |orig|
    requires |pool'| == |pool| == |orig| == |f.traces| == |f.val| == |f.oval|
    requires forall x | 0 <= x < |orig| && x != b :: pool'[x] == pool[x]
    requires BlockFound(K, orig, pool', WithBlock(f, b, vals, v, o), b)
    requires forall c | c in done + {b} && orig[b].s.Jmp? :: orig[b].jt != c && orig[b].jf != c
    requires forall x | x in done && 0 <= x < |orig| && orig[x].s.Jmp? && (orig[x].jt == b || orig[x].jf == b) ::
      |f.val[x]| == N_ATOMS && vals != [] && |vals[0]| == N_ATOMS && Inherits(f.val[x], vals[0])
    ensures AllFound(K, orig, pool', done + {b}, WithBlock(f, b, vals, v, o))
  {
    var f' := WithBlock(f, b, vals, v, o);
    forall x | x in done + {b} ensures BlockFound(K, orig, pool', f', x) {
      if x != b {
        assert BlockFound(keys, orig, pool, f, x);
        BlockFoundAgain(keys, K, orig, pool, f, pool', f', x, b);
      }
    }
    forall x, c | x in done + {b} && c in done + {b} ensures EntryFrom(orig, f', x, c) {
      assert BlockFound(K, orig, pool', f', x) && BlockFound(K, orig, pool', f', c);
      assert x != b && c != b ==> EntryFrom(orig, f, x, c);
    }
  }

  lemma KnownAdd(orig: Pool, done: set<int>, f: Found, b: int, vals: seq<Vals>, v: Vals, o: nat)
    requires 0 <= b < |orig| == |f.traces| == |f.val| == |f.oval| && b !in done
    requires |vals| == |orig[b].stmts| + 1 && forall i | 0 <= i < |vals| :: |vals[i]| == N_ATOMS
    ensures GraphKnown(orig, done + {b}, WithBlock(f, b, vals, v, o)) <==>
      GraphKnown(orig, done, f) && AllKnown(vals, orig[b].stmts)
  {
    var f' := WithBlock(f, b, vals, v, o);
    forall x | x in done ensures BlockKnown(orig, f', x) <==> BlockKnown(orig, f, x) {
    }
    assert BlockKnown(orig, f', b) <==> AllKnown(vals, orig[b].stmts);
    if GraphKnown(orig, done + {b}, f') {
      forall x | x in done ensures BlockKnown(orig, f, x) {
        assert BlockKnown(orig, f', x);
      }
    }
  }

  /** Where the pass has stopped: the blocks of done have been gone through, and in
      block b the statement after ts divides a constant by the constant 0, by the
      numbers that come in. */
  datatype Stop = Stop(K: seq<Key>, pool: Pool, f: Found, done: set<int>, b: int, vals: seq<Vals>, ts: seq<Stmt>)

  ghost predicate Stops(s: Stop, orig: Pool, m: set<int>) {
    && Ordered(s.K) && AllFound(s.K, orig, s.pool, s.done, s.f) && AllAgreed(orig, m, s.f, s.done)
    && s.b in m && s.b !in s.done && 0 <= s.b < |orig| == |s.f.val|
    && (forall x {:trigger Leads(orig, m, x, s.b)} | Leads(orig, m, x, s.b) :: x in s.done)
    && ComesIn(orig, m, s.f, s.b, s.vals) && StopsAfter(s.K, s.vals, orig[s.b].stmts, s.ts)
  }

  /** The numbers with which block b begins. */
  ghost predicate ComesIn(orig: Pool, m: set<int>, f: Found, b: int, vals: seq<Vals>) {
    && vals != [] && |vals[0]| == N_ATOMS
    && (forall x {:trigger Leads(orig, m, x, b)} | Leads(orig, m, x, b) ::
         0 <= x < |f.val| && |f.val[x]| == N_ATOMS && Inherits(f.val[x], vals[0]))
    && (forall a, v {:trigger AllSend(orig, m, f, b, a, v)} | 0 <= a < N_ATOMS && AllSend(orig, m, f, b, a, v) ::
         vals[0][a] == v)
    && ((forall x {:trigger Leads(orig, m, x, b)} :: !Leads(orig, m, x, b)) ==> vals[0] == seq(N_ATOMS, a => 0))
  }

  lemma ComesInAgreed(orig: Pool, m: set<int>, f: Found, done: set<int>, b: int, vals: seq<Vals>, v: Vals, o: nat)
    requires 0 <= b < |f.traces| == |f.val| == |f.oval| && b !in done && ComesIn(orig, m, f, b, vals)
    requires forall x {:trigger Leads(orig, m, x, b)} | Leads(orig, m, x, b) :: x in done
    ensures Agreed(orig, m, WithBlock(f, b, vals, v, o), b)
  {
    var f' := WithBlock(f, b, vals, v, o);
    forall a, w | 0 <= a < N_ATOMS && AllSend(orig, m, f', b, a, w) ensures vals[0][a] == w {
      assert forall x {:trigger Leads(orig, m, x, b)} | Leads(orig, m, x, b) :: f'.val[x] == f.val[x];
      assert AllSend(orig, m, f, b, a, w);
    }
  }

  /** Entering edges and the blocks that lead to b. */
  lemma EdgeLeads(orig: Pool, m: set<int>, b: int, l: seq<int>, e: int)
    requires InEdges(orig, m, b, l) && e in l
    ensures Leads(orig, m, PredOf(orig, e), b)
  {
  }

  lemma LeadsByEdge(orig: Pool, m: set<int>, b: int, l: seq<int>, x: int) returns (e: int)
    requires InEdges(orig, m, b, l) && Leads(orig, m, x, b)
    ensures e in l && PredOf(orig, e) == x
  {
    assert PredOf(orig, x) == x && SuccOf(orig, x) == orig[x].jt;
    assert PredOf(orig, |orig| + x) == x && SuccOf(orig, |orig| + x) == orig[x].jf;
    e := if orig[x].jt == b then x else |orig| + x;
  }

  lemma LeadsFrom(orig: Pool, m: set<int>, b: int, l: seq<int>, done: set<int>)
    requires InEdges(orig, m, b, l) && forall e | e in l :: PredOf(orig, e) in done
    ensures forall x {:trigger Leads(orig, m, x, b)} | Leads(orig, m, x, b) :: x in done
  {
    forall x | Leads(orig, m, x, b) ensures x in done {
      var e := LeadsByEdge(orig, m, b, l, x);
    }
  }

  lemma EntryInherits(orig: Pool, m: set<int>, val: seq<Vals>, b: int, l: seq<int>, entry: Vals)
    requires InEdges(orig, m, b, l) && |entry| == N_ATOMS
    requires forall e | e in l ::
      0 <= PredOf(orig, e) < |val| && |val[PredOf(orig, e)]| == N_ATOMS && Inherits(val[PredOf(orig, e)], entry)
    ensures forall x {:trigger Leads(orig, m, x, b)} | Leads(orig, m, x, b) ::
      0 <= x < |val| && |val[x]| == N_ATOMS && Inherits(val[x], entry)
  {
    hide Inherits;
    forall x | Leads(orig, m, x, b) ensures 0 <= x < |val| && |val[x]| == N_ATOMS && Inherits(val[x], entry) {
      var e := LeadsByEdge(orig, m, b, l, x);
    }
  }

  lemma EntryUnknown(orig: Pool, m: set<int>, b: int, l: seq<int>, entry: Vals)
    requires InEdges(orig, m, b, l) && |entry| == N_ATOMS
    requires l == [] ==> forall a | 0 <= a < N_ATOMS :: entry[a] == 0
    requires forall x {:trigger Leads(orig, m, x, b)} :: !Leads(orig, m, x, b)
    ensures entry == seq(N_ATOMS, a => 0)
  {
    if l != [] {
      EdgeLeads(orig, m, b, l, l[0]);
    }
  }

  // ---------------------------------------------------------------- the pass

  class Propagator {
    const orig: Pool
    const level: seq<nat>
    const levels: seq<seq<int>>
    const inEdges: seq<seq<int>>
    const num: Numberer
    const root: int
    ghost const m: set<int>
    var pool: Pool
    var val: seq<Vals>
    var oval: seq<nat>
    var known: bool
    ghost var traces: seq<seq<Vals>>

    constructor (pool: Pool, level: seq<nat>, levels: seq<seq<int>>, inEdges: seq<seq<int>>, num: Numberer, root: int,
        ghost m: set<int>)
      ensures this.orig == this.pool == pool && this.level == level && this.levels == levels && this.inEdges == inEdges
      ensures this.num == num && this.root == root && this.m == m && known
      ensures |val| == |oval| == |traces| == |pool|
    {
      this.orig, this.pool, this.level, this.levels, this.inEdges, this.num, this.root, this.m :=
        pool, pool, level, levels, inEdges, num, root, m;
      val, oval, traces := seq(|pool|, i => []), seq(|pool|, i => 0), seq(|pool|, i => []);
      known := true;
    }

    /** The blocks of `done`, with a block all that lead to it, are found. */
    ghost predicate Valid(done: set<int>)
      reads this, num, num.table, num.table.hashtbl, num.table.vmap
    {
      && num.table.Valid() && |pool| == |orig| == |val| == |oval| == |traces| == |inEdges|
      && num.table.maxval == Need(orig, m, |orig|, 3, 3) && num.table.curval <= Need(orig, done, |orig|, 2, 1)
      && AllFound(num.table.keys, orig, pool, done, Found(traces, val, oval))
      && (known <==> GraphKnown(orig, done, Found(traces, val, oval)))
      && forall b | 0 <= b < |orig| && b !in done :: pool[b] == orig[b]
    }

    /** What blocks begin with is agreed on, and they are rewritten if they are to
        be. */
    ghost predicate Settled(done: set<int>, alter: bool)
      reads this, num, num.table, num.table.hashtbl, num.table.vmap
      requires num.table.Valid()
    {
      && AllAgreed(orig, m, Found(traces, val, oval), done)
      && (alter ==> AllRewritten(num.table.keys, orig, pool, Found(traces, val, oval), done))
    }

    /** The blocks that the first k of the edges leave agree on number v for atom a. */
    ghost predicate Common(l: seq<int>, k: nat, a: int, v: nat)
      reads this
    {
      forall j | 0 <= j < k ::
        j < |l| && 0 <= PredOf(orig, l[j]) < |val| && 0 <= a < |val[PredOf(orig, l[j])]|
        && val[PredOf(orig, l[j])][a] == v
    }

    /** The numbers on which all blocks before b agree; without any, nothing is
        known. */
    method EntryValues(b: int, ghost done: set<int>) returns (entry: Vals)
      requires Valid(done) && 0 <= b < |orig| && InEdges(orig, m, b, inEdges[b])
      requires forall e | e in inEdges[b] :: PredOf(orig, e) in done
      ensures InRange(num.table.keys, entry)
      ensures forall e | e in inEdges[b] ::
        0 <= PredOf(orig, e) < |val| && |val[PredOf(orig, e)]| == N_ATOMS && Inherits(val[PredOf(orig, e)], entry)
      ensures inEdges[b] == [] ==> forall a | 0 <= a < N_ATOMS :: entry[a] == 0
      ensures inEdges[b] != [] ==>
        forall a, v {:trigger Common(inEdges[b], |inEdges[b]|, a, v)} | 0 <= a < N_ATOMS
          && Common(inEdges[b], |inEdges[b]|, a, v) :: entry[a] == v
    {
      var l := inEdges[b];
      if l == [] {
        return seq(N_ATOMS, a => 0);
      }
      forall e | e in l ensures 0 <= PredOf(orig, e) < |val| && InRange(num.table.keys, val[PredOf(orig, e)]) {
        assert BlockFound(num.table.keys, orig, pool, Found(traces, val, oval), PredOf(orig, e));
      }
      assert l[0] in l;
      entry := val[PredOf(pool, l[0])];
      var k := 1;
      while k < |l|
        invariant 1 <= k <= |l| && InRange(num.table.keys, entry)
        invariant forall j | 0 <= j < k :: Inherits(val[PredOf(orig, l[j])], entry)
        invariant forall a, v {:trigger Common(l, k, a, v)} | 0 <= a < N_ATOMS && Common(l, k, a, v) :: entry[a] == v
      {
        assert l[k] in l;
        ghost var was, next := entry, k + 1;
        entry := Merge(entry, val[PredOf(pool, l[k])]);
        forall a, v | 0 <= a < N_ATOMS && Common(l, next, a, v) ensures entry[a] == v {
          assert Common(l, k, a, v) && was[a] == v;
        }
        k := k + 1;
      }
    }

    lemma EntrySent(b: int, entry: Vals, f: Found, a: int, v: nat)
      requires 0 <= b < |inEdges| && InEdges(orig, m, b, inEdges[b]) && |entry| == N_ATOMS && f.val == val
      requires inEdges[b] != [] ==>
        forall a, v {:trigger Common(inEdges[b], |inEdges[b]|, a, v)} | 0 <= a < N_ATOMS
          && Common(inEdges[b], |inEdges[b]|, a, v) :: entry[a] == v
      requires 0 <= a < N_ATOMS && AllSend(orig, m, f, b, a, v)
      ensures entry[a] == v
    {
      var l := inEdges[b];
      var x :| Leads(orig, m, x, b);
      var e := LeadsByEdge(orig, m, b, l, x);
      forall j | 0 <= j < |l| ensures 0 <= PredOf(orig, l[j]) < |val| && a < |val[PredOf(orig, l[j])]|
        && val[PredOf(orig, l[j])][a] == v
      {
        EdgeLeads(orig, m, b, l, l[j]);
      }
      hide InEdges, Leads;
      assert Common(l, |l|, a, v);
    }

    /** The numbers that come in, from the list of entering edges. */
    lemma EntryComesIn(b: int, entry: Vals, vals: seq<Vals>)
      requires 0 <= b < |inEdges| && InEdges(orig, m, b, inEdges[b]) && |entry| == N_ATOMS
      requires forall e | e in inEdges[b] ::
        0 <= PredOf(orig, e) < |val| && |val[PredOf(orig, e)]| == N_ATOMS && Inherits(val[PredOf(orig, e)], entry)
      requires inEdges[b] == [] ==> forall a | 0 <= a < N_ATOMS :: entry[a] == 0
      requires inEdges[b] != [] ==>
        forall a, v {:trigger Common(inEdges[b], |inEdges[b]|, a, v)} | 0 <= a < N_ATOMS
          && Common(inEdges[b], |inEdges[b]|, a, v) :: entry[a] == v
      requires vals != [] && vals[0] == entry
      ensures ComesIn(orig, m, Found(traces, val, oval), b, vals)
    {
      var l, f := inEdges[b], Found(traces, val, oval);
      EntryInherits(orig, m, val, b, l, entry);
      if forall x {:trigger Leads(orig, m, x, b)} :: !Leads(orig, m, x, b) {
        EntryUnknown(orig, m, b, l, entry);
      }
      hide InEdges, Leads, AllSend, Inherits;
      forall a, v | 0 <= a < N_ATOMS && AllSend(orig, m, f, b, a, v) ensures entry[a] == v {
        EntrySent(b, entry, f, a, v);
      }
    }

    static method Merge(entry: Vals, out: Vals) returns (entry': Vals)
      requires |entry| == |out| == N_ATOMS
      ensures |entry'| == N_ATOMS && Inherits(entry, entry') && Inherits(out, entry')
      ensures forall a | 0 <= a < N_ATOMS && entry[a] == out[a] :: entry'[a] == entry[a]
    {
      entry' := entry;
      var i := 0;
      while i < N_ATOMS
        invariant 0 <= i <= N_ATOMS && |entry'| == N_ATOMS
        invariant forall a | 0 <= a < i :: entry'[a] == if entry[a] == out[a] then entry[a] else 0
        invariant forall a | i <= a < N_ATOMS :: entry'[a] == entry[a]
      {
        if entry'[i] != out[i] {
          entry' := entry'[i := 0];
        }
        i := i + 1;
      }
    }

    /** The number of what the branch compares with. */
    method OptOperand(s: Branch, v: Vals) returns (o: nat)
      requires num.table.Valid() && num.table.curval + 1 < num.table.maxval && |v| == N_ATOMS
      modifies num.table, num.table.hashtbl, num.table.vmap
      ensures num.table.Valid() && old(num.table.keys) <= num.table.keys
        && |num.table.keys| <= |old(num.table.keys)| + 1
      ensures match s
        case Jmp(JmpK(_, k)) => IsConst(num.table.keys, o, k)
        case Jmp(JmpX(_)) => o == v[X_ATOM]
        case Ret(k) => IsConst(num.table.keys, o, k)
    {
      match s {
        case Jmp(JmpK(_, k)) => o := num.table.F(CImm, Const(k), Num(0));
        case Jmp(JmpX(_)) => o := v[X_ATOM];
        case Ret(k) => o := num.table.F(CImm, Const(k), Num(0));
      }
    }

    /** Block b, after all the blocks that lead to it. It fails only at a
        constant division by zero, and never when nothing is altered. */
    method OptBlk(b: int, alter: bool, ghost done: set<int>) returns (ok: bool, ghost stop: Stop)
      requires Valid(done) && done <= m && b in m && b !in done && 0 <= b < |orig| && InEdges(orig, m, b, inEdges[b])
      requires Settled(done, alter)
      requires forall e | e in inEdges[b] :: PredOf(orig, e) in done
      requires forall c | c in done + {b} && orig[b].s.Jmp? :: orig[b].jt != c && orig[b].jf != c
      modifies this`pool, this`val, this`oval, this`known, this`traces, num.table, num.table.hashtbl, num.table.vmap
      ensures ok ==> Valid(done + {b}) && Settled(done + {b}, alter) && (!alter ==> pool == old(pool))
      ensures ok && inEdges[b] == [] ==> traces[b] != [] && traces[b][0] == seq(N_ATOMS, a => 0)
      ensures ok ==> forall x | 0 <= x < |orig| && x != b :: traces[x] == old(traces)[x]
      ensures !alter ==> ok
      ensures !ok ==> HasDivision(orig[b].stmts) && Stops(stop, orig, m)
    {
      ghost var keys, f, was := num.table.keys, Found(traces, val, oval), pool;
      var ts, v, knows, o;
      ghost var vals;
      LeadsFrom(orig, m, b, inEdges[b], done);
      hide ComesIn, AllRewritten, AllAgreed, AllFound, Leads, InEdges, GraphKnown, StopsAfter, StmtsNumbered, Inherits,
        AllKnown;
      ok, ts, v, knows, o, vals := Number(b, alter, done);
      stop := Stop(num.table.keys, was, f, done, b, vals, ts);
      if ok {
        RoomFor(orig, m, done, b);
        Record(b, ts, v, knows, o, vals, keys, done, alter);
        SettledMore(keys, num.table.keys, orig, m, was, f, done, b, pool, ts, vals, v, o, alter);
      } else {
        FoundAgain(keys, orig, was, f, done, num.table.keys);
      }
    }

    /** The numbers of block b, and its statements as they are rewritten. */
    method Number(b: int, alter: bool, ghost done: set<int>)
        returns (ok: bool, ts: seq<Stmt>, v: Vals, knows: bool, o: nat, ghost vals: seq<Vals>)
      requires Valid(done) && done <= m && b in m && b !in done && 0 <= b < |orig| && InEdges(orig, m, b, inEdges[b])
      requires forall e | e in inEdges[b] :: PredOf(orig, e) in done
      modifies num.table, num.table.hashtbl, num.table.vmap
      ensures num.table.Valid() && old(num.table.keys) <= num.table.keys
      ensures |num.table.keys| <= |old(num.table.keys)| + 2 * |Live(orig[b].stmts)| + 1
      ensures ok ==>
        StmtsNumbered(num.table.keys, vals, orig[b].stmts, ts, alter) && v == vals[|orig[b].stmts|]
        && (knows <==> AllKnown(vals, orig[b].stmts))
      ensures ok ==> match orig[b].s
        case Jmp(JmpK(_, k)) => IsConst(num.table.keys, o, k)
        case Jmp(JmpX(_)) => o == v[X_ATOM]
        case Ret(k) => IsConst(num.table.keys, o, k)
      ensures ComesIn(orig, m, Found(traces, val, oval), b, vals)
      ensures forall x | x in done && 0 <= x < |orig| && orig[x].s.Jmp? && (orig[x].jt == b || orig[x].jf == b) ::
        |val[x]| == N_ATOMS && Inherits(val[x], vals[0])
      ensures inEdges[b] == [] ==> vals[0] == seq(N_ATOMS, a => 0)
      ensures !alter ==> ok
      ensures !ok ==> HasDivision(orig[b].stmts) && StopsAfter(num.table.keys, vals, orig[b].stmts, ts)
    {
      RoomFor(orig, m, done, b);
      var entry := EntryValues(b, done);
      hide ComesIn, StepAt, BlockRewritten, Inherits, Leads, InEdges, AllFound, GraphKnown;
      ok, ts, v, knows, vals := OptStmts(num, pool[b].stmts, entry, alter);
      EntryComesIn(b, entry, vals);
      InheritAll(orig, m, Found(traces, val, oval), done, b, vals);
      o := 0;
      if ok {
        ghost var keys1 := num.table.keys;
        o := OptOperand(pool[b].s, v);
        NumberedAgain(keys1, vals, orig[b].stmts, ts, alter, num.table.keys);
      }
    }

    /** Stores what was found for block b; keys was the table before. */
    method Record(b: int, ts: seq<Stmt>, v: Vals, knows: bool, o: nat, ghost vals: seq<Vals>, ghost keys: seq<Key>,
        ghost done: set<int>, ghost alter: bool)
      requires num.table.Valid() && |pool| == |orig| == |val| == |oval| == |traces| == |inEdges|
      requires num.table.maxval == Need(orig, m, |orig|, 3, 3)
        && num.table.curval <= Need(orig, done + {b}, |orig|, 2, 1)
      requires Ordered(keys) && keys <= num.table.keys && AllFound(keys, orig, pool, done, Found(traces, val, oval))
      requires known <==> GraphKnown(orig, done, Found(traces, val, oval))
      requires forall x | 0 <= x < |orig| && x !in done :: pool[x] == orig[x]
      requires 0 <= b < |orig| && b !in done && forall c | c in done + {b} && orig[b].s.Jmp? ::
        orig[b].jt != c && orig[b].jf != c
      requires StmtsNumbered(num.table.keys, vals, orig[b].stmts, ts, alter) && v == vals[|orig[b].stmts|]
        && (knows <==> AllKnown(vals, orig[b].stmts))
      requires match orig[b].s
        case Jmp(JmpK(_, k)) => IsConst(num.table.keys, o, k)
        case Jmp(JmpX(_)) => o == v[X_ATOM]
        case Ret(k) => IsConst(num.table.keys, o, k)
      requires forall x | x in done && 0 <= x < |orig| && orig[x].s.Jmp? && (orig[x].jt == b || orig[x].jf == b) ::
        |val[x]| == N_ATOMS && Inherits(val[x], vals[0])
      modifies this`pool, this`val, this`oval, this`known, this`traces
      ensures Valid(done + {b}) && pool == old(pool)[b := old(pool)[b].(stmts := ts)]
        && Found(traces, val, oval) == WithBlock(old(Found(traces, val, oval)), b, vals, v, o)
    {
      hide BlockRewritten, Inherits, StepAt, KnownReads;
      ghost var f, was := Found(traces, val, oval), pool;
      pool := pool[b := pool[b].(stmts := ts)];
      val, oval, traces := val[b := v], oval[b := o], traces[b := vals];
      known := known && knows;
      FoundGrow(keys, num.table.keys, orig, was, f, done, b, pool, vals, v, o);
      KnownAdd(orig, done, f, b, vals, v, o);
    }

    /** The sweep has come to position k of list i, since the pool was `was`. */
    ghost predicate Sweeping(i: int, k: int, done: set<int>, alter: bool, was: Pool)
      reads this, num, num.table, num.table.hashtbl, num.table.vmap
    {
      && Leveled(orig, level, levels, m, root) && Passed(level, levels, m, i, k, done) && Valid(done)
      && Settled(done, alter) && (forall b | 0 <= b < |orig| :: InEdges(orig, m, b, inEdges[b]))
      && (root in done ==> traces[root] != [] && traces[root][0] == seq(N_ATOMS, a => 0))
      && (!alter ==> pool == was)
    }

    method OptListed(i: nat, k: nat, alter: bool, ghost done: set<int>, ghost was: Pool)
        returns (ok: bool, ghost stop: Stop)
      requires Sweeping(i, k, done, alter, was) && i < |levels| && k < |levels[i]|
      modifies this`pool, this`val, this`oval, this`known, this`traces, num.table, num.table.hashtbl, num.table.vmap
      ensures ok ==> Sweeping(i, k + 1, done + {levels[i][k]}, alter, was)
      ensures !alter ==> ok
      ensures !ok ==> Stops(stop, orig, m) && 0 <= stop.b < |orig| && HasDivision(orig[stop.b].stmts)
    {
      var p := levels[i][k];
      PassedNext(orig, level, levels, m, root, i, k, done);
      ReadyToNumber(orig, level, levels, m, root, i, k, done, inEdges);
      hide AllAgreed, AllRewritten, AllFound, GraphKnown, Leveled, InEdges, Stops;
      ok, stop := OptBlk(p, alter, done);
    }

    /** All blocks from the root down. What is found is right on every run, and
        packets that get through see no difference, if no statement reads an
        atom that has no number. */
    method OptBlks(alter: bool, ghost r: map<int, nat>) returns (ok: bool, ghost stop: Stop)
      requires Leveled(orig, level, levels, m, root) && Ranked(GraphOf(orig), r) && Valid({})
      requires forall b | 0 <= b < |orig| :: InEdges(orig, m, b, inEdges[b])
      modifies this`pool, this`val, this`oval, this`known, this`traces, num.table, num.table.hashtbl, num.table.vmap
      ensures ok ==> Valid(m) && Settled(m, alter) && traces[root] != [] && traces[root][0] == seq(N_ATOMS, a => 0)
      ensures ok && known ==> Ranked(GraphOf(pool), r)
      ensures ok && known ==> forall p, st | Run(GraphOf(orig), r, root, p, st).Some? ::
        Run(GraphOf(pool), r, root, p, st) == Run(GraphOf(orig), r, root, p, st)
      ensures !alter ==> ok && pool == old(pool)
      ensures !ok ==> Stops(stop, orig, m) && 0 <= stop.b < |orig| && HasDivision(orig[stop.b].stmts)
    {
      ghost var done, was := {}, pool;
      stop := Stop([], pool, Found([], [], []), {}, 0, [], []);
      assert Passed(level, levels, m, level[root], 0, {});
      assert level[root] < |levels| && root in m;
      var i := level[root];
      while i >= 0
        invariant -1 <= i < |levels| && Sweeping(i, 0, done, alter, was)
      {
        var k := 0;
        while k < |levels[i]|
          invariant 0 <= k <= |levels[i]| && Sweeping(i, k, done, alter, was)
        {
          hide *;
          ok, stop := OptListed(i, k, alter, done, was);
          if !ok {
            return;
          }
          done := done + {levels[i][k]};
          k := k + 1;
        }
        ListSwept(i, done, alter, was);
        i := i - 1;
      }
      ok := true;
      Swept(done, alter, was);
      if known {
        Conclude(num.table.keys, orig, pool, r, m, Found(traces, val, oval), root, level, levels);
      }
    }

    lemma ListSwept(i: nat, done: set<int>, alter: bool, was: Pool)
      requires i < |levels| && Sweeping(i, |levels[i]|, done, alter, was)
      ensures Sweeping(i - 1, 0, done, alter, was)
    {
      PassedList(level, levels, m, i, done);
    }

    lemma Swept(done: set<int>, alter: bool, was: Pool)
      requires Sweeping(-1, 0, done, alter, was)
      ensures done == m && Valid(m) && Settled(m, alter) && root in m
      ensures traces[root] != [] && traces[root][0] == seq(N_ATOMS, a => 0) && (!alter ==> pool == was)
    {
      hide AllAgreed, AllRewritten, AllFound, GraphKnown, InEdges;
      assert done == m;
    }
  }

  lemma RootFirst(pool: Pool, level: seq<nat>, levels: seq<seq<int>>, m: set<int>, root: int, l: seq<int>)
    requires Leveled(pool, level, levels, m, root) && InEdges(pool, m, root, l)
    ensures l == []
  {
    var first := if l == [] then -1 else l[0];
    assert l != [] ==> first in l;
    forall e ensures e !in l {
      if 0 <= e < 2 * |pool| && PredOf(pool, e) in m {
        assert NodeLeveled(pool, level, m, PredOf(pool, e));
      }
    }
  }

  /** Nothing leads back to what has been passed, or to the root. */
  lemma ReadyToNumber(pool: Pool, level: seq<nat>, levels: seq<seq<int>>, m: set<int>, root: int, i: nat, k: nat,
      done: set<int>, inEdges: seq<seq<int>>)
    requires Leveled(pool, level, levels, m, root) && Passed(level, levels, m, i, k, done) && k < |levels[i]|
    requires |inEdges| == |pool| && forall b | 0 <= b < |pool| :: InEdges(pool, m, b, inEdges[b])
    ensures var b := levels[i][k];
      && b in m && b !in done && 0 <= b < |pool|
      && (forall e | e in inEdges[b] :: PredOf(pool, e) in done)
      && (forall c | c in done + {b} && pool[b].s.Jmp? :: pool[b].jt != c && pool[b].jf != c)
      && (b == root ==> inEdges[b] == [])
  {
    var b := levels[i][k];
    PassedNext(pool, level, levels, m, root, i, k, done);
    assert NodeLeveled(pool, level, m, b) && InEdges(pool, m, b, inEdges[b]);
    if b == root {
      RootFirst(pool, level, levels, m, root, inEdges[root]);
    }
    if pool[b].s.Jmp? {
      forall c | c in done + {b} ensures pool[b].jt != c && pool[b].jf != c {
        assert c in levels[i][..k] ==> c in levels[i];
        assert level[c] >= i > level[pool[b].jt];
      }
    }
  }

  lemma Conclude(K: seq<Key>, orig: Pool, pool: Pool, r: map<int, nat>, m: set<int>, f: Found, root: int,
      level: seq<nat>, levels: seq<seq<int>>)
    requires Ordered(K) && Leveled(orig, level, levels, m, root) && Ranked(GraphOf(orig), r) && |pool| == |orig|
    requires AllFound(K, orig, pool, m, f) && GraphKnown(orig, m, f)
    requires forall b | 0 <= b < |orig| && b !in m :: pool[b] == orig[b]
    requires |f.traces| == |orig| && f.traces[root] != [] && f.traces[root][0] == seq(N_ATOMS, a => 0)
    ensures Ranked(GraphOf(pool), r)
    ensures forall p, st | Run(GraphOf(orig), r, root, p, st).Some? ::
      Run(GraphOf(pool), r, root, p, st) == Run(GraphOf(orig), r, root, p, st)
  {
    FoundRanked(K, orig, pool, r, m, f);
    LeveledCovered(orig, level, levels, m, root);
    assert BlockFound(K, orig, pool, f, root);
    forall p, st | Run(GraphOf(orig), r, root, p, st).Some?
      ensures Run(GraphOf(pool), r, root, p, st) == Run(GraphOf(orig), r, root, p, st)
    {
      FoundRun(K, orig, pool, r, m, f, root, p, st);
    }
  }

  lemma InheritAll(orig: Pool, m: set<int>, f: Found, done: set<int>, b: int, vals: seq<Vals>)
    requires done <= m && ComesIn(orig, m, f, b, vals)
    ensures forall x | x in done && 0 <= x < |orig| && orig[x].s.Jmp? && (orig[x].jt == b || orig[x].jf == b) ::
      x < |f.val| && |f.val[x]| == N_ATOMS && Inherits(f.val[x], vals[0])
  {
    hide Inherits;
    forall x | x in done && 0 <= x < |orig| && orig[x].s.Jmp? && (orig[x].jt == b || orig[x].jf == b)
      ensures x < |f.val| && |f.val[x]| == N_ATOMS && Inherits(f.val[x], vals[0])
    {
      assert Leads(orig, m, x, b);
    }
  }

  lemma FoundAgain(keys: seq<Key>, orig: Pool, pool: Pool, f: Found, done: set<int>, K: seq<Key>)
    requires Ordered(keys) && Ordered(K) && keys <= K && AllFound(keys, orig, pool, done, f)
    ensures AllFound(K, orig, pool, done, f)
  {
    hide StepAt;
    forall x | x in done ensures BlockFound(K, orig, pool, f, x) {
      assert BlockFound(keys, orig, pool, f, x);
      TracedAgain(keys, f.traces[x], orig[x].stmts, pool[x].stmts, K);
    }
  }
}
