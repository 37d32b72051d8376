/** Value numbers: a number stands for the value that an expression has for a
    packet. Equal expressions are found in a hash table. */
module ValueTable {
  import opened Basics
  import opened Bpf

  /** The opcodes that are numbered. */
  datatype Code = CAbs(size: Size) | CInd(size: Size) | CLen | CImm | CMsh | CNeg | CAluK(op: AluOp) | CAluX(op: AluOp)

  /** An operand is a constant of the program or a value number. */
  datatype Arg = Const(k: Word) | Num(n: nat)

  datatype Key = Key(code: Code, v0: Arg, v1: Arg)

  /** The operands that go with an opcode; the numbers among them are at most n. */
  predicate Fits(key: Key, n: nat) {
    && (key.v0.Num? ==> key.v0.n <= n) && (key.v1.Num? ==> key.v1.n <= n)
    && (key.code.CImm? ==> key.v0.Const? && key.v1 == Num(0))
  }

  /** Number v was given to keys[v - 1]; operands have smaller numbers. */
  ghost predicate Ordered(keys: seq<Key>) {
    forall i {:trigger Fits(keys[i], i)} | 0 <= i < |keys| :: Fits(keys[i], i)
  }

  /** The value of an opcode for its operands. */
  function Apply(code: Code, a: Option<Word>, b: Option<Word>, p: Packet): Option<Word> {
    match code
    case CAbs(size) => if a.Some? then LoadAbs(size, a.value, p) else None
    case CInd(size) => if a.Some? && b.Some? then LoadInd(size, a.value, b.value, p) else None
    case CLen => Some(p.wirelen)
    case CImm => a
    case CMsh => if a.Some? then LoadMsh(a.value, p) else None
    case CNeg => if a.Some? then Some(Minus(0, a.value)) else None
    case CAluK(op) => if a.Some? && b.Some? then Alu(op, a.value, b.value) else None
    case CAluX(op) => if a.Some? && b.Some? then Alu(op, a.value, b.value) else None
  }

  /** The value that number v denotes for p; None for 0, which stands for an
      unknown value, and for what would reject p. */
  ghost function Den(keys: seq<Key>, v: nat, p: Packet): Option<Word>
    requires Ordered(keys)
    decreases v, 0
  {
    if v == 0 || v > |keys| then None else
    assert Fits(keys[v - 1], v - 1);
    Apply(keys[v - 1].code, DenArg(keys, keys[v - 1].v0, v - 1, p), DenArg(keys, keys[v - 1].v1, v - 1, p), p)
  }

  ghost function DenArg(keys: seq<Key>, a: Arg, n: nat, p: Packet): Option<Word>
    requires Ordered(keys) && (a.Num? ==> a.n <= n)
    decreases n, 1
  {
    match a
    case Const(k) => Some(k)
    case Num(v) => Den(keys, v, p)
  }

  /** New numbers do not change what the old ones denote. */
  lemma {:induction false} DenKept(keys: seq<Key>, keys': seq<Key>, v: nat, p: Packet)
    requires Ordered(keys) && Ordered(keys') && keys <= keys' && v <= |keys|
    ensures Den(keys', v, p) == Den(keys, v, p)
    decreases v
  {
    if v > 0 {
      var key := keys[v - 1];
      assert keys'[v - 1] == key && Fits(key, v - 1);
      if key.v0.Num? {
        DenKept(keys, keys', key.v0.n, p);
      }
      if key.v1.Num? {
        DenKept(keys, keys', key.v1.n, p);
      }
    }
  }

  const MODULUS: nat := 213

  datatype ValNode = ValNode(key: Key, val: nat)

  datatype VMapInfo = VMapInfo(isConst: bool, constVal: Word)

  /** vmap flags exactly the constants, and knows them. */
  ghost predicate ConstInfo(vmap: seq<VMapInfo>, keys: seq<Key>, v: int) {
    0 <= v < |vmap| &&
    if 1 <= v <= |keys| && keys[v - 1].code == CImm
    then vmap[v].isConst && keys[v - 1].v0 == Const(vmap[v].constVal)
    else !vmap[v].isConst
  }

  ghost predicate ConstsKnown(vmap: seq<VMapInfo>, keys: seq<Key>) {
    forall v {:trigger ConstInfo(vmap, keys, v)} | 0 <= v < |vmap| :: ConstInfo(vmap, keys, v)
  }

  lemma ConstsGrow(vmap: seq<VMapInfo>, keys: seq<Key>, key: Key)
    requires ConstsKnown(vmap, keys) && |keys| + 1 < |vmap| && Fits(key, |keys|)
    ensures var n := |keys| + 1;
      ConstsKnown(if key.code == CImm then vmap[n := VMapInfo(true, key.v0.k)] else vmap, keys + [key])
  {
    var n := |keys| + 1;
    var vmap' := if key.code == CImm then vmap[n := VMapInfo(true, key.v0.k)] else vmap;
    forall v | 0 <= v < |vmap'| ensures ConstInfo(vmap', keys + [key], v) {
      assert ConstInfo(vmap, keys, v);
    }
  }

  type Buckets = seq<seq<ValNode>>

  /** Expression i is in the chain of its hash value. */
  ghost predicate Chained(hash: Key -> nat, tbl: Buckets, keys: seq<Key>, i: int) {
    0 <= i < |keys| && |tbl| == MODULUS && ValNode(keys[i], i + 1) in tbl[hash(keys[i]) % MODULUS]
  }

  /** Node i of chain h is an expression with its number. */
  ghost predicate Sound(tbl: Buckets, keys: seq<Key>, h: int, i: int) {
    && 0 <= h < |tbl| && 0 <= i < |tbl[h]|
    && 1 <= tbl[h][i].val <= |keys| && tbl[h][i].key == keys[tbl[h][i].val - 1]
  }

  ghost predicate Indexed(hash: Key -> nat, tbl: Buckets, keys: seq<Key>) {
    && |tbl| == MODULUS
    && (forall i {:trigger Chained(hash, tbl, keys, i)} | 0 <= i < |keys| :: Chained(hash, tbl, keys, i))
    && forall h, i {:trigger Sound(tbl, keys, h, i)} | 0 <= h < MODULUS && 0 <= i < |tbl[h]| :: Sound(tbl, keys, h, i)
  }

  lemma IndexedGrow(hash: Key -> nat, tbl: Buckets, keys: seq<Key>, key: Key)
    requires Indexed(hash, tbl, keys)
    ensures var h := hash(key) % MODULUS;
      Indexed(hash, tbl[h := [ValNode(key, |keys| + 1)] + tbl[h]], keys + [key])
  {
    var h := hash(key) % MODULUS;
    var node := ValNode(key, |keys| + 1);
    var tbl' := tbl[h := [node] + tbl[h]];
    forall i | 0 <= i < |keys + [key]| ensures Chained(hash, tbl', keys + [key], i) {
      if i < |keys| {
        assert Chained(hash, tbl, keys, i);
      } else {
        assert node in [node] + tbl[h];
      }
    }
    forall g, i | 0 <= g < MODULUS && 0 <= i < |tbl'[g]| ensures Sound(tbl', keys + [key], g, i) {
      if g != h {
        assert Sound(tbl, keys, g, i);
      } else if i > 0 {
        assert Sound(tbl, keys, h, i - 1);
      }
    }
  }

  lemma OrderedGrow(keys: seq<Key>, key: Key)
    requires Ordered(keys) && NoDups(keys) && Fits(key, |keys|) && key !in keys
    ensures Ordered(keys + [key]) && NoDups(keys + [key])
  {
    forall i | 0 <= i < |keys + [key]| ensures Fits((keys + [key])[i], i) {
      assert i < |keys| ==> Fits(keys[i], i);
    }
  }

  /** The table, for any hash function. */
  class Table {
    const hash: Key -> nat
    const maxval: nat
    const hashtbl: array<seq<ValNode>>
    const vmap: array<VMapInfo>
    var curval: nat
    ghost var keys: seq<Key>

    ghost predicate Valid()
      reads this, hashtbl, vmap
    {
      && hashtbl.Length == MODULUS && vmap.Length == maxval
      && curval == |keys| < maxval && Ordered(keys) && NoDups(keys)
      && ConstsKnown(vmap[..], keys) && Indexed(hash, hashtbl[..], keys)
    }

    constructor (hash: Key -> nat, maxval: nat)
      requires maxval > 0
      ensures Valid() && keys == [] && fresh(hashtbl) && fresh(vmap) && this.maxval == maxval
    {
      this.hash, this.maxval := hash, maxval;
      hashtbl := new seq<ValNode>[MODULUS](h => []);
      vmap := new VMapInfo[maxval](v => VMapInfo(false, 0));
      curval := 0;
      keys := [];
    }

    /** The number of an expression: the one it has, or else the next. */
    method F(code: Code, v0: Arg, v1: Arg) returns (val: nat)
      requires Valid() && Fits(Key(code, v0, v1), curval) && curval + 1 < maxval
      modifies this, hashtbl, vmap
      ensures Valid() && 1 <= val <= curval && keys[val - 1] == Key(code, v0, v1)
      ensures keys == if Key(code, v0, v1) in old(keys) then old(keys) else old(keys) + [Key(code, v0, v1)]
    {
      var key := Key(code, v0, v1);
      var found;
      found, val := Lookup(key);
      if !found {
        val := Enter(key);
      }
    }

    method Lookup(key: Key) returns (found: bool, val: nat)
      requires Valid()
      ensures found <==> key in keys
      ensures found ==> 1 <= val <= curval && keys[val - 1] == key
    {
      var h := hash(key) % MODULUS;
      var i := 0;
      while i < |hashtbl[h]|
        invariant 0 <= i <= |hashtbl[h]| && forall j | 0 <= j < i :: hashtbl[h][j].key != key
      {
        assert Sound(hashtbl[..], keys, h, i);
        if hashtbl[h][i].key == key {
          return true, hashtbl[h][i].val;
        }
        i := i + 1;
      }
      forall j | 0 <= j < |keys| ensures keys[j] != key {
        assert Chained(hash, hashtbl[..], keys, j);
      }
      return false, 0;
    }

    method Enter(key: Key) returns (val: nat)
      requires Valid() && Fits(key, curval) && curval + 1 < maxval && key !in keys
      modifies this, hashtbl, vmap
      ensures Valid() && val == curval && keys == old(keys) + [key]
    {
      OrderedGrow(keys, key);
      ConstsGrow(vmap[..], keys, key);
      IndexedGrow(hash, hashtbl[..], keys, key);
      ghost var vmap0, tbl0 := vmap[..], hashtbl[..];
      curval := curval + 1;
      val := curval;
      if key.code == CImm {
        vmap[val] := VMapInfo(true, key.v0.k);
      }
      var h := hash(key) % MODULUS;
      hashtbl[h] := [ValNode(key, val)] + hashtbl[h];
      keys := keys + [key];
      assert vmap[..] == if key.code == CImm then vmap0[val := VMapInfo(true, key.v0.k)] else vmap0;
      assert hashtbl[..] == tbl0[h := [ValNode(key, val)] + tbl0[h]];
    }
  }
}
