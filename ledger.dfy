/**
 * The hash-chained ledger of src/blockchain_storage.py: a list of sealed blocks and a
 * buffer of pending transactions. `create_block` seals the buffer into a new block whose
 * index follows the last one and whose `previous_hash` links to the block before it.
 *
 * SHA-256 of the key-sorted JSON text is the parameter `digest`, applied to the block's
 * JSON value (`ToJson`); JSON objects are maps, so the value carries no key order.
 * The wall clock (`datetime.now()`) is the `timestamp` argument of each seal.
 */
module Ledger {
  import opened Wrappers
  import opened JsonValues

  type Transaction = map<string, Json>

  /** sha256(json.dumps(value, sort_keys=True).encode()).hexdigest() */
  type Digest = Json -> string

  datatype Block = Block(index: int, timestamp: string, transactions: seq<Transaction>, previousHash: string)

  /** The block as the dict literal of create_block writes it, in its source key order. */
  function BlockEntries(b: Block): Entries {
    [ ("index", JInt(b.index)),
      ("timestamp", JStr(b.timestamp)),
      ("transactions", JArr(seq(|b.transactions|, i requires 0 <= i < |b.transactions| => JObj(b.transactions[i])))),
      ("previous_hash", JStr(b.previousHash)) ]
  }

  function ToJson(b: Block): Json {
    JObj(ObjectOf(BlockEntries(b)))
  }

  /** `Blockchain.hash(block)`. */
  function Hash(digest: Digest, b: Block): string {
    digest(ToJson(b))
  }

  /** Listing the block's keys in any other order gives the same hash. */
  lemma HashIgnoresKeyOrder(digest: Digest, b: Block, e: Entries)
    requires DistinctKeys(e)
    requires forall p :: p in e <==> p in BlockEntries(b)
    ensures digest(JObj(ObjectOf(e))) == Hash(digest, b)
  {
    KeyOrderIrrelevant(e, BlockEntries(b));
  }

  /** The block's dict has exactly the four keys of create_block. */
  lemma BlockKeys(b: Block)
    ensures ObjectOf(BlockEntries(b)).Keys == {"index", "timestamp", "transactions", "previous_hash"}
  {
    var e := BlockEntries(b);
    assert e[0] in e && e[1] in e && e[2] in e && e[3] in e;
    forall k | k in ObjectOf(e).Keys
      ensures k in {"index", "timestamp", "transactions", "previous_hash"}
    {
      var p :| p in e && p.0 == k;
      var i :| 0 <= i < |e| && e[i] == p;
    }
  }

  /** The value stored under each key of the block's dict. */
  lemma BlockFields(b: Block)
    ensures var m := ObjectOf(BlockEntries(b));
      && "index" in m && m["index"] == JInt(b.index)
      && "timestamp" in m && m["timestamp"] == JStr(b.timestamp)
      && "transactions" in m
      && m["transactions"] == JArr(seq(|b.transactions|, i requires 0 <= i < |b.transactions| => JObj(b.transactions[i])))
      && "previous_hash" in m && m["previous_hash"] == JStr(b.previousHash)
  {
    var e := BlockEntries(b);
    assert DistinctKeys(e);
    ObjectOfEntries(e);
    assert e[0] in e && e[1] in e && e[2] in e && e[3] in e;
  }

  /**
   * The JSON value keeps every field of the block, transactions in order: two blocks
   * with the same value are the same block (so `[X, Y]` and `[Y, X]` hash as different
   * inputs when X != Y).
   */
  lemma ToJsonInjective(b1: Block, b2: Block)
    requires ToJson(b1) == ToJson(b2)
    ensures b1 == b2
  {
    BlockFields(b1);
    BlockFields(b2);
    var t1 := ObjectOf(BlockEntries(b1))["transactions"].items;
    var t2 := ObjectOf(BlockEntries(b2))["transactions"].items;
    assert t1 == t2;
    forall i | 0 <= i < |b1.transactions|
      ensures b1.transactions[i] == b2.transactions[i]
    {
      assert t1[i] == JObj(b1.transactions[i]) && t2[i] == JObj(b2.transactions[i]);
    }
  }

  // ---------------------------------------------------------------- the state machine

  /** Python's truth value of an optional string (a `previous_hash` argument, a detected column): None and "" are false. */
  predicate Truthy(s: Option<string>) {
    s.Some? && s.value != ""
  }

  /**
   * The `previous_hash` of a new block. Python parses the source expression as
   * `(previous_hash or hash(chain[-1])) if chain else "0"`.
   */
  function LinkFor(chain: seq<Block>, previousHash: Option<string>, digest: Digest): (h: string)
    ensures chain == [] ==> h == "0"
    ensures chain != [] && !Truthy(previousHash) ==> h == Hash(digest, chain[|chain| - 1])
    ensures chain != [] && Truthy(previousHash) ==> h == previousHash.value
  {
    if chain != [] then
      (if Truthy(previousHash) then previousHash.value else Hash(digest, chain[|chain| - 1]))
    else "0"
  }

  datatype LedgerState = LedgerState(chain: seq<Block>, pending: seq<Transaction>)

  /** One call on the ledger: `add_transaction(tx)` or `create_block(previous_hash)`. */
  datatype Op = AddTransaction(tx: Transaction) | CreateBlock(previousHash: Option<string>, timestamp: string)

  /** The block that `create_block` seals from state `s`. */
  function NewBlock(s: LedgerState, previousHash: Option<string>, timestamp: string, digest: Digest): Block {
    Block(|s.chain| + 1, timestamp, s.pending, LinkFor(s.chain, previousHash, digest))
  }

  function Step(s: LedgerState, op: Op, digest: Digest): LedgerState {
    match op
    case AddTransaction(tx) => LedgerState(s.chain, s.pending + [tx])
    case CreateBlock(p, ts) => LedgerState(s.chain + [NewBlock(s, p, ts, digest)], [])
  }

  /** The state after the calls `ops`, in order. */
  function Replay(s: LedgerState, ops: seq<Op>, digest: Digest): LedgerState
    decreases |ops|
  {
    if ops == [] then s else Replay(Step(s, ops[0], digest), ops[1..], digest)
  }

  /** `Blockchain()`: an empty chain sealed once with `previous_hash="0"`. */
  function Genesis(timestamp: string, digest: Digest): LedgerState {
    Step(LedgerState([], []), CreateBlock(Some("0"), timestamp), digest)
  }

  // ---------------------------------------------------------------- invariants

  /** Block at 0-based position i has index i + 1: no gaps. */
  predicate Contiguous(chain: seq<Block>) {
    forall i :: 0 <= i < |chain| ==> chain[i].index == i + 1
  }

  /** The first block is the genesis block: index 1, no transactions, `previous_hash` "0". */
  predicate GenesisFirst(chain: seq<Block>) {
    |chain| >= 1 && chain[0].index == 1 && chain[0].transactions == [] && chain[0].previousHash == "0"
  }

  predicate WellFormed(chain: seq<Block>) {
    GenesisFirst(chain) && Contiguous(chain)
  }

  /** Every block after the first names the hash of the block before it. */
  predicate HashLinked(chain: seq<Block>, digest: Digest) {
    forall k :: 1 <= k < |chain| ==> chain[k].previousHash == Hash(digest, chain[k - 1])
  }

  /** No `create_block` call in `ops` passes a (truthy) `previous_hash`. */
  predicate ArgumentFree(ops: seq<Op>) {
    forall i :: 0 <= i < |ops| && ops[i].CreateBlock? ==> !Truthy(ops[i].previousHash)
  }

  function SealCount(ops: seq<Op>): (n: nat)
    ensures n <= |ops|
  {
    if ops == [] then 0 else (if ops[0].CreateBlock? then 1 else 0) + SealCount(ops[1..])
  }

  function Adds(txs: seq<Transaction>): (ops: seq<Op>)
    ensures |ops| == |txs| && SealCount(ops) == 0
  {
    if txs == [] then [] else [AddTransaction(txs[0])] + Adds(txs[1..])
  }

  // ---------------------------------------------------------------- lemmas

  lemma GenesisShape(timestamp: string, digest: Digest)
    ensures Genesis(timestamp, digest) == LedgerState([Block(1, timestamp, [], "0")], [])
    ensures WellFormed(Genesis(timestamp, digest).chain) && HashLinked(Genesis(timestamp, digest).chain, digest)
  {
  }

  /** A seal appends exactly one block, drains the buffer into it, and keeps the chain well formed. */
  lemma SealExtends(s: LedgerState, p: Option<string>, ts: string, digest: Digest)
    requires WellFormed(s.chain)
    ensures var t := Step(s, CreateBlock(p, ts), digest);
      && t.chain == s.chain + [Block(|s.chain| + 1, ts, s.pending, LinkFor(s.chain, p, digest))]
      && t.pending == []
      && WellFormed(t.chain)
  {
  }

  /** A seal without a `previous_hash` argument keeps every link valid. */
  lemma SealKeepsLinks(s: LedgerState, p: Option<string>, ts: string, digest: Digest)
    requires HashLinked(s.chain, digest) && s.chain != [] && !Truthy(p)
    ensures HashLinked(Step(s, CreateBlock(p, ts), digest).chain, digest)
  {
  }

  /** Any sequence of calls keeps the genesis block and the contiguous indices. */
  lemma {:induction false} ReplayWellFormed(s: LedgerState, ops: seq<Op>, digest: Digest)
    requires WellFormed(s.chain)
    ensures WellFormed(Replay(s, ops, digest).chain)
    decreases |ops|
  {
    if ops != [] {
      var t := Step(s, ops[0], digest);
      assert WellFormed(t.chain);
      ReplayWellFormed(t, ops[1..], digest);
    }
  }

  /** Sealed blocks are never touched again: the old chain is a prefix of every later one. */
  lemma {:induction false} ReplayKeepsSealedBlocks(s: LedgerState, ops: seq<Op>, digest: Digest)
    ensures |Replay(s, ops, digest).chain| == |s.chain| + SealCount(ops)
    ensures Replay(s, ops, digest).chain[..|s.chain|] == s.chain
    decreases |ops|
  {
    if ops != [] {
      var t := Step(s, ops[0], digest);
      ReplayKeepsSealedBlocks(t, ops[1..], digest);
      assert t.chain[..|s.chain|] == s.chain;
      assert Replay(s, ops, digest).chain[..|s.chain|] == Replay(t, ops[1..], digest).chain[..|t.chain|][..|s.chain|];
    }
  }

  /** If every seal after construction is argument-less, every block k >= 2 links to block k - 1. */
  lemma {:induction false} ReplayHashLinked(s: LedgerState, ops: seq<Op>, digest: Digest)
    requires s.chain != [] && HashLinked(s.chain, digest)
    requires ArgumentFree(ops)
    ensures HashLinked(Replay(s, ops, digest).chain, digest)
    decreases |ops|
  {
    if ops != [] {
      var t := Step(s, ops[0], digest);
      assert HashLinked(t.chain, digest);
      assert ArgumentFree(ops[1..]) by {
        forall i | 0 <= i < |ops| - 1 && ops[1..][i].CreateBlock?
          ensures !Truthy(ops[1..][i].previousHash)
        {
          assert ops[1..][i] == ops[i + 1];
        }
      }
      ReplayHashLinked(t, ops[1..], digest);
    }
  }

  /** Adding transactions only grows the buffer at its end; the chain stays as it is. */
  lemma {:induction false} ReplayAdds(s: LedgerState, txs: seq<Transaction>, digest: Digest)
    ensures Replay(s, Adds(txs), digest) == LedgerState(s.chain, s.pending + txs)
    decreases |txs|
  {
    if txs != [] {
      var t := Step(s, AddTransaction(txs[0]), digest);
      ReplayAdds(t, txs[1..], digest);
      var ops := Adds(txs);
      assert ops[0] == AddTransaction(txs[0]);
      assert ops[1..] == Adds(txs[1..]);
      assert Replay(s, ops, digest) == Replay(t, ops[1..], digest);
      assert s.pending + [txs[0]] + txs[1..] == s.pending + txs;
    }
  }

  lemma {:induction false} ReplayConcat(s: LedgerState, ops1: seq<Op>, ops2: seq<Op>, digest: Digest)
    ensures Replay(s, ops1 + ops2, digest) == Replay(Replay(s, ops1, digest), ops2, digest)
    decreases |ops1|
  {
    if ops1 != [] {
      var t := Step(s, ops1[0], digest);
      assert (ops1 + ops2)[0] == ops1[0];
      assert (ops1 + ops2)[1..] == ops1[1..] + ops2;
      assert Replay(s, ops1 + ops2, digest) == Replay(t, ops1[1..] + ops2, digest);
      ReplayConcat(t, ops1[1..], ops2, digest);
    } else {
      assert ops1 + ops2 == ops2;
    }
  }

  /** Logging `txs` and then sealing closes the old buffer followed by `txs` into one block. */
  lemma SealAfterAdds(s: LedgerState, txs: seq<Transaction>, ts: string, digest: Digest)
    ensures Replay(s, Adds(txs) + [CreateBlock(None, ts)], digest)
         == Step(LedgerState(s.chain, s.pending + txs), CreateBlock(None, ts), digest)
  {
    var seal := [CreateBlock(None, ts)];
    var filled := LedgerState(s.chain, s.pending + txs);
    ReplayConcat(s, Adds(txs), seal, digest);
    ReplayAdds(s, txs, digest);
    assert Replay(filled, seal, digest) == Replay(Step(filled, seal[0], digest), [], digest);
  }

  /**
   * A batch: the transactions added one after another, then one `create_block()`, land
   * together and in order in one new block, and the buffer is empty afterwards.
   */
  lemma SealBatch(s: LedgerState, txs: seq<Transaction>, ts: string, digest: Digest)
    requires s.pending == []
    ensures Replay(s, Adds(txs) + [CreateBlock(None, ts)], digest)
         == LedgerState(s.chain + [Block(|s.chain| + 1, ts, txs, LinkFor(s.chain, None, digest))], [])
  {
    var seal := [CreateBlock(None, ts)];
    ReplayConcat(s, Adds(txs), seal, digest);
    ReplayAdds(s, txs, digest);
    var filled := LedgerState(s.chain, txs);
    assert s.pending + txs == txs;
    assert Replay(filled, seal, digest) == Replay(Step(filled, seal[0], digest), [], digest);
  }

  /**
   * Two adds then one seal, then a seal with nothing added: both transactions are in
   * block 2, the buffer is empty, and block 3 is empty and links to the hash of block 2.
   */
  lemma TwoSealScenario(digest: Digest, t0: string, t1: string, t2: string, x: Transaction, y: Transaction)
    ensures var s := Replay(Genesis(t0, digest), [AddTransaction(x), AddTransaction(y), CreateBlock(None, t1), CreateBlock(None, t2)], digest);
      && |s.chain| == 3 && s.pending == []
      && s.chain[1].transactions == [x, y] && s.chain[1].previousHash == Hash(digest, s.chain[0])
      && s.chain[2].transactions == [] && s.chain[2].previousHash == Hash(digest, s.chain[1])
  {
    var g := Genesis(t0, digest);
    var ops := [AddTransaction(x), AddTransaction(y), CreateBlock(None, t1), CreateBlock(None, t2)];
    var s1 := Step(g, ops[0], digest);
    var s2 := Step(s1, ops[1], digest);
    var s3 := Step(s2, ops[2], digest);
    var s4 := Step(s3, ops[3], digest);
    assert Replay(g, ops, digest) == Replay(s1, ops[1..], digest);
    assert Replay(s1, ops[1..], digest) == Replay(s2, ops[2..], digest) by { assert ops[1..][1..] == ops[2..]; }
    assert Replay(s2, ops[2..], digest) == Replay(s3, ops[3..], digest) by { assert ops[2..][1..] == ops[3..]; }
    assert Replay(s3, ops[3..], digest) == Replay(s4, [], digest) by { assert ops[3..][1..] == []; }
  }

  /**
   * What the hash link protects: with a collision-free digest, changing any block that has
   * a successor breaks the link of that successor.
   */
  lemma TamperBreaksLink(chain: seq<Block>, digest: Digest, k: nat, b: Block)
    requires forall j1, j2 :: digest(j1) == digest(j2) ==> j1 == j2
    requires HashLinked(chain, digest)
    requires k + 1 < |chain| && b != chain[k]
    ensures chain[k + 1].previousHash != Hash(digest, b)
    ensures !HashLinked(chain[k := b], digest)
  {
    if Hash(digest, b) == Hash(digest, chain[k]) {
      ToJsonInjective(b, chain[k]);
    }
    var tampered := chain[k := b];
    assert tampered[k + 1] == chain[k + 1] && tampered[k] == b;
    assert tampered[k + 1].previousHash != Hash(digest, tampered[k + 1 - 1]);
  }

  // ---------------------------------------------------------------- the object

  class Blockchain {
    var chain: seq<Block>
    var pending: seq<Transaction>
    const digest: Digest

    function Snapshot(): LedgerState
      reads this
    {
      LedgerState(chain, pending)
    }

    ghost predicate Valid()
      reads this
    {
      WellFormed(chain)
    }

    /** `Blockchain()`: empty chain and buffer, then the genesis seal with `previous_hash="0"`. */
    constructor (digest: Digest, timestamp: string)
      ensures this.digest == digest
      ensures chain == [Block(1, timestamp, [], "0")] && pending == []
      ensures Snapshot() == Genesis(timestamp, digest)
      ensures Valid() && HashLinked(chain, digest)
    {
      this.digest := digest;
      chain := [];
      pending := [];
      new;
      var _ := CreateBlock(Some("0"), timestamp);
    }

    /** `create_block(previous_hash)`: seal the buffer into a new last block and return it. */
    method CreateBlock(previousHash: Option<string>, timestamp: string) returns (block: Block)
      modifies this
      ensures block.index == |old(chain)| + 1 && block.timestamp == timestamp
      ensures block.transactions == old(pending)
      ensures block.previousHash == LinkFor(old(chain), previousHash, digest)
      ensures chain == old(chain) + [block] && pending == []
      ensures Snapshot() == Step(old(Snapshot()), Op.CreateBlock(previousHash, timestamp), digest)
      ensures old(Valid()) ==> Valid()
      ensures old(chain) != [] && old(HashLinked(chain, digest)) && !Truthy(previousHash) ==> HashLinked(chain, digest)
    {
      block := Block(|chain| + 1, timestamp, pending, LinkFor(chain, previousHash, digest));
      pending := [];
      chain := chain + [block];
    }

    /** `add_transaction(tx)`: append to the buffer; return the index the next block will get. */
    method AddTransaction(tx: Transaction) returns (nextIndex: int)
      requires Valid()
      modifies this
      ensures pending == old(pending) + [tx] && chain == old(chain)
      ensures Snapshot() == Step(old(Snapshot()), Op.AddTransaction(tx), digest)
      ensures nextIndex == chain[|chain| - 1].index + 1 == |chain| + 1
      ensures Valid()
    {
      pending := pending + [tx];
      var last := LastBlock();
      nextIndex := last.value.index + 1;
    }

    /** `last_block()`: the final block, or None on an empty chain. */
    method LastBlock() returns (last: Option<Block>)
      ensures last.Some? <==> chain != []
      ensures last.Some? ==> last.value == chain[|chain| - 1]
      ensures Valid() ==> last.Some? && last.value.index == |chain|
    {
      last := if chain != [] then Some(chain[|chain| - 1]) else None;
    }
  }
}
