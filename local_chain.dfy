/** The ledger node `LocalBlockchain`: a list of block records it appends to, validates,
    replaces with a longer valid chain from a peer, and reads balances from; a set of peers;
    and a snapshot of the chain on disk. */
module LocalChain {
  import opened PyJson
  import opened Crypto
  import opened ChainRules
  import opened Wallets
  import opened Peers

  /** What `load_chain` finds on disk: no file, a file that cannot be read or parsed, or a list
      of block records. */
  datatype StoredChain = Absent | Unreadable | Stored(blocks: seq<Block>)

  /** `self.chain` after `load_chain`. */
  function Loaded(stored: StoredChain): (chain: seq<Block>)
    ensures !stored.Stored? ==> chain == []
  {
    if stored.Stored? then stored.blocks else []
  }

  /** The stored chain is kept: it is non-empty and passes the validator. */
  predicate Reusable(py: Builtins, cs: Suite, stored: StoredChain)
  {
    Loaded(stored) != [] && ValidChain(py, cs, Loaded(stored))
  }

  /** `difficulty if difficulty is not None else DEFAULT_DIFFICULTY` */
  function ChosenDifficulty(difficulty: Option<int>): (d: int)
    ensures difficulty.Some? ==> d == difficulty.value
    ensures difficulty.None? ==> d == DefaultDifficulty
  {
    if difficulty.Some? then difficulty.value else DefaultDifficulty
  }

  class LocalBlockchain {
    const consensus: Consensus
    const difficulty: int
    /** The Python runtime's parsers and formatters. */
    const py: Builtins
    /** The node's cryptographic library. */
    const cs: Suite
    /** The node's RSA key pair, generated at construction. */
    const key: PrivateKey
    var chain: seq<Block>
    /** Peers as `host:port`. */
    var nodes: set<string>
    /** The chain as last written to chain.json. */
    ghost var persisted: seq<Block>

    /** The ledger's invariant: the crypto library keeps its promises and the chain is empty or
        valid (so its last block has a hash). */
    ghost predicate Ledger()
      reads this
    {
      && Sound(cs)
      && (chain == [] || ValidChain(py, cs, chain))
      && (chain == [] || "hash" in chain[|chain| - 1])
    }

    /** Between calls: a non-empty valid chain that matches the file on disk. */
    ghost predicate Valid()
      reads this
    {
      Ledger() && chain != [] && persisted == chain
    }

    /** `__init__` with the consensus already checked (see `Open`): pick the difficulty, load
        the stored chain, and keep it when it is non-empty and valid; otherwise start over with
        a genesis block. `now` is the clock reading the genesis block would get. */
    constructor(mode: Consensus, chosen: Option<int>, py: Builtins, cs: Suite, key: PrivateKey,
                stored: StoredChain, now: int)
      requires Sound(cs)
      requires !Reusable(py, cs, stored) ==> CanSeal(py, cs, mode, ChosenDifficulty(chosen), [], GenesisData, now)
      ensures Valid()
      ensures consensus == mode && difficulty == ChosenDifficulty(chosen)
      ensures this.py == py && this.cs == cs && this.key == key
      ensures nodes == {}
      ensures Reusable(py, cs, stored) ==> chain == stored.blocks
      ensures !Reusable(py, cs, stored) ==>
                chain == [SealedBlock(py, cs, key, mode, ChosenDifficulty(chosen), [], GenesisData, now)]
    {
      consensus := mode;
      difficulty := ChosenDifficulty(chosen);
      this.py := py;
      this.cs := cs;
      this.key := key;
      chain := Loaded(stored);
      nodes := {};
      persisted := Loaded(stored);
      new;
      if chain == [] {
        InitFreshChain(now);
      } else {
        var ok := IsValidChain(py, cs, chain);
        if !ok {
          InitFreshChain(now);
        } else {
          assert BlockOkAt(py, cs, chain, |chain| - 1);
        }
      }
    }

    /** `__init__` as called: a consensus name other than "pow" or "poa" raises ValueError. */
    static method Open(name: string, chosen: Option<int>, py: Builtins, cs: Suite, key: PrivateKey,
                       stored: StoredChain, now: int) returns (r: Conv<LocalBlockchain>)
      requires Sound(cs)
      requires ParseConsensus(name).Some? && !Reusable(py, cs, stored) ==>
                 CanSeal(py, cs, ParseConsensus(name).value, ChosenDifficulty(chosen), [], GenesisData, now)
      ensures r.Raise? <==> name != "pow" && name != "poa"
      ensures r.Raise? ==> r.error == ValueError
      ensures r.Ok? ==> fresh(r.value) && r.value.Valid() && r.value.consensus == ParseConsensus(name).value
    {
      var mode := ParseConsensus(name);
      if mode.None? {
        return Raise(ValueError);
      }
      var node := new LocalBlockchain(mode.value, chosen, py, cs, key, stored, now);
      return Ok(node);
    }

    /** `_init_fresh_chain`: empty the chain, seal the genesis block and save. */
    method InitFreshChain(now: int)
      requires Sound(cs)
      requires CanSeal(py, cs, consensus, difficulty, [], GenesisData, now)
      modifies this
      ensures chain == [SealedBlock(py, cs, key, consensus, difficulty, [], GenesisData, now)]
      ensures Valid()
      ensures nodes == old(nodes)
    {
      chain := [];
      var _ := CreateGenesisBlock(now);
      SaveChain();
    }

    /** `create_genesis_block` */
    method CreateGenesisBlock(now: int) returns (block: Block)
      requires Ledger()
      requires CanSeal(py, cs, consensus, difficulty, chain, GenesisData, now)
      modifies this
      ensures block == SealedBlock(py, cs, key, consensus, difficulty, old(chain), GenesisData, now)
      ensures chain == old(chain) + [block]
      ensures persisted == chain && Ledger()
      ensures nodes == old(nodes)
    {
      block := CreateBlock(GenesisData, now);
    }

    /** `save_chain`: the file now holds the chain. */
    method SaveChain()
      modifies this
      ensures persisted == chain
      ensures chain == old(chain) && nodes == old(nodes)
    {
      persisted := chain;
    }

    /** `create_block`: seal the block that follows the chain (PoW search or PoA authority id),
        sign its payload, append it and save. `now` is the clock reading. */
    method CreateBlock(data: Dict, now: int) returns (block: Block)
      requires Ledger()
      requires CanSeal(py, cs, consensus, difficulty, chain, data, now)
      modifies this
      ensures block == SealedBlock(py, cs, key, consensus, difficulty, old(chain), data, now)
      ensures chain == old(chain) + [block]
      ensures persisted == chain && Ledger()
      ensures nodes == old(nodes)
    {
      var timestamp := now;
      var nonce := FindNonce(data, timestamp);
      block := NewBlock(py, cs, key, consensus, difficulty, chain, data, timestamp, nonce);
      SealedBlockKeepsValid(py, cs, key, consensus, difficulty, chain, data, timestamp);
      chain := chain + [block];
      SaveChain();
    }

    /** The nonce step of `create_block`: under PoW, count up from 0 until the digest meets
        the difficulty; under PoA, 0. */
    method FindNonce(data: Dict, timestamp: int) returns (nonce: int)
      requires chain == [] || "hash" in chain[|chain| - 1]
      requires CanSeal(py, cs, consensus, difficulty, chain, data, timestamp)
      ensures nonce == SealNonce(py, cs, consensus, difficulty, chain, data, timestamp)
    {
      nonce := 0;
      if consensus == Pow {
        var attempt := PowAttempts(cs, Str(py, LastHash(chain)), timestamp, MerkleRoot(cs, data));
        var found, _ := MinePow(attempt, difficulty);
        LeastNonceUnique(attempt, difficulty, found, LeastNonce(attempt, difficulty));
        nonce := found;
      }
    }

    /** `store_evaluation`: the AML pipeline's sink, which records an evaluation as a block. */
    method StoreEvaluation(evaluation: Dict, now: int) returns (block: Block)
      requires Ledger()
      requires CanSeal(py, cs, consensus, difficulty, chain, evaluation, now)
      modifies this
      ensures block == SealedBlock(py, cs, key, consensus, difficulty, old(chain), evaluation, now)
      ensures chain == old(chain) + [block]
      ensures persisted == chain && Ledger()
      ensures nodes == old(nodes)
    {
      block := CreateBlock(evaluation, now);
    }

    /** `is_chain_valid`: the validator on the node's own chain, which always accepts it. */
    method IsChainValid() returns (ok: bool)
      requires Ledger()
      ensures ok == ValidChain(py, cs, chain)
      ensures ok <==> chain != []
    {
      ok := IsValidChain(py, cs, chain);
    }

    /** `replace_chain`: adopt the candidate only when it is non-empty, strictly longer than
        the node's chain, and valid; then save it. */
    method ReplaceChain(newChain: seq<Block>) returns (replaced: bool)
      requires Valid()
      modifies this
      ensures replaced <==> |newChain| > 0 && |newChain| > |old(chain)| && ValidChain(py, cs, newChain)
      ensures chain == (if replaced then newChain else old(chain))
      ensures Valid()
      ensures nodes == old(nodes)
    {
      if |newChain| == 0 {
        return false;
      }
      if |newChain| <= |chain| {
        return false;
      }
      var ok := IsValidChain(py, cs, newChain);
      if !ok {
        return false;
      }
      assert BlockOkAt(py, cs, newChain, |newChain| - 1);
      chain := newChain;
      SaveChain();
      return true;
    }

    /** `register_node`: add the peer's `host:port`. The peer is derived with the corrected
        reading of the address (see `Peers.PeerAddress`); an address with an unbalanced '[' or
        ']' raises ValueError and adds nothing. */
    method RegisterNode(address: string) returns (r: Conv<Option<string>>)
      modifies this
      ensures r == PeerAddress(address)
      ensures r.Ok? && r.value.Some? ==> nodes == old(nodes) + {r.value.value}
      ensures !(r.Ok? && r.value.Some?) ==> nodes == old(nodes)
      ensures chain == old(chain) && persisted == old(persisted)
    {
      r := PeerAddress(address);
      if r.Ok? && r.value.Some? {
        var entry := r.value.value;
        nodes := nodes + {entry};
      }
    }

    /** `recent(limit)`: `self.chain[-limit:]` — the last `limit` blocks for a positive
        limit, the whole chain for 0, and all but the first `-limit` for a negative one. */
    function Recent(limit: int): (r: seq<Block>)
      reads this
      ensures limit > 0 ==> |r| == (if limit < |chain| then limit else |chain|)
      ensures limit == 0 ==> r == chain
      ensures limit < 0 ==> |r| == (if -limit < |chain| then |chain| + limit else 0)
      ensures r == chain[|chain| - |r|..]
    {
      SliceFrom(chain, -limit)
    }

    /** `compute_balances`: one pass over the chain, debiting senders and crediting
        receivers; the exceptions it lets escape end it. */
    method ComputeBalances() returns (r: Conv<Balances>)
      ensures r == BalancesOf(py, chain)
    {
      var balances: Balances := [];
      for i := 0 to |chain|
        invariant BalancesOf(py, chain[..i]) == Ok(balances)
      {
        BalancesOfPrefixStep(py, chain, i);
        var next := ApplyBlock(py, balances, chain[i]);
        if next.Raise? {
          BalancesRaisePersists(py, chain, i + 1);
          return next;
        }
        balances := next.value;
      }
      assert chain[..|chain|] == chain;
      return Ok(balances);
    }

    /** `get_balance`: what the wallet received minus what it sent over the whole chain, 0.0
        for a wallet that never appears. */
    method GetBalance(walletId: string) returns (r: Conv<real>)
      ensures BalancesOf(py, chain).Raise? ==> r == Raise(BalancesOf(py, chain).error)
      ensures BalancesOf(py, chain).Ok? ==>
                r == Ok(Lookup(BalancesOf(py, chain).value, JStr(walletId)))
                && r.value == NetFlow(py, chain, JStr(walletId))
    {
      var balances := ComputeBalances();
      match balances
      case Raise(e) =>
        return Raise(e);
      case Ok(b) =>
        BalanceIsNetFlow(py, chain, JStr(walletId));
        return Ok(Lookup(b, JStr(walletId)));
    }
  }
}
