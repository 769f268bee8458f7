/** The pure part of `LocalBlockchain` (blockchain/local_chain.py): the Merkle and header
    digests, the authority id, the Proof-of-Work search, the block record that `create_block`
    assembles, and the chain validator `is_valid_chain` with the facts that make the ledger's
    invariant hold. Blocks are the dicts the source stores, so that the validator can be stated
    over an arbitrary candidate chain, whatever fields it has. */
module ChainRules {
  import opened PyJson
  import opened Crypto

  /** One block record, as stored in chain.json. */
  type Block = Dict

  datatype Consensus = Pow | Poa

  function ConsensusName(c: Consensus): string
  {
    match c
    case Pow => "pow"
    case Poa => "poa"
  }

  /** The constructor's check: any consensus name other than "pow" or "poa" raises ValueError. */
  function ParseConsensus(name: string): (r: Option<Consensus>)
    ensures r.Some? <==> name == "pow" || name == "poa"
    ensures r.Some? ==> ConsensusName(r.value) == name
  {
    if name == "pow" then Some(Pow) else if name == "poa" then Some(Poa) else None
  }

  const DefaultDifficulty: int := 4

  /** The payload of the genesis block. */
  const GenesisData: Dict := map["system" := JStr("Blockchain Initialized")]

  // ---------------------------------------------------------------------------------------
  // Digests
  // ---------------------------------------------------------------------------------------

  /** `calculate_merkle_root`: the digest of the canonical serialisation of a payload. */
  function MerkleRoot(cs: Suite, data: Dict): string
  {
    cs.sha256Hex(cs.canonicalJson(JObj(data)))
  }

  /** `block.get("data", {}) or {}`: the payload the validator hashes and verifies. */
  function BlockPayload(b: Block): (p: Json)
    ensures "data" in b && Truthy(b["data"]) ==> p == b["data"]
    ensures !("data" in b && Truthy(b["data"])) ==> p == JObj(map[])
  {
    Or(Get(b, "data", JObj(map[])), JObj(map[]))
  }

  /** `_calculate_merkle_for_block`: the Merkle root of the payload the block carries. */
  function MerkleForBlock(cs: Suite, b: Block): string
  {
    cs.sha256Hex(cs.canonicalJson(BlockPayload(b)))
  }

  /** The validator's Merkle digest of a block is the root `create_block` computes over the
      payload the block carries. */
  lemma MerkleForBlockIsRoot(cs: Suite, b: Block)
    ensures BlockPayload(b).JObj? ==> MerkleForBlock(cs, b) == MerkleRoot(cs, BlockPayload(b).fields)
  {
  }

  /** `_compute_pow_hash`: the four header fields are concatenated as text, in this order. */
  function PowDigest(cs: Suite, prevText: string, timestamp: int, rootText: string, nonce: int): string
  {
    cs.sha256Hex(prevText + IntToDecimal(timestamp) + rootText + IntToDecimal(nonce))
  }

  /** `_compute_poa_hash` */
  function PoaDigest(cs: Suite, prevText: string, timestamp: int, rootText: string, authorityId: string): string
  {
    cs.sha256Hex(prevText + IntToDecimal(timestamp) + rootText + authorityId)
  }

  /** `_authority_id`: `digest[:16]` of the digest of the node's public PEM. */
  function AuthorityId(cs: Suite, key: PrivateKey): (a: string)
    ensures Sound(cs) ==> |a| == 16 && a == cs.sha256Hex(cs.publicPem(key))[..16]
  {
    var digest := cs.sha256Hex(cs.publicPem(key));
    if |digest| <= 16 then digest else digest[..16]
  }

  /** The two header formulas differ only in the last field's text, so a PoA block whose
      authority id is the decimal text of a nonce carries the PoW digest of that nonce. */
  lemma PowIsPoaOfNonceText(cs: Suite, prevText: string, timestamp: int, rootText: string, nonce: int)
    ensures PowDigest(cs, prevText, timestamp, rootText, nonce)
         == PoaDigest(cs, prevText, timestamp, rootText, IntToDecimal(nonce))
  {
  }

  /** `"0" * difficulty`, which is empty for a difficulty of zero or less. */
  function ZeroPrefix(difficulty: int): (p: string)
    ensures |p| == if difficulty <= 0 then 0 else difficulty
    ensures forall k :: 0 <= k < |p| ==> p[k] == '0'
  {
    if difficulty <= 0 then "" else seq(difficulty, _ => '0')
  }

  /** `digest.startswith("0" * difficulty)` */
  predicate MeetsDifficulty(digest: string, difficulty: int)
  {
    StartsWith(digest, ZeroPrefix(difficulty))
  }

  lemma MeetsDifficultyMeans(digest: string, difficulty: int)
    ensures MeetsDifficulty(digest, difficulty)
        <==> difficulty <= 0 || (difficulty <= |digest| && forall k :: 0 <= k < difficulty ==> digest[k] == '0')
  {
    if difficulty > 0 && difficulty <= |digest| && forall k :: 0 <= k < difficulty ==> digest[k] == '0' {
      assert digest[..difficulty] == ZeroPrefix(difficulty);
    }
  }

  // ---------------------------------------------------------------------------------------
  // Proof-of-Work search
  // ---------------------------------------------------------------------------------------

  /** The digests the PoW loop tries, one per nonce. */
  function PowAttempts(cs: Suite, prevText: string, timestamp: int, rootText: string): int -> string
  {
    nonce => PowDigest(cs, prevText, timestamp, rootText, nonce)
  }

  /** `n` is the nonce the PoW loop stops at: the least one whose digest meets the difficulty. */
  ghost predicate IsLeastNonce(attempt: int -> string, difficulty: int, n: int)
  {
    && 0 <= n
    && MeetsDifficulty(attempt(n), difficulty)
    && forall k :: 0 <= k < n ==> !MeetsDifficulty(attempt(k), difficulty)
  }

  /** The PoW loop has no bound; it stops only if some nonce meets the difficulty. */
  ghost predicate Mineable(attempt: int -> string, difficulty: int)
  {
    exists n: nat :: MeetsDifficulty(attempt(n), difficulty)
  }

  lemma {:induction false} LeastNonceBelow(attempt: int -> string, difficulty: int, w: nat)
    requires MeetsDifficulty(attempt(w), difficulty)
    ensures exists n :: 0 <= n <= w && IsLeastNonce(attempt, difficulty, n)
    decreases w
  {
    if k :| 0 <= k < w && MeetsDifficulty(attempt(k), difficulty) {
      LeastNonceBelow(attempt, difficulty, k);
    } else {
      assert IsLeastNonce(attempt, difficulty, w);
    }
  }

  lemma LeastNonceUnique(attempt: int -> string, difficulty: int, n: int, m: int)
    requires IsLeastNonce(attempt, difficulty, n)
    requires IsLeastNonce(attempt, difficulty, m)
    ensures n == m
  {
  }

  /** The nonce the PoW loop returns. */
  ghost function LeastNonce(attempt: int -> string, difficulty: int): (n: nat)
    requires Mineable(attempt, difficulty)
    ensures IsLeastNonce(attempt, difficulty, n)
  {
    var w: nat :| MeetsDifficulty(attempt(w), difficulty);
    LeastNonceBelow(attempt, difficulty, w);
    var n: nat :| IsLeastNonce(attempt, difficulty, n);
    n
  }

  /** The `while True` loop of `create_block`: try nonces 0, 1, 2, ... until the digest starts
      with `difficulty` zeros; `attempt` is PowAttempts of the block's header fields. */
  method MinePow(attempt: int -> string, difficulty: int) returns (nonce: int, digest: string)
    requires Mineable(attempt, difficulty)
    ensures IsLeastNonce(attempt, difficulty, nonce)
    ensures digest == attempt(nonce)
  {
    ghost var w: nat :| MeetsDifficulty(attempt(w), difficulty);
    var prefix := ZeroPrefix(difficulty);
    nonce := 0;
    digest := attempt(nonce);
    while !StartsWith(digest, prefix)
      invariant 0 <= nonce <= w
      invariant digest == attempt(nonce)
      invariant forall k :: 0 <= k < nonce ==> !MeetsDifficulty(attempt(k), difficulty)
      decreases w - nonce
    {
      nonce := nonce + 1;
      digest := attempt(nonce);
    }
  }

  // ---------------------------------------------------------------------------------------
  // The block record create_block assembles
  // ---------------------------------------------------------------------------------------

  /** `self.chain[-1]["hash"] if self.chain else "0"` */
  function LastHash(chain: seq<Block>): Json
    requires chain == [] || "hash" in chain[|chain| - 1]
  {
    if chain == [] then JStr("0") else chain[|chain| - 1]["hash"]
  }

  /** The dict `create_block` writes, from its field values; `authority_id` is present only
      when given. */
  function BlockOf(index: int, timestamp: int, data: Dict, root: string, prev: Json, consensus: string,
                   signature: string, pem: string, hash: string, nonce: int, difficulty: int,
                   authority: Option<string>): (b: Block)
    ensures b.Keys == {"index", "timestamp", "data", "merkle_root", "previous_hash", "consensus", "signature",
                       "public_key", "hash", "nonce", "difficulty"} + (if authority.Some? then {"authority_id"} else {})
    ensures b["index"] == JInt(index) && b["timestamp"] == JInt(timestamp) && b["data"] == JObj(data)
    ensures b["merkle_root"] == JStr(root) && b["previous_hash"] == prev && b["consensus"] == JStr(consensus)
    ensures b["signature"] == JStr(signature) && b["public_key"] == JStr(pem) && b["hash"] == JStr(hash)
    ensures b["nonce"] == JInt(nonce) && b["difficulty"] == JInt(difficulty)
    ensures "authority_id" in b <==> authority.Some?
    ensures authority.Some? ==> b["authority_id"] == JStr(authority.value)
  {
    var common := map[
      "index" := JInt(index),
      "timestamp" := JInt(timestamp),
      "data" := JObj(data),
      "merkle_root" := JStr(root),
      "previous_hash" := prev,
      "consensus" := JStr(consensus),
      "signature" := JStr(signature),
      "public_key" := JStr(pem),
      "hash" := JStr(hash),
      "nonce" := JInt(nonce),
      "difficulty" := JInt(difficulty)];
    match authority
    case None => common
    case Some(a) => common["authority_id" := JStr(a)]
  }

  /** The block `create_block` appends to `chain` for `data` at time `timestamp`; `nonce` is
      what the PoW loop found and is not used under PoA. */
  function NewBlock(py: Builtins, cs: Suite, key: PrivateKey, mode: Consensus, difficulty: int,
                    chain: seq<Block>, data: Dict, timestamp: int, nonce: int): (b: Block)
    requires chain == [] || "hash" in chain[|chain| - 1]
    ensures "hash" in b
  {
    var prev := LastHash(chain);
    var root := MerkleRoot(cs, data);
    var signature := cs.sign(key, cs.canonicalJson(JObj(data)));
    match mode
    case Pow =>
      BlockOf(|chain| + 1, timestamp, data, root, prev, ConsensusName(mode), signature, cs.publicPem(key),
              PowDigest(cs, Str(py, prev), timestamp, root, nonce), nonce, difficulty, None)
    case Poa =>
      var authority := AuthorityId(cs, key);
      BlockOf(|chain| + 1, timestamp, data, root, prev, ConsensusName(mode), signature, cs.publicPem(key),
              PoaDigest(cs, Str(py, prev), timestamp, root, authority), 0, 0, Some(authority))
  }

  /** The PoW search can finish for the block that would follow `chain`. */
  ghost predicate CanSeal(py: Builtins, cs: Suite, mode: Consensus, difficulty: int,
                          chain: seq<Block>, data: Dict, timestamp: int)
    requires chain == [] || "hash" in chain[|chain| - 1]
  {
    mode == Pow ==> Mineable(PowAttempts(cs, Str(py, LastHash(chain)), timestamp, MerkleRoot(cs, data)), difficulty)
  }

  /** The block `create_block` appends: NewBlock with the least satisfying nonce under PoW. */
  ghost function SealedBlock(py: Builtins, cs: Suite, key: PrivateKey, mode: Consensus, difficulty: int,
                             chain: seq<Block>, data: Dict, timestamp: int): Block
    requires chain == [] || "hash" in chain[|chain| - 1]
    requires CanSeal(py, cs, mode, difficulty, chain, data, timestamp)
  {
    NewBlock(py, cs, key, mode, difficulty, chain, data, timestamp, SealNonce(py, cs, mode, difficulty, chain, data, timestamp))
  }

  /** The nonce `create_block` records: the least one meeting the difficulty under PoW, 0 under
      PoA. */
  ghost function SealNonce(py: Builtins, cs: Suite, mode: Consensus, difficulty: int,
                           chain: seq<Block>, data: Dict, timestamp: int): int
    requires chain == [] || "hash" in chain[|chain| - 1]
    requires CanSeal(py, cs, mode, difficulty, chain, data, timestamp)
  {
    if mode == Pow
    then LeastNonce(PowAttempts(cs, Str(py, LastHash(chain)), timestamp, MerkleRoot(cs, data)), difficulty)
    else 0
  }

  // ---------------------------------------------------------------------------------------
  // The validator
  // ---------------------------------------------------------------------------------------

  /** Check 0: timestamp, data, merkle_root and hash are present. */
  predicate HasRequiredFields(b: Block)
  {
    "timestamp" in b && "data" in b && "merkle_root" in b && "hash" in b
  }

  /** Check 1: `block.get("previous_hash") == previous.get("hash")`, under Python's `==`. */
  predicate LinksTo(b: Block, previous: Block)
  {
    PyEq(Get(b, "previous_hash", JNull), Get(previous, "hash", JNull))
  }

  /** Check 2: the stored merkle_root is the str the payload hashes to (a str equals only a
      str in Python, see PyJson.PyEqStr). */
  predicate MerkleMatches(cs: Suite, b: Block)
  {
    Get(b, "merkle_root", JNull) == JStr(MerkleForBlock(cs, b))
  }

  /** The numeric header fields after `int(...)`. */
  datatype Header = Header(timestamp: int, nonce: int, difficulty: int)

  /** `int(block.get("timestamp", 0))`, and `int(...)` of nonce and difficulty when present
      (0 when absent); None when any conversion raises. */
  function HeaderNumbers(py: Builtins, b: Block): (r: Option<Header>)
    ensures r.Some? ==> PyInt(py, Get(b, "timestamp", JInt(0))) == Ok(r.value.timestamp)
  {
    var timestamp := PyInt(py, Get(b, "timestamp", JInt(0)));
    var nonce := if "nonce" in b then PyInt(py, b["nonce"]) else Ok(0);
    var difficulty := if "difficulty" in b then PyInt(py, b["difficulty"]) else Ok(0);
    if timestamp.Ok? && nonce.Ok? && difficulty.Ok? then
      Some(Header(timestamp.value, nonce.value, difficulty.value))
    else None
  }

  /** `block.get("consensus", "pow" if difficulty > 0 else "poa")` */
  function ConsensusTag(b: Block, difficulty: int): Json
  {
    Get(b, "consensus", JStr(if difficulty > 0 then "pow" else "poa"))
  }

  /** The digest the block's own consensus tag calls for: the PoW formula when the tag is
      the str "pow", the PoA formula for any other tag. */
  function ExpectedHash(py: Builtins, cs: Suite, b: Block, h: Header): string
  {
    var prevText := Str(py, Get(b, "previous_hash", JStr("")));
    var rootText := Str(py, Get(b, "merkle_root", JStr("")));
    if ConsensusTag(b, h.difficulty) == JStr("pow") then
      PowDigest(cs, prevText, h.timestamp, rootText, h.nonce)
    else
      PoaDigest(cs, prevText, h.timestamp, rootText, Str(py, Get(b, "authority_id", JStr(""))))
  }

  /** Check 3: the stored hash is the recomputed digest, and under PoW with a positive
      difficulty it has the leading zeros. */
  predicate ConsensusOk(py: Builtins, cs: Suite, b: Block, h: Header)
  {
    var expected := ExpectedHash(py, cs, b, h);
    && Get(b, "hash", JNull) == JStr(expected)
    && (ConsensusTag(b, h.difficulty) == JStr("pow") && h.difficulty > 0 ==> MeetsDifficulty(expected, h.difficulty))
  }

  /** `_verify_signature`: false whenever the library would raise, as for a non-str key or
      signature. */
  predicate VerifySignature(cs: Suite, pem: Json, data: Json, signature: Json)
  {
    pem.JStr? && signature.JStr? && cs.verify(pem.s, cs.canonicalJson(data), signature.s)
  }

  /** Check 4: only a block carrying both a signature and a public key is verified. */
  predicate SignatureOk(cs: Suite, b: Block)
  {
    var signature := Get(b, "signature", JNull);
    var pem := Get(b, "public_key", JNull);
    Truthy(signature) && Truthy(pem) ==> VerifySignature(cs, pem, BlockPayload(b), signature)
  }

  /** Every check the validator makes of one block; `previous` is the block before it. */
  predicate BlockOk(py: Builtins, cs: Suite, b: Block, previous: Option<Block>)
  {
    && HasRequiredFields(b)
    && (previous.Some? ==> LinksTo(b, previous.value))
    && MerkleMatches(cs, b)
    && match HeaderNumbers(py, b)
       case None => false
       case Some(h) => ConsensusOk(py, cs, b, h) && SignatureOk(cs, b)
  }

  predicate BlockOkAt(py: Builtins, cs: Suite, chain: seq<Block>, i: int)
    requires 0 <= i < |chain|
  {
    BlockOk(py, cs, chain[i], if i == 0 then None else Some(chain[i - 1]))
  }

  /** What `is_valid_chain` accepts: a non-empty chain every block of which passes. */
  predicate ValidChain(py: Builtins, cs: Suite, chain: seq<Block>)
  {
    |chain| > 0 && forall i :: 0 <= i < |chain| ==> BlockOkAt(py, cs, chain, i)
  }

  /** `is_valid_chain`: a fail-fast loop over the candidate. */
  method IsValidChain(py: Builtins, cs: Suite, chain: seq<Block>) returns (ok: bool)
    ensures ok == ValidChain(py, cs, chain)
  {
    if |chain| == 0 {
      return false;
    }
    for i := 0 to |chain|
      invariant forall j :: 0 <= j < i ==> BlockOkAt(py, cs, chain, j)
    {
      var block := chain[i];
      var previous := if i == 0 then None else Some(chain[i - 1]);
      assert BlockOkAt(py, cs, chain, i) == BlockOk(py, cs, block, previous);
      if !HasRequiredFields(block) {
        return false;
      }
      if i > 0 && !LinksTo(block, chain[i - 1]) {
        return false;
      }
      if Get(block, "merkle_root", JNull) != JStr(MerkleForBlock(cs, block)) {
        return false;
      }
      var header := HeaderNumbers(py, block);
      if header.None? {
        return false;
      }
      var h := header.value;
      var prevText := Str(py, Get(block, "previous_hash", JStr("")));
      var rootText := Str(py, Get(block, "merkle_root", JStr("")));
      if ConsensusTag(block, h.difficulty) == JStr("pow") {
        var recomputed := PowDigest(cs, prevText, h.timestamp, rootText, h.nonce);
        if Get(block, "hash", JNull) != JStr(recomputed) {
          return false;
        }
        if h.difficulty > 0 && !StartsWith(recomputed, ZeroPrefix(h.difficulty)) {
          return false;
        }
      } else {
        var authority := Get(block, "authority_id", JStr(""));
        var recomputed := PoaDigest(cs, prevText, h.timestamp, rootText, Str(py, authority));
        if Get(block, "hash", JNull) != JStr(recomputed) {
          return false;
        }
      }
      var signature := Get(block, "signature", JNull);
      var pem := Get(block, "public_key", JNull);
      if Truthy(signature) && Truthy(pem) {
        if !VerifySignature(cs, pem, BlockPayload(block), signature) {
          return false;
        }
      }
    }
    return true;
  }

  // ---------------------------------------------------------------------------------------
  // Facts about the validator
  // ---------------------------------------------------------------------------------------

  /** A chain extended by one block is valid exactly when the old chain was (or was empty)
      and the new block passes against the old last block. */
  lemma ValidChainSnoc(py: Builtins, cs: Suite, chain: seq<Block>, b: Block)
    ensures ValidChain(py, cs, chain + [b])
        <==> (if chain == [] then BlockOk(py, cs, b, None)
              else ValidChain(py, cs, chain) && BlockOk(py, cs, b, Some(chain[|chain| - 1])))
  {
    var c := chain + [b];
    forall j | 0 <= j < |chain| ensures BlockOkAt(py, cs, c, j) == BlockOkAt(py, cs, chain, j) {
      assert c[j] == chain[j];
      if j > 0 { assert c[j - 1] == chain[j - 1]; }
    }
    assert BlockOkAt(py, cs, c, |chain|) == BlockOk(py, cs, b, if chain == [] then None else Some(chain[|chain| - 1]));
  }

  /** Every non-empty prefix of a valid chain is valid. */
  lemma ValidChainPrefix(py: Builtins, cs: Suite, chain: seq<Block>, k: int)
    requires ValidChain(py, cs, chain)
    requires 0 < k <= |chain|
    ensures ValidChain(py, cs, chain[..k])
  {
    var c := chain[..k];
    forall j | 0 <= j < k ensures BlockOkAt(py, cs, c, j) {
      assert BlockOkAt(py, cs, chain, j);
      assert c[j] == chain[j];
      if j > 0 { assert c[j - 1] == chain[j - 1]; }
    }
  }

  /** The header fields of a freshly assembled block, read back. */
  lemma NewBlockHeaderFields(py: Builtins, cs: Suite, key: PrivateKey, mode: Consensus, difficulty: int,
                             chain: seq<Block>, data: Dict, timestamp: int, nonce: int)
    requires chain == [] || "hash" in chain[|chain| - 1]
    ensures var b := NewBlock(py, cs, key, mode, difficulty, chain, data, timestamp, nonce);
      && HasRequiredFields(b)
      && b["index"] == JInt(|chain| + 1)
      && b["timestamp"] == JInt(timestamp)
      && b["data"] == JObj(data)
      && b["merkle_root"] == JStr(MerkleRoot(cs, data))
      && "previous_hash" in b && b["previous_hash"] == LastHash(chain)
  {
  }

  /** The consensus and signature fields of a freshly assembled block, read back. */
  lemma NewBlockSealFields(py: Builtins, cs: Suite, key: PrivateKey, mode: Consensus, difficulty: int,
                           chain: seq<Block>, data: Dict, timestamp: int, nonce: int)
    requires chain == [] || "hash" in chain[|chain| - 1]
    ensures var b := NewBlock(py, cs, key, mode, difficulty, chain, data, timestamp, nonce);
      && "consensus" in b && b["consensus"] == JStr(ConsensusName(mode))
      && "signature" in b && b["signature"] == JStr(cs.sign(key, cs.canonicalJson(JObj(data))))
      && "public_key" in b && b["public_key"] == JStr(cs.publicPem(key))
      && "nonce" in b && b["nonce"] == JInt(if mode == Pow then nonce else 0)
      && "difficulty" in b && b["difficulty"] == JInt(if mode == Pow then difficulty else 0)
      && ("authority_id" in b <==> mode == Poa)
      && (mode == Poa ==> b["authority_id"] == JStr(AuthorityId(cs, key)))
  {
  }

  /** The hash field of a freshly assembled block, read back. */
  lemma NewBlockHashField(py: Builtins, cs: Suite, key: PrivateKey, mode: Consensus, difficulty: int,
                          chain: seq<Block>, data: Dict, timestamp: int, nonce: int)
    requires chain == [] || "hash" in chain[|chain| - 1]
    ensures var b := NewBlock(py, cs, key, mode, difficulty, chain, data, timestamp, nonce);
      && "hash" in b
      && b["hash"] == JStr(match mode
                           case Pow => PowDigest(cs, Str(py, LastHash(chain)), timestamp, MerkleRoot(cs, data), nonce)
                           case Poa => PoaDigest(cs, Str(py, LastHash(chain)), timestamp, MerkleRoot(cs, data), AuthorityId(cs, key)))
  {
  }

  /** The payload, Merkle and header checks read back from a block record built by BlockOf. */
  lemma BlockOfChecks(py: Builtins, cs: Suite, index: int, timestamp: int, data: Dict, root: string, prev: Json,
                      consensus: string, signature: string, pem: string, hash: string, nonce: int,
                      difficulty: int, authority: Option<string>)
    requires root == MerkleRoot(cs, data)
    ensures var b := BlockOf(index, timestamp, data, root, prev, consensus, signature, pem, hash, nonce,
                             difficulty, authority);
      && HasRequiredFields(b)
      && Get(b, "previous_hash", JNull) == prev
      && BlockPayload(b) == JObj(data)
      && MerkleMatches(cs, b)
      && HeaderNumbers(py, b) == Some(Header(timestamp, nonce, difficulty))
  {
    var b := BlockOf(index, timestamp, data, root, prev, consensus, signature, pem, hash, nonce,
                     difficulty, authority);
    assert BlockPayload(b) == JObj(data);
  }

  /** The signature check of a block record whose signature is the key's signature of the
      payload and whose public key is that key's. */
  lemma BlockOfSigned(cs: Suite, key: PrivateKey, index: int, timestamp: int, data: Dict, root: string,
                      prev: Json, consensus: string, signature: string, pem: string, hash: string,
                      nonce: int, difficulty: int, authority: Option<string>)
    requires Sound(cs)
    requires signature == cs.sign(key, cs.canonicalJson(JObj(data)))
    requires pem == cs.publicPem(key)
    ensures SignatureOk(cs, BlockOf(index, timestamp, data, root, prev, consensus, signature, pem, hash,
                                    nonce, difficulty, authority))
  {
    var b := BlockOf(index, timestamp, data, root, prev, consensus, signature, pem, hash, nonce,
                     difficulty, authority);
    assert BlockPayload(b) == JObj(data);
    var message := cs.canonicalJson(JObj(data));
    assert cs.verify(cs.publicPem(key), message, cs.sign(key, message));
  }

  /** A freshly assembled block has the required fields and a Merkle root that matches its payload. */
  lemma NewBlockFieldsPresent(py: Builtins, cs: Suite, key: PrivateKey, mode: Consensus, difficulty: int,
                              chain: seq<Block>, data: Dict, timestamp: int, nonce: int)
    requires chain == [] || "hash" in chain[|chain| - 1]
    ensures var b := NewBlock(py, cs, key, mode, difficulty, chain, data, timestamp, nonce);
      HasRequiredFields(b) && MerkleMatches(cs, b)
  {
    var prev := LastHash(chain);
    var root := MerkleRoot(cs, data);
    var signature := cs.sign(key, cs.canonicalJson(JObj(data)));
    match mode
    case Pow =>
      BlockOfChecks(py, cs, |chain| + 1, timestamp, data, root, prev, ConsensusName(mode), signature,
                    cs.publicPem(key), PowDigest(cs, Str(py, prev), timestamp, root, nonce), nonce,
                    difficulty, None);
    case Poa =>
      var authority := AuthorityId(cs, key);
      BlockOfChecks(py, cs, |chain| + 1, timestamp, data, root, prev, ConsensusName(mode), signature,
                    cs.publicPem(key), PoaDigest(cs, Str(py, prev), timestamp, root, authority), 0, 0,
                    Some(authority));
  }

  /** The numeric header of a freshly assembled block reads back as its timestamp, nonce and
      difficulty (both 0 under PoA). */
  lemma NewBlockHeader(py: Builtins, cs: Suite, key: PrivateKey, mode: Consensus, difficulty: int,
                       chain: seq<Block>, data: Dict, timestamp: int, nonce: int)
    requires chain == [] || "hash" in chain[|chain| - 1]
    ensures HeaderNumbers(py, NewBlock(py, cs, key, mode, difficulty, chain, data, timestamp, nonce))
      == Some(Header(timestamp, if mode == Pow then nonce else 0, if mode == Pow then difficulty else 0))
  {
    var prev := LastHash(chain);
    var root := MerkleRoot(cs, data);
    var signature := cs.sign(key, cs.canonicalJson(JObj(data)));
    match mode
    case Pow =>
      BlockOfChecks(py, cs, |chain| + 1, timestamp, data, root, prev, ConsensusName(mode), signature,
                    cs.publicPem(key), PowDigest(cs, Str(py, prev), timestamp, root, nonce), nonce,
                    difficulty, None);
    case Poa =>
      var authority := AuthorityId(cs, key);
      BlockOfChecks(py, cs, |chain| + 1, timestamp, data, root, prev, ConsensusName(mode), signature,
                    cs.publicPem(key), PoaDigest(cs, Str(py, prev), timestamp, root, authority), 0, 0,
                    Some(authority));
  }

  /** A freshly assembled block links to the chain's last block. */
  lemma NewBlockLinks(py: Builtins, cs: Suite, key: PrivateKey, mode: Consensus, difficulty: int,
                      chain: seq<Block>, data: Dict, timestamp: int, nonce: int)
    requires chain != [] && "hash" in chain[|chain| - 1]
    ensures LinksTo(NewBlock(py, cs, key, mode, difficulty, chain, data, timestamp, nonce), chain[|chain| - 1])
  {
    var prev := LastHash(chain);
    var root := MerkleRoot(cs, data);
    var signature := cs.sign(key, cs.canonicalJson(JObj(data)));
    PyEqReflexive(prev);
    match mode
    case Pow =>
      BlockOfChecks(py, cs, |chain| + 1, timestamp, data, root, prev, ConsensusName(mode), signature,
                    cs.publicPem(key), PowDigest(cs, Str(py, prev), timestamp, root, nonce), nonce,
                    difficulty, None);
    case Poa =>
      var authority := AuthorityId(cs, key);
      BlockOfChecks(py, cs, |chain| + 1, timestamp, data, root, prev, ConsensusName(mode), signature,
                    cs.publicPem(key), PoaDigest(cs, Str(py, prev), timestamp, root, authority), 0, 0,
                    Some(authority));
  }

  /** A freshly assembled block carries a signature of its payload that the node's public key
      verifies. */
  lemma NewBlockSigned(py: Builtins, cs: Suite, key: PrivateKey, mode: Consensus, difficulty: int,
                       chain: seq<Block>, data: Dict, timestamp: int, nonce: int)
    requires Sound(cs)
    requires chain == [] || "hash" in chain[|chain| - 1]
    ensures SignatureOk(cs, NewBlock(py, cs, key, mode, difficulty, chain, data, timestamp, nonce))
  {
    var prev := LastHash(chain);
    var root := MerkleRoot(cs, data);
    var signature := cs.sign(key, cs.canonicalJson(JObj(data)));
    match mode
    case Pow =>
      BlockOfSigned(cs, key, |chain| + 1, timestamp, data, root, prev, ConsensusName(mode), signature,
                    cs.publicPem(key), PowDigest(cs, Str(py, prev), timestamp, root, nonce), nonce,
                    difficulty, None);
    case Poa =>
      var authority := AuthorityId(cs, key);
      BlockOfSigned(cs, key, |chain| + 1, timestamp, data, root, prev, ConsensusName(mode), signature,
                    cs.publicPem(key), PoaDigest(cs, Str(py, prev), timestamp, root, authority), 0, 0,
                    Some(authority));
  }

  /** The hash of a PoW block sealed with a nonce that meets the difficulty is what the
      validator recomputes. */
  lemma NewPowBlockConsensus(py: Builtins, cs: Suite, key: PrivateKey, difficulty: int,
                             chain: seq<Block>, data: Dict, timestamp: int, nonce: int)
    requires chain == [] || "hash" in chain[|chain| - 1]
    requires MeetsDifficulty(PowDigest(cs, Str(py, LastHash(chain)), timestamp, MerkleRoot(cs, data), nonce), difficulty)
    ensures ConsensusOk(py, cs, NewBlock(py, cs, key, Pow, difficulty, chain, data, timestamp, nonce),
                        Header(timestamp, nonce, difficulty))
  {
    var b := NewBlock(py, cs, key, Pow, difficulty, chain, data, timestamp, nonce);
    NewBlockHeaderFields(py, cs, key, Pow, difficulty, chain, data, timestamp, nonce);
    NewBlockSealFields(py, cs, key, Pow, difficulty, chain, data, timestamp, nonce);
    assert ConsensusTag(b, difficulty) == JStr("pow");
    assert Str(py, Get(b, "merkle_root", JStr(""))) == MerkleRoot(cs, data);
  }

  /** The hash of a PoA block is what the validator recomputes. */
  lemma NewPoaBlockConsensus(py: Builtins, cs: Suite, key: PrivateKey, difficulty: int,
                             chain: seq<Block>, data: Dict, timestamp: int, nonce: int)
    requires chain == [] || "hash" in chain[|chain| - 1]
    ensures ConsensusOk(py, cs, NewBlock(py, cs, key, Poa, difficulty, chain, data, timestamp, nonce),
                        Header(timestamp, 0, 0))
  {
    var b := NewBlock(py, cs, key, Poa, difficulty, chain, data, timestamp, nonce);
    NewBlockHeaderFields(py, cs, key, Poa, difficulty, chain, data, timestamp, nonce);
    NewBlockSealFields(py, cs, key, Poa, difficulty, chain, data, timestamp, nonce);
    assert ConsensusTag(b, 0) == JStr("poa");
    assert Str(py, Get(b, "merkle_root", JStr(""))) == MerkleRoot(cs, data);
    assert Str(py, Get(b, "authority_id", JStr(""))) == AuthorityId(cs, key);
  }

  /** The block create_block seals passes every check after the chain it extends. */
  lemma SealedBlockOk(py: Builtins, cs: Suite, key: PrivateKey, mode: Consensus, difficulty: int,
                      chain: seq<Block>, data: Dict, timestamp: int)
    requires Sound(cs)
    requires chain == [] || "hash" in chain[|chain| - 1]
    requires CanSeal(py, cs, mode, difficulty, chain, data, timestamp)
    ensures BlockOk(py, cs, SealedBlock(py, cs, key, mode, difficulty, chain, data, timestamp),
                    if chain == [] then None else Some(chain[|chain| - 1]))
  {
    var attempt := PowAttempts(cs, Str(py, LastHash(chain)), timestamp, MerkleRoot(cs, data));
    var nonce := if mode == Pow then LeastNonce(attempt, difficulty) else 0;
    NewBlockFieldsPresent(py, cs, key, mode, difficulty, chain, data, timestamp, nonce);
    NewBlockHeader(py, cs, key, mode, difficulty, chain, data, timestamp, nonce);
    if chain != [] {
      NewBlockLinks(py, cs, key, mode, difficulty, chain, data, timestamp, nonce);
    }
    NewBlockSigned(py, cs, key, mode, difficulty, chain, data, timestamp, nonce);
    if mode == Pow {
      assert attempt(nonce) == PowDigest(cs, Str(py, LastHash(chain)), timestamp, MerkleRoot(cs, data), nonce);
      NewPowBlockConsensus(py, cs, key, difficulty, chain, data, timestamp, nonce);
    } else {
      NewPoaBlockConsensus(py, cs, key, difficulty, chain, data, timestamp, nonce);
    }
  }

  /** Appending the block create_block seals keeps a chain valid: the ledger's invariant. */
  lemma SealedBlockKeepsValid(py: Builtins, cs: Suite, key: PrivateKey, mode: Consensus, difficulty: int,
                              chain: seq<Block>, data: Dict, timestamp: int)
    requires Sound(cs)
    requires chain == [] || ValidChain(py, cs, chain)
    requires chain == [] || "hash" in chain[|chain| - 1]
    requires CanSeal(py, cs, mode, difficulty, chain, data, timestamp)
    ensures ValidChain(py, cs, chain + [SealedBlock(py, cs, key, mode, difficulty, chain, data, timestamp)])
  {
    SealedBlockOk(py, cs, key, mode, difficulty, chain, data, timestamp);
    ValidChainSnoc(py, cs, chain, SealedBlock(py, cs, key, mode, difficulty, chain, data, timestamp));
  }

  // ---------------------------------------------------------------------------------------
  // What create_block appends
  // ---------------------------------------------------------------------------------------

  /** The sealed block's place in the chain: its index is one more than the old length, its
      previous_hash is the old last block's hash ("0" on an empty chain), and it carries the
      payload, its Merkle root, the node's consensus tag, signature and public key. */
  lemma SealedBlockShape(py: Builtins, cs: Suite, key: PrivateKey, mode: Consensus, difficulty: int,
                         chain: seq<Block>, data: Dict, timestamp: int)
    requires chain == [] || "hash" in chain[|chain| - 1]
    requires CanSeal(py, cs, mode, difficulty, chain, data, timestamp)
    ensures var b := SealedBlock(py, cs, key, mode, difficulty, chain, data, timestamp);
      && b["index"] == JInt(|chain| + 1)
      && b["previous_hash"] == (if chain == [] then JStr("0") else chain[|chain| - 1]["hash"])
      && b["timestamp"] == JInt(timestamp)
      && b["data"] == JObj(data)
      && b["merkle_root"] == JStr(MerkleRoot(cs, data))
      && b["consensus"] == JStr(ConsensusName(mode))
      && b["signature"] == JStr(cs.sign(key, cs.canonicalJson(JObj(data))))
      && b["public_key"] == JStr(cs.publicPem(key))
  {
    var attempt := PowAttempts(cs, Str(py, LastHash(chain)), timestamp, MerkleRoot(cs, data));
    var nonce := if mode == Pow then LeastNonce(attempt, difficulty) else 0;
    NewBlockHeaderFields(py, cs, key, mode, difficulty, chain, data, timestamp, nonce);
    NewBlockSealFields(py, cs, key, mode, difficulty, chain, data, timestamp, nonce);
  }

  /** PoW mode: the nonce is the least one whose header digest starts with `difficulty`
      zeros, the hash is that digest, the node's difficulty is recorded, and there is no
      authority_id. */
  lemma SealedPowBlock(py: Builtins, cs: Suite, key: PrivateKey, difficulty: int,
                       chain: seq<Block>, data: Dict, timestamp: int)
    requires chain == [] || "hash" in chain[|chain| - 1]
    requires CanSeal(py, cs, Pow, difficulty, chain, data, timestamp)
    ensures var b := SealedBlock(py, cs, key, Pow, difficulty, chain, data, timestamp);
      var attempt := PowAttempts(cs, Str(py, LastHash(chain)), timestamp, MerkleRoot(cs, data));
      && b["nonce"].JInt?
      && IsLeastNonce(attempt, difficulty, b["nonce"].i)
      && b["hash"] == JStr(PowDigest(cs, Str(py, LastHash(chain)), timestamp, MerkleRoot(cs, data), b["nonce"].i))
      && MeetsDifficulty(b["hash"].s, difficulty)
      && b["difficulty"] == JInt(difficulty)
      && "authority_id" !in b
  {
    var attempt := PowAttempts(cs, Str(py, LastHash(chain)), timestamp, MerkleRoot(cs, data));
    var nonce := LeastNonce(attempt, difficulty);
    NewBlockSealFields(py, cs, key, Pow, difficulty, chain, data, timestamp, nonce);
    NewBlockHashField(py, cs, key, Pow, difficulty, chain, data, timestamp, nonce);
    assert attempt(nonce) == PowDigest(cs, Str(py, LastHash(chain)), timestamp, MerkleRoot(cs, data), nonce);
  }

  /** PoA mode: difficulty and nonce are 0, the authority_id is the first 16 characters of the
      digest of the node's public key, and the hash is the PoA digest over it. */
  lemma SealedPoaBlock(py: Builtins, cs: Suite, key: PrivateKey, difficulty: int,
                       chain: seq<Block>, data: Dict, timestamp: int)
    requires Sound(cs)
    requires chain == [] || "hash" in chain[|chain| - 1]
    ensures var b := SealedBlock(py, cs, key, Poa, difficulty, chain, data, timestamp);
      && b["difficulty"] == JInt(0)
      && b["nonce"] == JInt(0)
      && "authority_id" in b
      && b["authority_id"] == JStr(cs.sha256Hex(cs.publicPem(key))[..16])
      && b["hash"] == JStr(PoaDigest(cs, Str(py, LastHash(chain)), timestamp, MerkleRoot(cs, data),
                                     cs.sha256Hex(cs.publicPem(key))[..16]))
  {
    NewBlockSealFields(py, cs, key, Poa, difficulty, chain, data, timestamp, 0);
    NewBlockHashField(py, cs, key, Poa, difficulty, chain, data, timestamp, 0);
  }

  // ---------------------------------------------------------------------------------------
  // What the validator reads, and what tampering it detects
  // ---------------------------------------------------------------------------------------

  /** Every field the validator reads. `index` is not among them. */
  const CheckedFields: set<string> :=
    {"timestamp", "data", "merkle_root", "hash", "previous_hash", "nonce", "difficulty",
     "consensus", "authority_id", "signature", "public_key"}

  /** Two blocks hold the same entries under `keys`. */
  predicate AgreeOn(a: Block, b: Block, keys: set<string>)
  {
    forall k :: k in keys ==> (k in a <==> k in b) && (k in a ==> a[k] == b[k])
  }

  lemma AgreeOnGet(a: Block, b: Block, keys: set<string>, k: string, default: Json)
    requires AgreeOn(a, b, keys) && k in keys
    ensures Get(a, k, default) == Get(b, k, default)
  {
  }

  /** The verdict on a block depends only on the checked fields of it and of its predecessor. */
  lemma BlockOkReadsCheckedFields(py: Builtins, cs: Suite, a: Block, b: Block, pa: Option<Block>, pb: Option<Block>)
    requires AgreeOn(a, b, CheckedFields)
    requires pa.Some? <==> pb.Some?
    requires pa.Some? ==> AgreeOn(pa.value, pb.value, CheckedFields)
    ensures BlockOk(py, cs, a, pa) == BlockOk(py, cs, b, pb)
  {
    forall k | k in CheckedFields ensures forall d :: Get(a, k, d) == Get(b, k, d) {
      forall d { AgreeOnGet(a, b, CheckedFields, k, d); }
    }
    if pa.Some? {
      AgreeOnGet(pa.value, pb.value, CheckedFields, "hash", JNull);
    }
    assert HeaderNumbers(py, a) == HeaderNumbers(py, b);
    assert BlockPayload(a) == BlockPayload(b);
  }

  /** The validator's verdict depends only on the checked fields of each block. */
  lemma ValidChainReadsCheckedFields(py: Builtins, cs: Suite, c: seq<Block>, d: seq<Block>)
    requires |c| == |d|
    requires forall i :: 0 <= i < |c| ==> AgreeOn(c[i], d[i], CheckedFields)
    ensures ValidChain(py, cs, c) == ValidChain(py, cs, d)
  {
    forall i | 0 <= i < |c| ensures BlockOkAt(py, cs, c, i) == BlockOkAt(py, cs, d, i) {
      BlockOkReadsCheckedFields(py, cs, c[i], d[i], if i == 0 then None else Some(c[i - 1]),
                                if i == 0 then None else Some(d[i - 1]));
    }
  }

  /** `index` is never checked: rewriting it in any block leaves the verdict unchanged. */
  lemma IndexNotChecked(py: Builtins, cs: Suite, chain: seq<Block>, i: int, v: Json)
    requires 0 <= i < |chain|
    ensures ValidChain(py, cs, chain) == ValidChain(py, cs, chain[i := chain[i]["index" := v]])
  {
    var d := chain[i := chain[i]["index" := v]];
    assert "index" !in CheckedFields;
    forall j | 0 <= j < |chain| ensures AgreeOn(chain[j], d[j], CheckedFields) {
    }
    ValidChainReadsCheckedFields(py, cs, chain, d);
  }

  /** Overwriting the hash of any block of a valid chain with another value is detected. */
  lemma TamperedHashDetected(py: Builtins, cs: Suite, chain: seq<Block>, i: int, v: Json)
    requires ValidChain(py, cs, chain)
    requires 0 <= i < |chain| && v != Get(chain[i], "hash", JNull)
    ensures !ValidChain(py, cs, chain[i := chain[i]["hash" := v]])
  {
    var b := chain[i];
    var b' := b["hash" := v];
    assert BlockOkAt(py, cs, chain, i);
    assert AgreeOn(b, b', CheckedFields - {"hash"});
    assert HeaderNumbers(py, b') == HeaderNumbers(py, b);
    var h := HeaderNumbers(py, b).value;
    assert ExpectedHash(py, cs, b', h) == ExpectedHash(py, cs, b, h);
    assert !BlockOkAt(py, cs, chain[i := b'], i);
  }

  /** Overwriting the merkle_root of any block of a valid chain with another value is detected. */
  lemma TamperedMerkleRootDetected(py: Builtins, cs: Suite, chain: seq<Block>, i: int, v: Json)
    requires ValidChain(py, cs, chain)
    requires 0 <= i < |chain| && v != Get(chain[i], "merkle_root", JNull)
    ensures !ValidChain(py, cs, chain[i := chain[i]["merkle_root" := v]])
  {
    var b := chain[i];
    var b' := b["merkle_root" := v];
    assert BlockOkAt(py, cs, chain, i);
    assert BlockPayload(b') == BlockPayload(b);
    assert !BlockOkAt(py, cs, chain[i := b'], i);
  }

  /** Changing the payload of any block so that its Merkle digest changes is detected. */
  lemma TamperedPayloadDetected(py: Builtins, cs: Suite, chain: seq<Block>, i: int, v: Json)
    requires ValidChain(py, cs, chain)
    requires 0 <= i < |chain|
    requires MerkleForBlock(cs, chain[i]["data" := v]) != MerkleForBlock(cs, chain[i])
    ensures !ValidChain(py, cs, chain[i := chain[i]["data" := v]])
  {
    var b := chain[i];
    var b' := b["data" := v];
    assert BlockOkAt(py, cs, chain, i);
    assert Get(b', "merkle_root", JNull) == Get(b, "merkle_root", JNull);
    assert !BlockOkAt(py, cs, chain[i := b'], i);
  }

  /** Re-pointing previous_hash of a non-genesis block away from its predecessor's hash is
      detected. */
  lemma TamperedLinkDetected(py: Builtins, cs: Suite, chain: seq<Block>, i: int, v: Json)
    requires ValidChain(py, cs, chain)
    requires 0 < i < |chain| && !PyEq(v, Get(chain[i - 1], "hash", JNull))
    ensures !ValidChain(py, cs, chain[i := chain[i]["previous_hash" := v]])
  {
    var d := chain[i := chain[i]["previous_hash" := v]];
    assert d[i - 1] == chain[i - 1];
    assert !LinksTo(d[i], d[i - 1]);
    assert !BlockOkAt(py, cs, d, i);
  }

  /** Under PoW, rewriting the nonce of any block of a valid chain is detected whenever the
      digest recomputed at the new nonce differs from the one at the old nonce. */
  lemma TamperedNonceDetected(py: Builtins, cs: Suite, chain: seq<Block>, i: int, v: Json)
    requires ValidChain(py, cs, chain) && 0 <= i < |chain|
    requires Get(chain[i], "consensus", JNull) == JStr("pow") && HeaderNumbers(py, chain[i]).Some?
    requires var b' := chain[i]["nonce" := v];
      HeaderNumbers(py, b').Some? ==>
        ExpectedHash(py, cs, b', HeaderNumbers(py, b').value) != ExpectedHash(py, cs, chain[i], HeaderNumbers(py, chain[i]).value)
    ensures !ValidChain(py, cs, chain[i := chain[i]["nonce" := v]])
  {
    var b := chain[i];
    var b' := b["nonce" := v];
    assert BlockOkAt(py, cs, chain, i);
    assert Get(b', "hash", JNull) == Get(b, "hash", JNull);
    assert !BlockOkAt(py, cs, chain[i := b'], i);
  }

  /** A block's verdict against a predecessor reads only the predecessor's hash. */
  lemma BlockOkReadsPreviousHash(py: Builtins, cs: Suite, b: Block, p: Block, q: Block)
    requires Get(p, "hash", JNull) == Get(q, "hash", JNull)
    ensures BlockOk(py, cs, b, Some(p)) == BlockOk(py, cs, b, Some(q))
  {
  }

  /** Replacing one block of a valid chain by a block that passes against the same predecessor
      and keeps the same hash leaves the chain valid. */
  lemma ValidChainReplace(py: Builtins, cs: Suite, chain: seq<Block>, i: int, b: Block)
    requires ValidChain(py, cs, chain) && 0 <= i < |chain|
    requires BlockOk(py, cs, b, if i == 0 then None else Some(chain[i - 1]))
    requires Get(b, "hash", JNull) == Get(chain[i], "hash", JNull)
    ensures ValidChain(py, cs, chain[i := b])
  {
    var d := chain[i := b];
    forall j | 0 <= j < |d| ensures BlockOkAt(py, cs, d, j) {
      assert BlockOkAt(py, cs, chain, j);
      if j == i + 1 {
        BlockOkReadsPreviousHash(py, cs, d[j], chain[i], b);
      } else if j != i {
        assert d[j] == chain[j];
        if j > 0 {
          assert d[j - 1] == chain[j - 1];
        }
      }
    }
  }

  /** The recomputed digest reads only previous_hash, merkle_root, consensus and authority_id
      of the block, besides the numeric header. */
  lemma ExpectedHashIgnores(py: Builtins, cs: Suite, b: Block, field: string, v: Json, h: Header)
    requires field !in {"previous_hash", "merkle_root", "consensus", "authority_id"}
    ensures ExpectedHash(py, cs, b[field := v], h) == ExpectedHash(py, cs, b, h)
  {
    var b' := b[field := v];
    assert Get(b', "previous_hash", JStr("")) == Get(b, "previous_hash", JStr(""));
    assert Get(b', "merkle_root", JStr("")) == Get(b, "merkle_root", JStr(""));
    assert Get(b', "authority_id", JStr("")) == Get(b, "authority_id", JStr(""));
    assert ConsensusTag(b', h.difficulty) == ConsensusTag(b, h.difficulty);
  }

  /** Clearing the signature or the public key of any block of a valid chain (to "", null or
      any other falsy value) goes undetected: check 4 then skips the block. */
  lemma SignatureStrippedAccepted(py: Builtins, cs: Suite, chain: seq<Block>, i: int, field: string, v: Json)
    requires ValidChain(py, cs, chain) && 0 <= i < |chain|
    requires (field == "signature" || field == "public_key") && !Truthy(v)
    ensures ValidChain(py, cs, chain[i := chain[i][field := v]])
  {
    var b := chain[i];
    var b' := b[field := v];
    assert BlockOkAt(py, cs, chain, i);
    assert HeaderNumbers(py, b') == HeaderNumbers(py, b);
    assert BlockPayload(b') == BlockPayload(b);
    ExpectedHashIgnores(py, cs, b, field, v, HeaderNumbers(py, b).value);
    assert SignatureOk(cs, b');
    ValidChainReplace(py, cs, chain, i, b');
  }

  /** On a block whose consensus tag is present and is not "pow", any nonce and difficulty
      that `int()` accepts go undetected: the PoA digest hashes neither. */
  lemma PoaNonceNotChecked(py: Builtins, cs: Suite, chain: seq<Block>, i: int, n: Json, dv: Json)
    requires ValidChain(py, cs, chain) && 0 <= i < |chain|
    requires "consensus" in chain[i] && chain[i]["consensus"] != JStr("pow")
    requires PyInt(py, n).Ok? && PyInt(py, dv).Ok?
    ensures ValidChain(py, cs, chain[i := chain[i]["nonce" := n]["difficulty" := dv]])
  {
    var b := chain[i];
    var b' := b["nonce" := n]["difficulty" := dv];
    assert BlockOkAt(py, cs, chain, i);
    var h := HeaderNumbers(py, b).value;
    var h' := Header(h.timestamp, PyInt(py, n).value, PyInt(py, dv).value);
    assert HeaderNumbers(py, b') == Some(h');
    assert BlockPayload(b') == BlockPayload(b);
    assert ConsensusTag(b', h'.difficulty) == ConsensusTag(b, h.difficulty);
    assert ExpectedHash(py, cs, b', h') == ExpectedHash(py, cs, b, h);
    assert SignatureOk(cs, b') == SignatureOk(cs, b);
    ValidChainReplace(py, cs, chain, i, b');
  }

  /** A signed block whose signature does not verify against its payload is rejected. */
  lemma BadSignatureDetected(py: Builtins, cs: Suite, chain: seq<Block>, i: int)
    requires 0 <= i < |chain|
    requires Truthy(Get(chain[i], "signature", JNull)) && Truthy(Get(chain[i], "public_key", JNull))
    requires !VerifySignature(cs, Get(chain[i], "public_key", JNull), BlockPayload(chain[i]), Get(chain[i], "signature", JNull))
    ensures !ValidChain(py, cs, chain)
  {
    assert !BlockOkAt(py, cs, chain, i);
  }

  /** Under PoW with a positive difficulty, a block whose recomputed digest lacks the leading
      zeros is rejected. */
  lemma WeakPowDetected(py: Builtins, cs: Suite, chain: seq<Block>, i: int)
    requires 0 <= i < |chain|
    requires HeaderNumbers(py, chain[i]).Some?
    requires var h := HeaderNumbers(py, chain[i]).value;
      && ConsensusTag(chain[i], h.difficulty) == JStr("pow") && h.difficulty > 0
      && !MeetsDifficulty(ExpectedHash(py, cs, chain[i], h), h.difficulty)
    ensures !ValidChain(py, cs, chain)
  {
    assert !BlockOkAt(py, cs, chain, i);
  }
}
