# AML blockchain ledger — a Dafny model

This project models the ledger core of an anti-money-laundering (AML) transaction system in three parts.

**The `LocalBlockchain` node** (blockchain/local_chain.py). It keeps a list of block records and seals each new one in one of two consensus modes:

- Proof-of-Work: the least nonce whose SHA-256 header digest starts with `difficulty` zeros.
- Proof-of-Authority: an authority id derived from the node's public key.

Each block carries a Merkle root of its payload and an RSA signature. The node:

- validates any candidate chain (`is_valid_chain`);
- adopts a longer valid chain from a peer;
- keeps a set of peers as `host:port`;
- derives wallet balances from the transactions recorded in the blocks;
- mirrors its chain in a file.

**The AML pipeline** (aml/pipeline.py). A transaction is rejected when either party is not a verified user (KYC). It is then rejected when its amount is invalid or above the high-value threshold. Otherwise it is flagged or approved by comparing the fraud model's probability with a threshold. Every completed evaluation is handed to a sink once.

**The command-line fraud checker** (transaction_fraud_checker.py), in three pieces:

- the rule-based risk score `assess_risk`;
- its own simple persistent hash chain `Blockchain`;
- the loop `process_transactions`, which clamps the model's probability into [0, 1], derives the status, appends one block per transaction and builds one result record per transaction.

Python values are modelled by `PyJson.Json`, and Python's semantics are written out:

- truthiness;
- `==` across int, float and bool;
- `int()` and `float()` with the exceptions they raise;
- f-string rendering;
- `dict.get`;
- negative slices.

Library code is modelled as function-valued parameters whose behaviour the project does not see: SHA-256, `json.dumps(sort_keys=True)`, RSA-PSS signing and verification, PEM export, Python's number parsers and float rendering, and the ML model. The only assumptions made about them are in `Crypto.Sound`:

- a digest is 64 characters long;
- a signature made with a key verifies under that key's public key.

Clocks, the key pair and the content of the chain file are parameters.

Modules, one per file:

- `PyJson` (py_json.dfy): Python values and built-ins.
- `Crypto` (crypto.dfy): the crypto library.
- `ChainRules` (chain_rules.dfy): digests, sealing and the validator.
- `Wallets` (balances.dfy): balances.
- `Peers` (peers.dfy): peer address parsing.
- `LocalChain` (local_chain.dfy): the node class.
- `AmlPipeline` (aml_pipeline.dfy): the AML pipeline.
- `FraudChecker` (fraud_checker.dfy): the command-line checker.

## Model

| member | source | states |
|---|---|---|
| `PyJson.PyInt` | blockchain/local_chain.py:279-287 | `int(v)`: an int is itself; a list, dict or None raises TypeError; nothing but TypeError or ValueError is raised |
| `PyJson.PyFloat` | blockchain/local_chain.py:406-409 | `float(v)`: a float is itself; a list, dict or None raises TypeError; OverflowError only for an int too large for a double |
| `PyJson.Str` | blockchain/local_chain.py:99-101 | f-string rendering: a str renders as itself, an int as its decimal text |
| `PyJson.DecimalRoundTrip` | blockchain/local_chain.py:99-101 | the decimal text of every int parses back to that int |
| `PyJson.IntToDecimalInjective` | blockchain/local_chain.py:99-101 | two ints with the same decimal text are equal |
| `PyJson.PyEqReflexive` | blockchain/local_chain.py:268 | Python's `==` holds between every JSON value and itself |
| `PyJson.PyEqStr` | blockchain/local_chain.py:274 | a str is `==` only to the identical str, on either side |
| `PyJson.Trunc` | transaction_fraud_checker.py:271 | `int()` of a float truncates toward zero, for both signs |
| `PyJson.SliceFrom` | blockchain/local_chain.py:379 | `s[start:]` with Python's negative indices: its length for every sign of `start`, and that it is a suffix of `s` |
| `PyJson.Reverse` | transaction_fraud_checker.py:214 | `reversed`: same length, element `k` is element `len-1-k` |
| `ChainRules.MerkleRoot` | blockchain/local_chain.py:81-87 | `calculate_merkle_root`: the digest of the sorted-key JSON of the payload; `BlockOfChecks` proves a block built over the payload passes the Merkle check |
| `ChainRules.MerkleForBlock` | blockchain/local_chain.py:89-93 | `_calculate_merkle_for_block`: the digest of the sorted-key JSON of the block's payload (`data`, or `{}` when falsy) |
| `ChainRules.MerkleForBlockIsRoot` | blockchain/local_chain.py:81-93 | the Merkle digest of a block is `MerkleRoot` of the payload it carries, so the validator and `create_block` agree |
| `ChainRules.PowDigest` | blockchain/local_chain.py:98-101 | `_compute_pow_hash`: previous hash, timestamp, Merkle root and nonce concatenated as text and hashed; `PowIsPoaOfNonceText` relates it to the PoA digest |
| `ChainRules.PoaDigest` | blockchain/local_chain.py:103-106 | `_compute_poa_hash`: the same layout with the authority id last |
| `ChainRules.VerifySignature` | blockchain/local_chain.py:138-158 | `_verify_signature`: false unless key and signature are strs, otherwise the library's verdict on the sorted-key JSON of the payload; `BlockOfSigned` proves a payload signed with a key verifies against that key's PEM |
| `ChainRules.SealedBlock` | blockchain/local_chain.py:164-226 | the block `create_block` appends: `NewBlock` with the least satisfying nonce under PoW; its fields are stated by `SealedBlockShape`, `SealedPowBlock` and `SealedPoaBlock` |
| `ChainRules.BlockOk` | blockchain/local_chain.py:258-319 | the five checks `is_valid_chain` makes of one block (fields, link, Merkle root, hash and difficulty, signature); the reference that `IsValidChain` is proved equal to |
| `ChainRules.ValidChain` | blockchain/local_chain.py:243-321 | a non-empty chain every block of which passes `BlockOk` against its predecessor; `IsValidChain` returns exactly this |
| `ChainRules.ParseConsensus` | blockchain/local_chain.py:33-36 | only "pow" and "poa" are accepted, and the accepted mode names itself |
| `ChainRules.BlockPayload` | blockchain/local_chain.py:90-93 | `block.get("data", {}) or {}`: the stored data when present and truthy, otherwise the empty dict |
| `ChainRules.AuthorityId` | blockchain/local_chain.py:108-118 | the authority id is the first 16 hex characters of the digest of the public key's PEM |
| `ChainRules.PowIsPoaOfNonceText` | blockchain/local_chain.py:98-106 | the PoW digest is the PoA digest with the nonce's decimal text as authority id (both hash the same field layout) |
| `ChainRules.ZeroPrefix` | blockchain/local_chain.py:178 | `"0" * difficulty`: `difficulty` zeros, none when it is not positive |
| `ChainRules.MeetsDifficultyMeans` | blockchain/local_chain.py:183 | a digest meets the difficulty iff the difficulty is not positive or its first `difficulty` characters are all '0' |
| `ChainRules.LeastNonceBelow` | blockchain/local_chain.py:176-185 | when nonce `w` meets the difficulty, a least such nonce exists, at most `w` |
| `ChainRules.LeastNonceUnique` | blockchain/local_chain.py:176-185 | the least satisfying nonce is unique |
| `ChainRules.LeastNonce` | blockchain/local_chain.py:176-185 | the nonce the loop stops at: it meets the difficulty and no smaller nonce does |
| `ChainRules.MinePow` | blockchain/local_chain.py:176-185 | the loop counting up from 0 returns the least nonce meeting the difficulty, with its digest |
| `ChainRules.BlockOf` | blockchain/local_chain.py:204-219 | the block dict holds exactly the eleven fields with the given values, plus `authority_id` exactly when one is given |
| `ChainRules.NewBlock` | blockchain/local_chain.py:164-219 | the assembled block always has a `hash` (what it contains is stated by the lemmas below) |
| `ChainRules.NewBlockHeaderFields` | blockchain/local_chain.py:204-209 | the new block's index is the old length plus one; it links to the last block's hash ("0" on an empty chain); it holds the payload and its Merkle root |
| `ChainRules.NewBlockSealFields` | blockchain/local_chain.py:187-219 | consensus tag, payload signature, public key; nonce and difficulty under PoW, both 0 under PoA; `authority_id` only and always under PoA |
| `ChainRules.NewBlockHashField` | blockchain/local_chain.py:175-193 | the hash is the PoW digest of the header under PoW, the PoA digest over the authority id under PoA |
| `ChainRules.BlockOfChecks` | blockchain/local_chain.py:259-287 | a block record with the payload's Merkle root passes the required-field and Merkle checks, and its header fields read back as given |
| `ChainRules.BlockOfSigned` | blockchain/local_chain.py:309-319 | a block record signed by a key, carrying that key's PEM, passes the signature check |
| `ChainRules.NewBlockFieldsPresent` | blockchain/local_chain.py:259-276 | a freshly assembled block has every required field and a matching Merkle root |
| `ChainRules.NewBlockHeader` | blockchain/local_chain.py:279-287 | its numeric header reads back as the timestamp, nonce and difficulty used to seal it |
| `ChainRules.NewBlockLinks` | blockchain/local_chain.py:266-270 | on a non-empty chain its `previous_hash` equals the last block's hash under Python's `==` |
| `ChainRules.NewBlockSigned` | blockchain/local_chain.py:123-159 | its signature verifies against its payload under its public key |
| `ChainRules.NewPowBlockConsensus` | blockchain/local_chain.py:289-299 | a PoW block sealed with a nonce meeting the difficulty passes the hash and leading-zero checks |
| `ChainRules.NewPoaBlockConsensus` | blockchain/local_chain.py:301-306 | a PoA block passes the hash check |
| `ChainRules.SealedBlockOk` | blockchain/local_chain.py:259-319 | the block `create_block` seals passes every check against the chain's last block |
| `ChainRules.SealedBlockKeepsValid` | blockchain/local_chain.py:221-222 | appending the sealed block to an empty or valid chain gives a valid chain |
| `ChainRules.SealedBlockShape` | blockchain/local_chain.py:204-215 | index, previous hash, timestamp, payload, Merkle root, consensus, signature and public key of the sealed block |
| `ChainRules.SealedPowBlock` | blockchain/local_chain.py:175-187 | under PoW the nonce is the least one meeting the difficulty, the hash is its digest and has the leading zeros, and there is no authority id |
| `ChainRules.SealedPoaBlock` | blockchain/local_chain.py:189-193 | under PoA nonce and difficulty are 0 and the hash is the PoA digest over the 16-character authority id |
| `ChainRules.HeaderNumbers` | blockchain/local_chain.py:279-287 | when the numeric fields convert, the timestamp is `int()` of the stored one (0 when absent) |
| `ChainRules.IsValidChain` | blockchain/local_chain.py:242-321 | the fail-fast loop returns true iff the chain is non-empty and every block passes every check against its predecessor |
| `ChainRules.ValidChainSnoc` | blockchain/local_chain.py:256-321 | a chain plus one block is valid iff the chain was valid (or empty) and the block passes against its last block |
| `ChainRules.ValidChainPrefix` | blockchain/local_chain.py:256-321 | every non-empty prefix of a valid chain is valid |
| `ChainRules.BlockOkReadsCheckedFields` | blockchain/local_chain.py:259-319 | a block's verdict depends only on the eleven fields the validator reads, of it and of its predecessor |
| `ChainRules.ValidChainReadsCheckedFields` | blockchain/local_chain.py:256-321 | two chains agreeing on those fields of every block get the same verdict |
| `ChainRules.IndexNotChecked` | blockchain/local_chain.py:259-319 | rewriting the `index` of any block never changes the verdict |
| `ChainRules.TamperedHashDetected` | blockchain/local_chain.py:291-306 | changing the hash of any block of a valid chain makes it invalid |
| `ChainRules.TamperedMerkleRootDetected` | blockchain/local_chain.py:272-276 | changing the Merkle root of any block of a valid chain makes it invalid |
| `ChainRules.TamperedPayloadDetected` | blockchain/local_chain.py:272-276 | changing a payload so that its digest changes makes a valid chain invalid |
| `ChainRules.TamperedLinkDetected` | blockchain/local_chain.py:266-270 | re-pointing a non-genesis block's `previous_hash` away from its predecessor's hash makes a valid chain invalid |
| `ChainRules.BadSignatureDetected` | blockchain/local_chain.py:309-319 | a block carrying a signature and key that do not verify makes the chain invalid |
| `ChainRules.TamperedNonceDetected` | blockchain/local_chain.py:282-298 | under PoW, rewriting a block's nonce is detected whenever the digest recomputed at the new nonce differs from the one at the old nonce |
| `ChainRules.BlockOkReadsPreviousHash` | blockchain/local_chain.py:266-271 | a block's verdict reads only the hash of its predecessor |
| `ChainRules.ValidChainReplace` | blockchain/local_chain.py:256-321 | replacing a block by one that passes against the same predecessor and keeps the same hash keeps a valid chain valid |
| `ChainRules.ExpectedHashIgnores` | blockchain/local_chain.py:289-306 | the recomputed digest reads only previous_hash, merkle_root, consensus and authority_id besides the numeric header |
| `ChainRules.SignatureStrippedAccepted` | blockchain/local_chain.py:308-319 | clearing the signature or the public key of any block of a valid chain (to "", null or another falsy value) goes undetected, because check 4 only verifies a block that has both |
| `ChainRules.PoaNonceNotChecked` | blockchain/local_chain.py:289-306 | on a block tagged with a consensus other than "pow", any nonce and difficulty that `int()` accepts go undetected, because the PoA digest hashes neither |
| `ChainRules.WeakPowDetected` | blockchain/local_chain.py:297-299 | a PoW block with positive difficulty whose recomputed digest lacks the zeros makes the chain invalid |
| `Wallets.KeyOfIsPyEq` | blockchain/local_chain.py:412-414 | two hashable values are the same dict key iff Python's `==` holds between them |
| `Wallets.IndexOfFirst` | blockchain/local_chain.py:412-414 | a dict lookup finds the first entry with an equal key, and no entry when there is none |
| `Wallets.Lookup` | blockchain/local_chain.py:412 | `balances.get(w, 0.0)` is 0.0 for a wallet not in the dict |
| `Wallets.LookupFinds` | blockchain/local_chain.py:412 | in a dict with distinct keys, `balances.get(w, 0.0)` is the balance stored under the key equal to `w` |
| `Wallets.PutLookup` | blockchain/local_chain.py:412-414 | after `balances[w] = v`, reading `w` (or an equal key) gives `v` and every other wallet is unchanged |
| `Wallets.PutWellFormed` | blockchain/local_chain.py:412-414 | assignment keeps the dict's keys distinct |
| `Wallets.PutTotal` | blockchain/local_chain.py:412-414 | assignment changes the sum of all balances by the new value minus the old one |
| `Wallets.AmountOf` | blockchain/local_chain.py:406-409 | `float(tx.get("amount", 0) or 0)`, or 0.0 on any exception: 0.0 when absent or falsy, a float as itself, an int in range as its value |
| `Wallets.PostingOf` | blockchain/local_chain.py:396-404 | a block contributes nothing exactly when its payload is a dict with no truthy transaction; only AttributeError can escape |
| `Wallets.Post` | blockchain/local_chain.py:411-414 | `if w: balances[w] = balances.get(w, 0.0) + delta` raises (TypeError) iff `w` is truthy and unhashable |
| `Wallets.Apply` | blockchain/local_chain.py:411-414 | the debit of the sender then the credit of the receiver keeps every key hashable |
| `Wallets.Step` | blockchain/local_chain.py:396-414 | one iteration of the loop keeps every key hashable |
| `Wallets.BalancesOf` | blockchain/local_chain.py:381-416 | the balances after the whole chain have hashable keys |
| `Wallets.PostLookup` | blockchain/local_chain.py:411-414 | a debit or credit changes exactly the posted wallet's balance (when truthy), by `delta` |
| `Wallets.PostTotal` | blockchain/local_chain.py:411-414 | it changes the sum of all balances by `delta` when the wallet is truthy, by nothing otherwise |
| `Wallets.ApplyLookup` | blockchain/local_chain.py:411-414 | a transaction block changes each wallet's balance by its flow (received minus sent) |
| `Wallets.ApplyTotal` | blockchain/local_chain.py:411-414 | it changes the sum of all balances by the credited amount minus the debited amount |
| `Wallets.DebitThenCreditTotal` | blockchain/local_chain.py:411-414 | the same, for a debit followed by a credit |
| `Wallets.PostWellFormed` | blockchain/local_chain.py:411-414 | a debit or credit keeps the dict's keys distinct |
| `Wallets.ApplyWellFormed` | blockchain/local_chain.py:411-414 | a transaction block keeps the dict's keys distinct |
| `Wallets.BalanceIsNetFlow` | blockchain/local_chain.py:381-420 | every wallet's computed balance is what it received minus what it sent, summed over the chain |
| `Wallets.BalancesSumToZero` | blockchain/local_chain.py:381-416 | when every transaction names a truthy sender and receiver, the balances sum to zero (money is conserved) |
| `Wallets.BalancesWellFormed` | blockchain/local_chain.py:381-416 | the computed dict never holds two equal keys |
| `Wallets.BalancesFailOnlyOnMalformedBlocks` | blockchain/local_chain.py:396-414 | the computation raises only for a payload or transaction that is not a dict, or an unhashable truthy party |
| `Wallets.BalancesRaisePersists` | blockchain/local_chain.py:396-416 | an exception on a prefix of the chain is the exception of the whole computation |
| `Wallets.BalancesOfPrefixStep` | blockchain/local_chain.py:396-414 | the balances after `i + 1` blocks are one loop step applied to those after `i` |
| `Wallets.ApplyBlock` | blockchain/local_chain.py:397-414 | one pass of the loop body yields exactly one step of the reference computation |
| `Peers.NodeEntryAsWritten` | blockchain/local_chain.py:351-354 | `urlparse(address).netloc or .path`, never the empty string when some entry is kept |
| `Peers.AsWrittenDropsHostName` | blockchain/local_chain.py:351-354 | as written, `host:port` with a letter-initial host is parsed as scheme `host` and path `port`, so only `port` is stored |
| `Peers.LocalhostExample` | blockchain/local_chain.py:351-354 | as written, "localhost:5001" registers "5001" |
| `Peers.PeerAddress` | blockchain/local_chain.py:343-354 | the corrected reading: an address without "://" has its leading blanks stripped and is parsed as a network location (behind "//" unless it already starts with "//"); a kept entry is never empty |
| `Peers.PeerAddressOfHostPort` | blockchain/local_chain.py:346-349 | corrected: a bare `host:port`, after any leading blanks or control characters, is registered as given |
| `Peers.PeerUrlOfBareHost` | blockchain/local_chain.py:346-349 | corrected: blanks followed by a bare `host:port` are read as the network location `host:port` |
| `Peers.ReadingsAgreeOnUrl` | blockchain/local_chain.py:351-354 | for an address holding "://", the code as written and the corrected reading store the same entry iff parsing raises, finds a network location, or leaves an empty path |
| `Peers.ReadingsAgreeOnBareHost` | blockchain/local_chain.py:351-354 | for an address shaped like `host:port` (no blanks, '/', '?', '#' or brackets), the two readings store the same entry iff `urlparse` reads no scheme off its front and it holds no ';' |
| `Peers.SplitTailPath` | blockchain/local_chain.py:351 | `urlparse` never lengthens the path after the scheme, and cuts it short at a ';' in a path without '/' |
| `Peers.PeerAddressOfUrl` | blockchain/local_chain.py:346-349 | `scheme://host:port/...` is registered as `host:port`, by the corrected reading and the code as written alike |
| `Peers.UrlOfHostPortParses` | blockchain/local_chain.py:351 | `urlparse` of `scheme://host:port` plus a path, query or fragment has the lowered scheme and network location `host:port` |
| `Peers.SchemeSplitOf` | blockchain/local_chain.py:351 | `urlparse` takes a letter-initial prefix of scheme characters before ':' as the (lower-cased) scheme |
| `Peers.NetlocSplitOf` | blockchain/local_chain.py:351 | after "//", the network location runs up to the first '/', '?' or '#' |
| `Peers.CleanKeeps` | blockchain/local_chain.py:351 | a URL without whitespace or control characters is not altered by `urlparse`'s cleaning |
| `LocalChain.Loaded` | blockchain/local_chain.py:330-338 | a missing or unreadable file leaves the chain empty |
| `LocalChain.ChosenDifficulty` | blockchain/local_chain.py:39 | the given difficulty, or 4 when none is given |
| `LocalChain.LocalBlockchain.constructor` | blockchain/local_chain.py:27-61 | a stored chain is kept iff it is non-empty and valid, otherwise the chain is a fresh genesis block; no peers; the chain is valid and saved |
| `LocalChain.LocalBlockchain.Open` | blockchain/local_chain.py:33-34 | a consensus name other than "pow" or "poa" raises ValueError, and any other name gives a valid node |
| `LocalChain.LocalBlockchain.InitFreshChain` | blockchain/local_chain.py:66-69 | the chain becomes the single sealed genesis block, valid and saved |
| `LocalChain.LocalBlockchain.CreateGenesisBlock` | blockchain/local_chain.py:74-76 | appends the sealed block of `{"system": "Blockchain Initialized"}` |
| `LocalChain.LocalBlockchain.SaveChain` | blockchain/local_chain.py:326-328 | the file holds the chain |
| `LocalChain.LocalBlockchain.CreateBlock` | blockchain/local_chain.py:164-223 | appends exactly the sealed block for the payload, keeps the chain valid and saves it |
| `LocalChain.LocalBlockchain.FindNonce` | blockchain/local_chain.py:175-191 | the least nonce meeting the difficulty under PoW, 0 under PoA |
| `LocalChain.LocalBlockchain.StoreEvaluation` | blockchain/local_chain.py:228-233 | an evaluation is recorded as exactly one sealed block |
| `LocalChain.LocalBlockchain.IsChainValid` | blockchain/local_chain.py:238-240 | the node's own chain always passes the validator, as long as no caller writes into a stored payload (see "## Left out") |
| `LocalChain.LocalBlockchain.ReplaceChain` | blockchain/local_chain.py:356-372 | replaced iff the candidate is non-empty, strictly longer and valid; then it is the chain and is saved, otherwise nothing changes |
| `LocalChain.LocalBlockchain.RegisterNode` | blockchain/local_chain.py:343-354 | the peer set grows by exactly `Peers.PeerAddress(address)`, the corrected reading of the address from "## Findings" (it differs from the code in the cases listed under "## Left out"), when there is one, and is unchanged otherwise |
| `LocalChain.LocalBlockchain.Recent` | blockchain/local_chain.py:377-379 | the last `limit` blocks, the whole chain for 0, all but the first `-limit` for a negative limit |
| `LocalChain.LocalBlockchain.ComputeBalances` | blockchain/local_chain.py:381-416 | the loop over the chain computes the reference balances, or the exception that stops it |
| `LocalChain.LocalBlockchain.GetBalance` | blockchain/local_chain.py:418-420 | a wallet's balance is what it received minus what it sent, 0.0 when it never appears |
| `AmlPipeline.CheckKyc` | aml/pipeline.py:34-37 | `check_kyc`: both parties in the verified set, with `and` short-circuiting and TypeError for an unhashable id; stated by `CheckKycMeans` and `CheckKycShortCircuits` |
| `AmlPipeline.Evaluation` | aml/pipeline.py:50-105 | the record `evaluate_transaction` stores and returns, or the exception that escapes; stated by `EvaluationShape`, `EvaluationStatus` and the three path lemmas |
| `AmlPipeline.ConfigOrDefault` | aml/pipeline.py:30 | a given config is kept; none gives thresholds 25000.0 and 0.5 |
| `AmlPipeline.InVerified` | aml/pipeline.py:32-37 | membership raises TypeError iff the value is unhashable, and holds iff it is a verified user's id |
| `AmlPipeline.CheckKycMeans` | aml/pipeline.py:34-37 | KYC passes iff both the sender and the receiver id are verified users |
| `AmlPipeline.CheckKycShortCircuits` | aml/pipeline.py:37 | an unverified sender fails KYC whatever the receiver is |
| `AmlPipeline.EnforceRules` | aml/pipeline.py:39-48 | "Invalid amount value" iff `float()` raises TypeError or ValueError; high-risk iff the amount exceeds the threshold; compliant iff it does not; OverflowError escapes |
| `AmlPipeline.DefaultRulesBoundary` | aml/pipeline.py:41-48 | with the default config an amount of exactly 25000.0, or none, is compliant and anything above is high-risk |
| `AmlPipeline.ToScalar` | aml/pipeline.py:86-89 | `float(p)` when it succeeds, otherwise `float(p[0])` |
| `AmlPipeline.EvaluationShape` | aml/pipeline.py:52-55 | every completed evaluation carries the external id and transaction it was given |
| `AmlPipeline.EvaluationStatus` | aml/pipeline.py:57-95 | every completed evaluation records the KYC outcome and one of the four statuses |
| `AmlPipeline.KycFailurePath` | aml/pipeline.py:57-67 | a failed KYC gives "rejected_kyc" with its reason, and neither the rules nor the model are consulted |
| `AmlPipeline.RuleFailurePath` | aml/pipeline.py:69-80 | a failed rule gives "rejected_rules" with the rule's reason, and the model is not consulted |
| `AmlPipeline.ModelPath` | aml/pipeline.py:82-95 | past KYC and rules, the status is "flagged_fraud" iff the probability reaches the fraud threshold, "approved" otherwise |
| `AmlPipeline.ExplainFailureRecorded` | aml/pipeline.py:97-102 | a failing explainer's message is recorded as `{"error": msg}` |
| `AmlPipeline.AmlPipeline.constructor` | aml/pipeline.py:22-32 | stores the model and the config (or the default); nothing is stored in the sink |
| `AmlPipeline.AmlPipeline.Store` | aml/pipeline.py:104 | the sink receives the evaluation |
| `AmlPipeline.AmlPipeline.CheckKycOf` | aml/pipeline.py:34-37 | computes the KYC verdict |
| `AmlPipeline.AmlPipeline.EvaluateTransaction` | aml/pipeline.py:50-105 | returns the evaluation, hands it to the sink exactly once, and stores nothing when an exception escapes |
| `FraudChecker.RiskAmount` | transaction_fraud_checker.py:226-229 | a missing amount counts as 0.0 |
| `FraudChecker.RiskSpeed` | transaction_fraud_checker.py:235-238 | a missing speed counts as 3 |
| `FraudChecker.TotalWeightAppend` | transaction_fraud_checker.py:231-246 | the weight of concatenated factor lists is the sum of their weights |
| `FraudChecker.FactorsOfMeans` | transaction_fraud_checker.py:223-246 | each factor is listed exactly when its condition holds, in the fixed test order |
| `FraudChecker.FactorsOfWeight` | transaction_fraud_checker.py:223-246 | the listed factors weigh 2 for a high amount and 1 for each other present factor |
| `FraudChecker.AssessRisk` | transaction_fraud_checker.py:221-248 | score 2/1/1 for high amount, fast speed and cross-border; each factor listed iff its condition holds, in the fixed order; the score is the factors' total weight, between 0 and 4 |
| `FraudChecker.HashBlock` | transaction_fraud_checker.py:156-158 | `_hash_block`: the digest of index, previous hash, timestamp and sorted-key JSON of the payload as text; `SimpleBlockShape` states that every appended block carries it |
| `FraudChecker.SimpleBlock` | transaction_fraud_checker.py:188-211 | the block `create_block` builds after the last block, or the exception reading its index; its shape is stated by `SimpleBlockShape` |
| `FraudChecker.Blockchain.LastBlock` | transaction_fraud_checker.py:185-186 | `get_last_block`: the chain's last entry; `ProcessOne` states that the new last block is appended after the old one |
| `FraudChecker.StatusOf` | transaction_fraud_checker.py:288-295 | "flagged_fraud" at a probability of 0.5 or more, "approved" below; `FraudPayload` records it |
| `FraudChecker.ExternalId` | transaction_fraud_checker.py:271 | the transaction's truthy `external_id`, or `cli-tx-<int(time)>-<idx>`; `LoggedRunLinks` states that block and result record it |
| `FraudChecker.AppendedAfterLinks` | transaction_fraud_checker.py:188-211 | a block `create_block(last["hash"], payload)` appends has `previous_hash` equal to the last block's hash, the next integer index, the digest of its own fields as hash, the payload with its timestamp as data, and can be extended again |
| `FraudChecker.LoggedRunLinks` | transaction_fraud_checker.py:270-310 | in the logged run, each appended block is hash-linked to the block before it, carries its transaction's payload, and the result record describes it |
| `FraudChecker.InitialBlock` | transaction_fraud_checker.py:150-154 | the genesis block has index 1, previous hash "0" and the clock's timestamp |
| `FraudChecker.Subscript` | transaction_fraud_checker.py:194 | `v[key]` succeeds iff `v` is a dict holding the key, and raises KeyError for a dict without it |
| `FraudChecker.PlusOne` | transaction_fraud_checker.py:194 | `v + 1` succeeds iff `v` is numeric, and an int becomes its successor |
| `FraudChecker.WithTimestamp` | transaction_fraud_checker.py:198-199 | the copy has the payload's keys plus "timestamp", keeps every payload value, and adds the clock's timestamp only when absent |
| `FraudChecker.SimpleBlockShape` | transaction_fraud_checker.py:188-211 | `create_block` raises iff the last block has no numeric index; otherwise the block has its five fields, index one more, the given previous hash and the digest of its fields |
| `FraudChecker.Blockchain.constructor` | transaction_fraud_checker.py:145-148 | the chain is the stored list when it parsed to a non-empty list, otherwise a fresh genesis block |
| `FraudChecker.Blockchain.LoadOrInit` | transaction_fraud_checker.py:160-175 | the same, for every kind of store, with the file written after bootstrapping |
| `FraudChecker.Blockchain.Persist` | transaction_fraud_checker.py:177-183 | the file holds the chain |
| `FraudChecker.Blockchain.CreateBlock` | transaction_fraud_checker.py:188-211 | appends exactly the block `SimpleBlock` describes and persists, or raises with nothing appended |
| `FraudChecker.Blockchain.Recent` | transaction_fraud_checker.py:213-214 | `chain[-limit:]` newest first: the last `limit` blocks for a positive limit, the whole chain for 0, all but the first `-limit` for a negative limit |
| `FraudChecker.ClampProbability` | transaction_fraud_checker.py:287 | the result lies in [0, 1], is the input when it already does, and is the nearer bound otherwise |
| `FraudChecker.RecordedProbability` | transaction_fraud_checker.py:280-287 | the recorded probability lies in [0, 1]; 0.0 when the model raises; the model's value when it is in range |
| `FraudChecker.FraudPayload` | transaction_fraud_checker.py:291-295 | the block payload holds only external id, status and probability, flagged iff the probability is at least 0.5 |
| `FraudChecker.ResultRecord` | transaction_fraud_checker.py:303-310 | the result record holds the transaction, the probability and `is_fraud` iff it is at least 0.5 |
| `FraudChecker.ExtendableExtends` | transaction_fraud_checker.py:194-211 | after a block with a hash and numeric index, `create_block` succeeds and appends such a block again |
| `FraudChecker.ProcessOne` | transaction_fraud_checker.py:270-310 | one iteration appends exactly the block `create_block(get_last_block()["hash"], payload)` builds after the old last block, carrying the payload, and returns its result record; or raises with nothing appended |
| `FraudChecker.LoggedExtend` | transaction_fraud_checker.py:270-312 | appending one logged result and its block keeps every earlier result logged against its own block and predecessor, in order |
| `FraudChecker.ProcessTransactions` | transaction_fraud_checker.py:263-312 | one block and one result per transaction, in order, after the old chain, each block appended by `create_block` after the one before it (so hash-linked, see `LoggedRunLinks`); in the model, only a stored last block without hash or numeric index can make it raise, and then nothing is appended (the source can also raise from `_prepare_features`, see "## Left out") |

## Left out

- Strings are sequences of Unicode scalar values, so a Python str holding a lone surrogate cannot be represented. `json.load` produces one from a `"\ud800"` escape, in a stored chain (blockchain/local_chain.py:335, transaction_fraud_checker.py:164) or in a peer's candidate chain. Encoding such a str raises UnicodeEncodeError outside any try block: for `previous_hash` or `authority_id` in the digests (blockchain/local_chain.py:100, 105) and for `previous_hash` in `_hash_block` (transaction_fraud_checker.py:158). So the source's `is_valid_chain` can raise out of `replace_chain` and `__init__`, and the fraud checker's `create_block` can raise. This path is not modelled.
- Floating point: Python floats are modelled as exact reals. There is no NaN, infinity or rounding, so `float()` of a huge str, and comparisons with NaN, are not modelled.
- The digest, JSON serialisation, PEM export, RSA-PSS signing and verification, Python's number parsers and its float and container rendering are library code. They are opaque functions, and only the two facts in `Crypto.Sound` are assumed of them. PSS signatures are randomised in the library; here one signature per key and message is assumed.
- Key generation, `time.time()` and the content of the chain files are parameters. Reading and writing files is a ghost `persisted` field set by each save.
- Write failures are not modelled. `save_chain` lets them escape, and `_persist` swallows them.
- All `print` output is left out.
- `LocalChain.LocalBlockchain.CreateBlock`: requires that some nonce meets the difficulty (`CanSeal`). Otherwise the source's PoW loop never ends, and a non-terminating call is not modelled. `LocalChain.LocalBlockchain.StoreEvaluation`, `LocalChain.LocalBlockchain.FindNonce`, `LocalChain.LocalBlockchain.InitFreshChain` and `LocalChain.LocalBlockchain.CreateGenesisBlock` carry the same requires.
- `LocalChain.LocalBlockchain.constructor`: requires `CanSeal` for the genesis block whenever the stored chain is not reused, for the same reason: under PoW with a difficulty no digest meets, the source's `__init__` never returns. `LocalChain.LocalBlockchain.Open` carries the same requires.
- `LocalChain.Loaded`: a chain file holding JSON that is not a list of dicts is read as an empty chain, so the model's constructor starts a fresh genesis chain. The source does that only for falsy JSON, and for a non-empty str or a list of strs or lists in which some entry lacks one of the four required field names (for a str entry, `field not in block` is a substring test). An entry that holds all four names, such as the str `"timestamp data merkle_root hash"`, passes that check, and `block.get` then raises AttributeError out of `__init__`. For the other shapes `__init__` raises out of `is_valid_chain` (blockchain/local_chain.py:57, 256-261): KeyError for a non-empty object (`chain[0]`), TypeError for a truthy number (`len`), and TypeError for a list holding a number, a bool or null (`"timestamp" not in 1`).
- `ChainRules.ZeroPrefix`: builds `"0" * difficulty` for every int. In CPython that product raises OverflowError for a difficulty of 2^63 or more, and MemoryError for smaller but still huge ones. Integer width and memory exhaustion are not modelled.
- `ChainRules.IsValidChain`: a PoW-tagged block that passes the field, link, Merkle and hash checks but carries a difficulty of 2^63 or more makes the source's `is_valid_chain` raise at blockchain/local_chain.py:297. The model returns false for it. The difficulty is not part of the hashed header, so such a block is easy to build.
- `LocalChain.LocalBlockchain.ReplaceChain`: for a longer candidate chain holding such a block, the source's `replace_chain` lets the OverflowError escape, and the model returns false. In both cases the local chain is kept.
- `LocalChain.LocalBlockchain.constructor`: resets to a fresh genesis chain in every case where the source's `__init__` raises instead. These cases are a stored chain holding a huge-difficulty PoW block, as for `ChainRules.IsValidChain`, and the stored JSON shapes listed for `LocalChain.Loaded`.
- `LocalChain.LocalBlockchain.RegisterNode`: adds the corrected reading `Peers.PeerAddress` of the address (see "## Findings"), not what the code as written stores (`Peers.NodeEntryAsWritten`). The two differ in several kinds of input:
  - An address without "://" is read by the code as a scheme and path. So a letter-initial run of scheme characters (letters, digits, `+`, `-`, `.`) before the first ':' is dropped as a scheme: the code stores "5001" for "localhost:5001", and "x" for "http:x". The model stores the address itself.
  - An address without "://" that has a '/', '?' or '#' after the host is stored whole by the code, up to its query or fragment ("node1/x", "127.0.0.1:5001/api"). The model stores only the part before that character ("node1", "127.0.0.1:5001").
  - A ';' in an address without "://" cuts the code's path short; the model keeps it in the network location.
  - Leading blanks and control characters: the code strips them before reading a scheme (" localhost:5001" gives "5001"), and the model strips them before reading the network location (" localhost:5001" gives "localhost:5001").
  - An address with "://" whose parse has no network location but a path (a scheme `urlparse` does not recognise, such as "1x://a", or "http:///p"): the code stores the path, and the model stores nothing.
  - `Peers.ReadingsAgreeOnUrl` states exactly when the two agree on an address holding "://", and `Peers.ReadingsAgreeOnBareHost` does so for a bare `host:port`. Agreement is not characterised for the other addresses without "://".
- `Peers.UrlParse` follows `urllib.parse.urlparse` of Python 3.11. Two parts of it are not modelled:
  - the bracketed-host validation of IPv6 literals beyond the balanced-bracket ValueError;
  - the NFKC netloc check.
- `LocalChain.LocalBlockchain.IsChainValid`: the model treats payloads and blocks as values, while the source shares them. `create_block` puts the caller's own `data` dict into the sealed block and returns that block (blockchain/local_chain.py:207, 222-223). `store_evaluation` passes it on (233), and `evaluate_transaction` hands the sink the same `result` dict that it returns to its caller (aml/pipeline.py:104-105). A caller that writes into the returned evaluation therefore changes the sealed block's data, and its Merkle root no longer matches. app.py does so on every manual submission (app.py:316-317), after which `is_chain_valid()` returns false. The promise that the node's own chain always passes the validator holds only when no caller writes into a stored payload. `LocalChain.LocalBlockchain.CreateBlock`, `LocalChain.LocalBlockchain.StoreEvaluation` and `AmlPipeline.AmlPipeline.EvaluateTransaction` copy nothing, and the model does not capture this aliasing either.
- The sink's own exceptions in the AML pipeline are not modelled (the sink here always accepts).
- `FraudChecker.ProcessOne`: `assess_risk` is called by the source only to print its result, so the model does not call it.
- `_prepare_features` (pandas one-hot encoding) and the ML models are not modelled. The model call itself is the opaque `Predictor`.
- `FraudChecker.ProcessTransactions`: `_prepare_features` runs outside the try block (transaction_fraud_checker.py:277), and `pd.get_dummies` raises KeyError for a transaction without `sender_country` or `receiver_country` (line 254). So the source can raise at any transaction, after the blocks of the earlier ones were appended and persisted: for `[valid_tx, {"amount": 5}]` it appends one block and raises. The model has no such raise and returns a result for every transaction.
- `FraudChecker.ProcessOne`: does not raise for a transaction that `_prepare_features` rejects; the source raises KeyError there before predicting or appending anything.
- `FraudChecker.HashBlock`: the f-string rendering of the float timestamp is Python's float repr, modelled as an opaque built-in.
- The concurrency guard in ledger_lock.py, the Flask app, and the Ethereum client are not part of this model.

## Findings

| source | as written | input that shows it | evidently intended | confidence | as-written member | corrected member |
|---|---|---|---|---|---|---|
| blockchain/local_chain.py:351-354 | `urlparse(address).netloc or parsed.path` reads a bare `host:port` whose host starts with a letter as scheme `host` and path `port` | `register_node("localhost:5001")` stores "5001" | store "localhost:5001", as the docstring's `host:port` promise says | high, not executed | `Peers.NodeEntryAsWritten`, exhibited by `Peers.AsWrittenDropsHostName` and `Peers.LocalhostExample` | `Peers.PeerAddress`, proved by `Peers.PeerAddressOfHostPort` and `Peers.PeerAddressOfUrl`; where the two readings agree is stated by `Peers.ReadingsAgreeOnUrl` and `Peers.ReadingsAgreeOnBareHost` |
