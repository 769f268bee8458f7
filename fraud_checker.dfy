/** The command-line fraud checker: a rule-based risk score, a simple persistent hash chain
    that logs one block per checked transaction, and the loop that clamps the model's
    probability, derives the status and appends the block. */
module FraudChecker {
  import opened PyJson
  import opened Crypto

  // ---------------------------------------------------------------------------------------
  // assess_risk
  // ---------------------------------------------------------------------------------------

  /** `float(tx.get("amount", 0.0))`, or 0.0 when that raises. */
  function RiskAmount(py: Builtins, tx: Dict): (a: real)
    ensures "amount" !in tx ==> a == 0.0
  {
    match PyFloat(py, Get(tx, "amount", JFloat(0.0)))
    case Ok(x) => x
    case Raise(_) => 0.0
  }

  /** `int(tx.get("transaction_speed", 3))`, or 3 when that raises. */
  function RiskSpeed(py: Builtins, tx: Dict): (s: int)
    ensures "transaction_speed" !in tx ==> s == 3
  {
    match PyInt(py, Get(tx, "transaction_speed", JInt(3)))
    case Ok(x) => x
    case Raise(_) => 3
  }

  /** `tx.get("sender_country") != tx.get("receiver_country")` */
  predicate CrossBorder(tx: Dict)
  {
    !PyEq(Get(tx, "sender_country", JNull), Get(tx, "receiver_country", JNull))
  }

  /** The three risk factors, in the order they are tested. */
  const Factors: seq<string> := ["High Amount", "Very Fast Transaction", "Cross-Border"]

  /** What a factor adds to the score. */
  function FactorWeight(f: string): nat
  {
    if f == "High Amount" then 2 else 1
  }

  function TotalWeight(fs: seq<string>): nat
  {
    if fs == [] then 0 else FactorWeight(fs[0]) + TotalWeight(fs[1..])
  }

  /** `factors` lists each factor at most once, in the fixed order of `Factors`. */
  predicate InFactorOrder(factors: seq<string>)
  {
    && (forall i :: 0 <= i < |factors| ==> factors[i] in Factors)
    && (forall i, j :: 0 <= i < j < |factors| ==> FactorRank(factors[i]) < FactorRank(factors[j]))
  }

  function FactorRank(f: string): int
  {
    if f == "High Amount" then 0 else if f == "Very Fast Transaction" then 1 else 2
  }

  lemma {:induction false} TotalWeightAppend(a: seq<string>, b: seq<string>)
    ensures TotalWeight(a + b) == TotalWeight(a) + TotalWeight(b)
  {
    if a != [] {
      assert (a + b)[0] == a[0] && (a + b)[1..] == a[1..] + b;
      TotalWeightAppend(a[1..], b);
    } else {
      assert a + b == b;
    }
  }

  /** The factor list for the three conditions, in test order. */
  function FactorsOf(high: bool, fast: bool, cross: bool): seq<string>
  {
    (if high then ["High Amount"] else []) + (if fast then ["Very Fast Transaction"] else [])
    + (if cross then ["Cross-Border"] else [])
  }

  /** Each factor is listed exactly when its condition holds, in the fixed test order. */
  lemma FactorsOfMeans(high: bool, fast: bool, cross: bool)
    ensures var fs := FactorsOf(high, fast, cross);
      && ("High Amount" in fs <==> high)
      && ("Very Fast Transaction" in fs <==> fast)
      && ("Cross-Border" in fs <==> cross)
      && InFactorOrder(fs)
  {
    var fs := FactorsOf(high, fast, cross);
    forall i, j | 0 <= i < j < |fs| ensures FactorRank(fs[i]) < FactorRank(fs[j]) {
    }
  }

  /** The listed factors weigh what the score adds up: 2 for a high amount, 1 for each other. */
  lemma FactorsOfWeight(high: bool, fast: bool, cross: bool)
    ensures TotalWeight(FactorsOf(high, fast, cross))
            == (if high then 2 else 0) + (if fast then 1 else 0) + (if cross then 1 else 0)
  {
    var a: seq<string> := if high then ["High Amount"] else [];
    var b: seq<string> := if fast then ["Very Fast Transaction"] else [];
    var c: seq<string> := if cross then ["Cross-Border"] else [];
    TotalWeightAppend(a, b);
    TotalWeightAppend(a + b, c);
  }

  /** `assess_risk`: (score, factors). Amounts over 10000 weigh 2, a speed under 2 weighs 1, and
      differing countries weigh 1. */
  method AssessRisk(py: Builtins, tx: Dict) returns (riskScore: int, factors: seq<string>)
    ensures riskScore == (if RiskAmount(py, tx) > 10000.0 then 2 else 0)
                         + (if RiskSpeed(py, tx) < 2 then 1 else 0)
                         + (if CrossBorder(tx) then 1 else 0)
    ensures "High Amount" in factors <==> RiskAmount(py, tx) > 10000.0
    ensures "Very Fast Transaction" in factors <==> RiskSpeed(py, tx) < 2
    ensures "Cross-Border" in factors <==> CrossBorder(tx)
    ensures InFactorOrder(factors)
    ensures riskScore == TotalWeight(factors)
    ensures 0 <= riskScore <= 4
  {
    riskScore := 0;
    factors := [];

    var amount := RiskAmount(py, tx);
    if amount > 10000.0 {
      riskScore := riskScore + 2;
      factors := factors + ["High Amount"];
    }

    var speed := RiskSpeed(py, tx);
    if speed < 2 {
      riskScore := riskScore + 1;
      factors := factors + ["Very Fast Transaction"];
    }

    var cross := CrossBorder(tx);
    if cross {
      riskScore := riskScore + 1;
      factors := factors + ["Cross-Border"];
    }

    assert factors == FactorsOf(amount > 10000.0, speed < 2, cross);
    FactorsOfMeans(amount > 10000.0, speed < 2, cross);
    FactorsOfWeight(amount > 10000.0, speed < 2, cross);
  }

  // ---------------------------------------------------------------------------------------
  // The simple chain
  // ---------------------------------------------------------------------------------------

  /** What `json.load` finds in the chain file: nothing, something unreadable, or a value. */
  datatype SimpleStore = NoFile | Corrupt | Parsed(value: Json)

  /** `_hash_block`: the digest of index, previous hash, timestamp and the sorted-key JSON of
      the payload, each as an f-string renders it. */
  function HashBlock(py: Builtins, cs: Suite, index: Json, previousHash: Json, timestamp: real, data: Json): string
  {
    cs.sha256Hex(Str(py, index) + Str(py, previousHash) + Str(py, JFloat(timestamp)) + cs.canonicalJson(data))
  }

  /** `_initial_block` at clock reading `ts`. */
  function InitialBlock(py: Builtins, cs: Suite, ts: real): (b: Dict)
    ensures b.Keys == {"index", "previous_hash", "timestamp", "data", "hash"}
    ensures b["index"] == JInt(1) && b["previous_hash"] == JStr("0") && b["timestamp"] == JFloat(ts)
  {
    var data := map["system" := JStr("blockchain_initialized"), "timestamp" := JFloat(ts)];
    map["index" := JInt(1), "previous_hash" := JStr("0"), "timestamp" := JFloat(ts), "data" := JObj(data),
        "hash" := JStr(HashBlock(py, cs, JInt(1), JStr("0"), ts, JObj(data)))]
  }

  /** The store is kept only when it parsed to a non-empty list; its entries are not checked. */
  predicate StoreUsable(store: SimpleStore)
  {
    store.Parsed? && store.value.JList? && store.value.items != []
  }

  /** `v[key]` for a str key. */
  function Subscript(v: Json, key: string): (r: Conv<Json>)
    ensures r.Ok? <==> v.JObj? && key in v.fields
    ensures r.Ok? ==> r.value == v.fields[key]
    ensures v.JObj? && key !in v.fields ==> r == Raise(KeyError)
  {
    match v
    case JObj(m) => if key in m then Ok(m[key]) else Raise(KeyError)
    case _ => Raise(TypeError)
  }

  /** `v + 1` */
  function PlusOne(v: Json): (r: Conv<Json>)
    ensures r.Ok? <==> v.JInt? || v.JBool? || v.JFloat?
    ensures v.JInt? ==> r == Ok(JInt(v.i + 1))
    ensures r.Ok? ==> r.value.JInt? || r.value.JFloat?
  {
    match v
    case JInt(i) => Ok(JInt(i + 1))
    case JBool(b) => Ok(JInt(if b then 2 else 1))
    case JFloat(x) => Ok(JFloat(x + 1.0))
    case _ => Raise(TypeError)
  }

  /** `prev["index"] + 1` */
  function NextIndex(last: Json): Conv<Json>
  {
    match Subscript(last, "index")
    case Raise(e) => Raise(e)
    case Ok(i) => PlusOne(i)
  }

  /** `dict(data)` with `setdefault("timestamp", timestamp)`. */
  function WithTimestamp(data: Dict, timestamp: real): (d: Dict)
    ensures d.Keys == data.Keys + {"timestamp"}
    ensures forall k :: k in data ==> d[k] == data[k]
    ensures "timestamp" !in data ==> d["timestamp"] == JFloat(timestamp)
  {
    if "timestamp" in data then data else data["timestamp" := JFloat(timestamp)]
  }

  /** The block `create_block` appends after `last`, or the exception reading its index
      raises. */
  function SimpleBlock(py: Builtins, cs: Suite, last: Json, previousHash: Json, data: Dict, timestamp: real): Conv<Dict>
  {
    match NextIndex(last)
    case Raise(e) => Raise(e)
    case Ok(index) =>
      var copy := WithTimestamp(data, timestamp);
      Ok(map["index" := index, "previous_hash" := previousHash, "timestamp" := JFloat(timestamp),
             "data" := JObj(copy), "hash" := JStr(HashBlock(py, cs, index, previousHash, timestamp, JObj(copy)))])
  }

  /** The appended block: index one past the last block's, the caller's previous hash as
      given, the payload with its own timestamp kept (or the block's added), and the digest of
      those. It fails exactly when the last block has no numeric `index`. */
  lemma SimpleBlockShape(py: Builtins, cs: Suite, last: Json, previousHash: Json, data: Dict, timestamp: real)
    ensures SimpleBlock(py, cs, last, previousHash, data, timestamp).Raise? <==>
              !(last.JObj? && "index" in last.fields && (last.fields["index"].JInt? || last.fields["index"].JBool? || last.fields["index"].JFloat?))
    ensures var r := SimpleBlock(py, cs, last, previousHash, data, timestamp);
      r.Ok? ==>
        && r.value.Keys == {"index", "previous_hash", "timestamp", "data", "hash"}
        && (last.fields["index"].JInt? ==> r.value["index"] == JInt(last.fields["index"].i + 1))
        && r.value["previous_hash"] == previousHash
        && r.value["timestamp"] == JFloat(timestamp)
        && r.value["data"] == JObj(WithTimestamp(data, timestamp))
        && r.value["hash"] == JStr(HashBlock(py, cs, r.value["index"], previousHash, timestamp, r.value["data"]))
        && ("timestamp" in data ==> r.value["data"].fields["timestamp"] == data["timestamp"])
  {
  }

  /** The persistent chain of transaction_fraud_checker.py. */
  class Blockchain {
    const py: Builtins
    const cs: Suite
    var chain: seq<Json>
    /** What `_persist` last wrote. */
    ghost var persisted: seq<Json>

    ghost predicate Valid()
      reads this
    {
      chain != [] && persisted == chain
    }

    /** `__init__`: load the store, or bootstrap it with a genesis block at time `now`. */
    constructor(py: Builtins, cs: Suite, store: SimpleStore, now: real)
      ensures Valid()
      ensures this.py == py && this.cs == cs
      ensures StoreUsable(store) ==> chain == store.value.items
      ensures !StoreUsable(store) ==> chain == [JObj(InitialBlock(py, cs, now))]
    {
      this.py := py;
      this.cs := cs;
      chain := [];
      persisted := [];
      new;
      LoadOrInit(store, now);
    }

    /** `_load_or_init`: a missing or unreadable file, a value that is not a list and an empty
        list all give a one-block chain holding the genesis block, which is written out; a
        non-empty list is taken as it is. */
    method LoadOrInit(store: SimpleStore, now: real)
      modifies this
      ensures Valid()
      ensures StoreUsable(store) ==> chain == store.value.items
      ensures !StoreUsable(store) ==> chain == [JObj(InitialBlock(py, cs, now))]
    {
      match store
      case NoFile =>
        chain := [JObj(InitialBlock(py, cs, now))];
        Persist();
      case Corrupt =>
        chain := [JObj(InitialBlock(py, cs, now))];
        Persist();
      case Parsed(value) =>
        if !value.JList? || value.items == [] {
          chain := [JObj(InitialBlock(py, cs, now))];
          Persist();
        } else {
          chain := value.items;
          // the file already holds what was read
          persisted := chain;
        }
    }

    /** `_persist` (write failures are swallowed and not modelled). */
    method Persist()
      modifies this
      ensures persisted == chain && chain == old(chain)
    {
      persisted := chain;
    }

    /** `get_last_block` */
    function LastBlock(): Json
      reads this
      requires chain != []
    {
      chain[|chain| - 1]
    }

    /** `create_block(previous_hash, data)` at clock reading `now`: append one block and
        persist, or raise before changing anything. */
    method CreateBlock(previousHash: Json, data: Dict, now: real) returns (r: Conv<Dict>)
      requires Valid()
      modifies this
      ensures r == SimpleBlock(py, cs, old(LastBlock()), previousHash, data, now)
      ensures r.Ok? ==> chain == old(chain) + [JObj(r.value)]
      ensures r.Raise? ==> chain == old(chain)
      ensures Valid()
    {
      var prev := LastBlock();
      var index := NextIndex(prev);
      if index.Raise? {
        return Raise(index.error);
      }
      var timestamp := now;
      var dataCopy := WithTimestamp(data, timestamp);
      var blockHash := HashBlock(py, cs, index.value, previousHash, timestamp, JObj(dataCopy));
      var block := map["index" := index.value, "previous_hash" := previousHash, "timestamp" := JFloat(timestamp),
                       "data" := JObj(dataCopy), "hash" := JStr(blockHash)];
      chain := chain + [JObj(block)];
      Persist();
      return Ok(block);
    }

    /** `recent(limit)`: `chain[-limit:]`, newest first. */
    function Recent(limit: int): (r: seq<Json>)
      reads this
      ensures |r| == |SliceFrom(chain, -limit)|
      ensures limit == 0 ==> |r| == |chain|
      ensures limit > 0 ==> |r| == (if limit < |chain| then limit else |chain|)
      ensures forall k :: 0 <= k < |r| ==> r[k] == chain[|chain| - 1 - k]
    {
      Reverse(SliceFrom(chain, -limit))
    }
  }

  // ---------------------------------------------------------------------------------------
  // process_transactions
  // ---------------------------------------------------------------------------------------

  /** `max(0.0, min(1.0, prob))` */
  function ClampProbability(p: real): (r: real)
    ensures 0.0 <= r <= 1.0
    ensures 0.0 <= p <= 1.0 ==> r == p
    ensures p < 0.0 ==> r == 0.0
    ensures p > 1.0 ==> r == 1.0
  {
    var upper := if 1.0 < p then 1.0 else p;
    if 0.0 > upper then 0.0 else upper
  }

  /** The model call, `float(model.predict_proba(df)[0][1])`, or the exception it raises. */
  type Predictor = Dict -> Conv<real>

  /** The probability recorded for a transaction: the model's, clamped into [0, 1], or 0.0
      when the model raises. */
  function RecordedProbability(predict: Predictor, tx: Dict): (p: real)
    ensures 0.0 <= p <= 1.0
    ensures predict(tx).Raise? ==> p == 0.0
    ensures predict(tx).Ok? && 0.0 <= predict(tx).value <= 1.0 ==> p == predict(tx).value
  {
    ClampProbability(match predict(tx) case Ok(x) => x case Raise(_) => 0.0)
  }

  /** `"flagged_fraud" if prob >= 0.5 else "approved"` */
  function StatusOf(prob: real): string
  {
    if prob >= 0.5 then "flagged_fraud" else "approved"
  }

  /** The clock readings one iteration takes: for the fallback external id, and for the
      block. */
  datatype Clock = Clock(idTime: real, blockTime: real)

  /** `tx.get("external_id") or f"cli-tx-{int(time.time())}-{idx}"` */
  function ExternalId(tx: Dict, idx: int, idTime: real): Json
  {
    Or(Get(tx, "external_id", JNull), JStr("cli-tx-" + IntToDecimal(Trunc(idTime)) + "-" + IntToDecimal(idx)))
  }

  /** The sanitized payload written to the chain. */
  function FraudPayload(externalId: Json, prob: real): (d: Dict)
    ensures d.Keys == {"external_id", "status", "fraud_probability"}
    ensures d["status"] == JStr(StatusOf(prob)) && d["fraud_probability"] == JFloat(prob)
  {
    map["external_id" := externalId, "status" := JStr(StatusOf(prob)), "fraud_probability" := JFloat(prob)]
  }

  /** The result record of one transaction. */
  function ResultRecord(tx: Dict, externalId: Json, prob: real, block: Dict): (d: Dict)
    ensures "fraud_probability" in d && d["fraud_probability"] == JFloat(prob)
    ensures "is_fraud" in d && d["is_fraud"] == JBool(prob >= 0.5)
    ensures "transaction" in d && d["transaction"] == JObj(tx)
  {
    map["external_id" := externalId, "transaction" := JObj(tx), "fraud_probability" := JFloat(prob),
        "is_fraud" := JBool(prob >= 0.5), "block_index" := Get(block, "index", JNull),
        "block_hash" := Get(block, "hash", JNull)]
  }

  /** A block the loop can always extend: a dict with a hash and a numeric index. Every block
      the loop appends is one. */
  predicate Extendable(b: Json)
  {
    b.JObj? && "hash" in b.fields && "index" in b.fields && (b.fields["index"].JInt? || b.fields["index"].JFloat?)
  }

  /** `create_block` never fails after an extendable block, and what it appends is extendable
      again. */
  lemma ExtendableExtends(py: Builtins, cs: Suite, last: Json, previousHash: Json, data: Dict, timestamp: real)
    ensures Extendable(last) ==> SimpleBlock(py, cs, last, previousHash, data, timestamp).Ok?
    ensures var r := SimpleBlock(py, cs, last, previousHash, data, timestamp);
      r.Ok? ==> Extendable(JObj(r.value)) && r.value["data"] == JObj(WithTimestamp(data, timestamp))
  {
    SimpleBlockShape(py, cs, last, previousHash, data, timestamp);
  }

  /** `block` is what `create_block(last["hash"], payload)` appends after `last` at clock
      reading `timestamp`. */
  predicate AppendedAfter(py: Builtins, cs: Suite, last: Json, payload: Dict, timestamp: real, block: Json)
  {
    && last.JObj? && "hash" in last.fields && block.JObj?
    && SimpleBlock(py, cs, last, last.fields["hash"], payload, timestamp) == Ok(block.fields)
  }

  /** An appended block is hash-linked to its predecessor: its `previous_hash` is the
      predecessor's `hash`, its index is one past an integer index, its hash is the digest of
      its own fields, and it can be extended again. */
  lemma AppendedAfterLinks(py: Builtins, cs: Suite, last: Json, payload: Dict, timestamp: real, block: Json)
    requires AppendedAfter(py, cs, last, payload, timestamp, block)
    ensures "previous_hash" in block.fields && block.fields["previous_hash"] == last.fields["hash"]
    ensures last.fields["index"].JInt? ==> block.fields["index"] == JInt(last.fields["index"].i + 1)
    ensures block.fields["hash"] == JStr(HashBlock(py, cs, block.fields["index"], last.fields["hash"], timestamp,
                                                   block.fields["data"]))
    ensures block.fields["data"] == JObj(WithTimestamp(payload, timestamp))
    ensures Extendable(block)
  {
    SimpleBlockShape(py, cs, last, last.fields["hash"], payload, timestamp);
    ExtendableExtends(py, cs, last, last.fields["hash"], payload, timestamp);
  }

  /** What one iteration leaves behind: `block`, appended after `prev` with the payload of
      `tx`, and the result record of `tx`. */
  predicate Logged(py: Builtins, cs: Suite, predict: Predictor, tx: Dict, idx: int, clock: Clock, result: Dict,
                   prev: Json, block: Json)
  {
    var p := RecordedProbability(predict, tx);
    var externalId := ExternalId(tx, idx, clock.idTime);
    && AppendedAfter(py, cs, prev, FraudPayload(externalId, p), clock.blockTime, block)
    && result == ResultRecord(tx, externalId, p, block.fields)
  }

  /** One iteration of `process_transactions`: predict, clamp, append the
      payload's block after `get_last_block()["hash"]`, and describe the outcome. */
  method ProcessOne(bc: Blockchain, predict: Predictor, tx: Dict, idx: int, clock: Clock)
    returns (r: Conv<Dict>)
    requires bc.Valid()
    modifies bc
    ensures bc.Valid()
    ensures r.Raise? ==> bc.chain == old(bc.chain) && !Extendable(old(bc.LastBlock()))
    ensures r.Ok? ==> bc.chain == old(bc.chain) + [bc.LastBlock()]
    ensures r.Ok? ==> Extendable(bc.LastBlock())
    ensures r.Ok? ==> Logged(bc.py, bc.cs, predict, tx, idx, clock, r.value, old(bc.LastBlock()), bc.LastBlock())
  {
    var externalId := ExternalId(tx, idx, clock.idTime);
    var p := match predict(tx) case Ok(x) => x case Raise(_) => 0.0;
    var prob := ClampProbability(p);
    var payload := FraudPayload(externalId, prob);
    var previousHash := Subscript(bc.LastBlock(), "hash");
    if previousHash.Raise? {
      return Raise(previousHash.error);
    }
    ghost var last := bc.LastBlock();
    ExtendableExtends(bc.py, bc.cs, last, previousHash.value, payload, clock.blockTime);
    var block := bc.CreateBlock(previousHash.value, payload, clock.blockTime);
    if block.Raise? {
      return Raise(block.error);
    }
    assert prob == RecordedProbability(predict, tx);
    assert bc.LastBlock() == JObj(block.value);
    r := Ok(ResultRecord(tx, externalId, prob, block.value));
  }

  /** A prefix of a prefix is a prefix. */
  lemma PrefixOfExtension<T>(a: seq<T>, b: seq<T>, c: seq<T>)
    requires |a| <= |b| <= |c|
    requires b[..|a|] == a && c[..|b|] == b
    ensures c[..|a|] == a
  {
    assert c[..|b|][..|a|] == c[..|a|];
  }

  /** The first `n` transactions are logged: result `k` is in `results`, and its block sits at
      `offset + k` in `chain`, appended after the block before it. */
  predicate LoggedRun(py: Builtins, cs: Suite, predict: Predictor, transactions: seq<Dict>, clocks: seq<Clock>,
                      results: seq<Dict>, chain: seq<Json>, offset: nat, n: nat)
  {
    && n <= |transactions| && n <= |clocks| && |results| == n && 0 < offset && offset + n <= |chain|
    && forall k :: 0 <= k < n ==>
         Logged(py, cs, predict, transactions[k], k + 1, clocks[k], results[k], chain[offset + k - 1], chain[offset + k])
  }

  /** In a logged run, block `k` is hash-linked to the block before it, carries the payload
      of transaction `k`, and result `k` describes it. */
  lemma LoggedRunLinks(py: Builtins, cs: Suite, predict: Predictor, transactions: seq<Dict>, clocks: seq<Clock>,
                       results: seq<Dict>, chain: seq<Json>, offset: nat, n: nat, k: nat)
    requires LoggedRun(py, cs, predict, transactions, clocks, results, chain, offset, n) && k < n
    ensures chain[offset + k - 1].JObj? && "hash" in chain[offset + k - 1].fields
    ensures chain[offset + k].JObj? && "previous_hash" in chain[offset + k].fields
    ensures chain[offset + k].fields["previous_hash"] == chain[offset + k - 1].fields["hash"]
    ensures var p := RecordedProbability(predict, transactions[k]);
      var externalId := ExternalId(transactions[k], k + 1, clocks[k].idTime);
      && chain[offset + k].fields["data"] == JObj(WithTimestamp(FraudPayload(externalId, p), clocks[k].blockTime))
      && results[k] == ResultRecord(transactions[k], externalId, p, chain[offset + k].fields)
    ensures Extendable(chain[offset + k])
  {
    var p := RecordedProbability(predict, transactions[k]);
    var externalId := ExternalId(transactions[k], k + 1, clocks[k].idTime);
    assert Logged(py, cs, predict, transactions[k], k + 1, clocks[k], results[k], chain[offset + k - 1], chain[offset + k]);
    AppendedAfterLinks(py, cs, chain[offset + k - 1], FraudPayload(externalId, p), clocks[k].blockTime, chain[offset + k]);
  }

  /** One more logged transaction keeps every earlier entry logged against its own block and
      its predecessor. */
  lemma LoggedExtend(py: Builtins, cs: Suite, predict: Predictor, transactions: seq<Dict>, clocks: seq<Clock>,
                     results: seq<Dict>, result: Dict, before: seq<Json>, prev: Json, block: Json, offset: nat, i: nat)
    requires LoggedRun(py, cs, predict, transactions, clocks, results, before, offset, i)
    requires i < |transactions| && i < |clocks| && |before| == offset + i && prev == before[|before| - 1]
    requires Logged(py, cs, predict, transactions[i], i + 1, clocks[i], result, prev, block)
    ensures LoggedRun(py, cs, predict, transactions, clocks, results + [result], before + [block], offset, i + 1)
  {
    var chain := before + [block];
    var rs := results + [result];
    forall k | 0 <= k < i + 1
      ensures Logged(py, cs, predict, transactions[k], k + 1, clocks[k], rs[k], chain[offset + k - 1], chain[offset + k])
    {
      assert chain[offset + k - 1] == before[offset + k - 1];
      if k < i {
        assert rs[k] == results[k];
        assert chain[offset + k] == before[offset + k];
      }
    }
  }

  /** `process_transactions`: one block and one result per transaction, in order, each block
      appended after the one before it. In the model only the first transaction can fail (when
      the stored chain's last block has no hash or numeric index), and then nothing has been
      appended; feature preparation, which can also raise, is not modelled. */
  method ProcessTransactions(bc: Blockchain, predict: Predictor, transactions: seq<Dict>, clocks: seq<Clock>)
    returns (r: Conv<seq<Dict>>)
    requires bc.Valid() && |clocks| == |transactions|
    modifies bc
    ensures bc.Valid()
    ensures r.Raise? ==> bc.chain == old(bc.chain) && transactions != [] && !Extendable(old(bc.LastBlock()))
    ensures r.Ok? ==> |r.value| == |transactions|
    ensures r.Ok? ==> |bc.chain| == |old(bc.chain)| + |transactions| && bc.chain[..|old(bc.chain)|] == old(bc.chain)
    ensures r.Ok? ==> LoggedRun(bc.py, bc.cs, predict, transactions, clocks, r.value, bc.chain, |old(bc.chain)|,
                                |transactions|)
  {
    ghost var start := bc.chain;
    var results: seq<Dict> := [];
    for i := 0 to |transactions|
      invariant bc.Valid()
      invariant |results| == i
      invariant |bc.chain| == |start| + i && bc.chain[..|start|] == start
      invariant i > 0 ==> Extendable(bc.LastBlock())
      invariant LoggedRun(bc.py, bc.cs, predict, transactions, clocks, results, bc.chain, |start|, i)
    {
      ghost var before := bc.chain;
      ghost var prev := bc.LastBlock();
      var outcome := ProcessOne(bc, predict, transactions[i], i + 1, clocks[i]);
      if outcome.Raise? {
        return Raise(outcome.error);
      }
      PrefixOfExtension(start, before, bc.chain);
      LoggedExtend(bc.py, bc.cs, predict, transactions, clocks, results, outcome.value, before, prev,
                   bc.LastBlock(), |start|, i);
      results := results + [outcome.value];
    }
    return Ok(results);
  }
}
