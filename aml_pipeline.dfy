/** The AML decision pipeline: a transaction passes KYC (both parties verified), then the
    amount rule, then the fraud model's probability against a threshold; whichever stage
    decides, the evaluation is handed to the sink once and returned. */
module AmlPipeline {
  import opened PyJson

  /** `AMLConfig` */
  datatype AmlConfig = AmlConfig(highValueThreshold: real, fraudThreshold: real)

  const DefaultConfig: AmlConfig := AmlConfig(25000.0, 0.5)

  /** `config or AMLConfig()`: a config object is always truthy, so only None is replaced. */
  function ConfigOrDefault(config: Option<AmlConfig>): (c: AmlConfig)
    ensures config.Some? ==> c == config.value
    ensures config.None? ==> c.highValueThreshold == 25000.0 && c.fraudThreshold == 0.5
  {
    if config.Some? then config.value else DefaultConfig
  }

  /** The ids that have passed KYC. */
  const VerifiedUsers: set<string> := {"IN12345", "US67890", "SG34567"}

  /** `v in self.verified_users`: an unhashable value raises TypeError; only a str can equal a
      member. */
  function InVerified(v: Json): (r: Conv<bool>)
    ensures r.Raise? <==> !Hashable(v)
    ensures r.Raise? ==> r.error == TypeError
    ensures r == Ok(true) <==> v.JStr? && v.s in VerifiedUsers
  {
    if !Hashable(v) then Raise(TypeError) else Ok(v.JStr? && v.s in VerifiedUsers)
  }

  /** `check_kyc`: `sender in verified and receiver in verified`, short-circuiting. */
  function CheckKyc(tx: Dict): (r: Conv<bool>)
  {
    match InVerified(Get(tx, "sender_id", JNull))
    case Raise(e) => Raise(e)
    case Ok(false) => Ok(false)
    case Ok(true) => InVerified(Get(tx, "receiver_id", JNull))
  }

  /** KYC passes exactly when both ids are verified users. */
  lemma CheckKycMeans(tx: Dict)
    ensures CheckKyc(tx) == Ok(true) <==>
              && "sender_id" in tx && tx["sender_id"].JStr? && tx["sender_id"].s in VerifiedUsers
              && "receiver_id" in tx && tx["receiver_id"].JStr? && tx["receiver_id"].s in VerifiedUsers
    ensures CheckKyc(tx).Raise? ==> CheckKyc(tx).error == TypeError
  {
  }

  /** An unverified (or missing) sender is rejected without looking at the receiver. */
  lemma CheckKycShortCircuits(tx: Dict, receiver: Json)
    requires Hashable(Get(tx, "sender_id", JNull))
    requires !(Get(tx, "sender_id", JNull).JStr? && Get(tx, "sender_id", JNull).s in VerifiedUsers)
    ensures CheckKyc(tx) == Ok(false)
    ensures CheckKyc(tx["receiver_id" := receiver]) == Ok(false)
  {
    assert Get(tx["receiver_id" := receiver], "sender_id", JNull) == Get(tx, "sender_id", JNull);
  }

  /** `enforce_rules`: (compliant, reason). A TypeError or ValueError from `float()` rejects
      the amount; an OverflowError is not caught and escapes. */
  function EnforceRules(py: Builtins, config: AmlConfig, tx: Dict): (r: Conv<(bool, string)>)
    ensures r.Raise? ==> r.error == OverflowError
    ensures var a := PyFloat(py, Get(tx, "amount", JFloat(0.0)));
      && (r == Ok((false, "Invalid amount value")) <==> a.Raise? && a.error != OverflowError)
      && (r == Ok((false, "High-risk transaction amount")) <==> a.Ok? && a.value > config.highValueThreshold)
      && (r == Ok((true, "Compliant")) <==> a.Ok? && a.value <= config.highValueThreshold)
  {
    match PyFloat(py, Get(tx, "amount", JFloat(0.0)))
    case Raise(OverflowError) => Raise(OverflowError)
    case Raise(_) => Ok((false, "Invalid amount value"))
    case Ok(amount) =>
      if amount > config.highValueThreshold then Ok((false, "High-risk transaction amount"))
      else Ok((true, "Compliant"))
  }

  /** With the default config, an amount of exactly 25000 is compliant and a missing amount
      counts as 0.0. */
  lemma DefaultRulesBoundary(py: Builtins, tx: Dict)
    ensures "amount" in tx && tx["amount"] == JFloat(25000.0) ==> EnforceRules(py, DefaultConfig, tx) == Ok((true, "Compliant"))
    ensures "amount" !in tx ==> EnforceRules(py, DefaultConfig, tx) == Ok((true, "Compliant"))
    ensures "amount" in tx && tx["amount"].JFloat? && tx["amount"].r > 25000.0 ==>
              EnforceRules(py, DefaultConfig, tx) == Ok((false, "High-risk transaction amount"))
  {
  }

  /** What `model.explain` gives: an explanation, or the message of the exception it raised. */
  datatype Explanation = Explained(value: Json) | ExplainFailed(message: string)

  /** The fraud model: foreign code (scikit-learn and SHAP). */
  datatype FraudModel = FraudModel(
    /** `predict_proba(transaction)`, or the exception it raises */
    predictProba: Dict -> Conv<Json>,
    explain: Dict -> Explanation)

  /** `fraud_prob[0]` */
  function FirstItem(v: Json): (r: Conv<Json>)
  {
    match v
    case JList(xs) => if xs == [] then Raise(IndexError) else Ok(xs[0])
    case JStr(s) => if s == [] then Raise(IndexError) else Ok(JStr([s[0]]))
    case JObj(_) => Raise(KeyError)
    case _ => Raise(TypeError)
  }

  /** `float(p)`, falling back to `float(p[0])` when that raises; the second failure escapes. */
  function ToScalar(py: Builtins, p: Json): (r: Conv<real>)
    ensures PyFloat(py, p).Ok? ==> r == PyFloat(py, p)
    ensures p.JList? && p.items != [] && p.items[0].JFloat? ==> r == Ok(p.items[0].r)
  {
    match PyFloat(py, p)
    case Ok(x) => Ok(x)
    case Raise(_) =>
      match FirstItem(p)
      case Raise(e) => Raise(e)
      case Ok(q) => PyFloat(py, q)
  }

  /** What step 4 stores under "explanation". */
  function ExplanationValue(e: Explanation): Json
  {
    match e
    case Explained(v) => v
    case ExplainFailed(msg) => JObj(map["error" := JStr(msg)])
  }

  /** The evaluation `evaluate_transaction` returns (and stores), or the exception that
      escapes it. */
  function Evaluation(py: Builtins, config: AmlConfig, model: FraudModel, tx: Dict, externalId: string): Conv<Dict>
  {
    var base := map["external_id" := JStr(externalId), "transaction" := JObj(tx)];
    match CheckKyc(tx)
    case Raise(e) => Raise(e)
    case Ok(false) =>
      Ok(base["kyc_ok" := JBool(false)]["status" := JStr("rejected_kyc")]["reason" := JStr("KYC verification failed")])
    case Ok(true) =>
      match EnforceRules(py, config, tx)
      case Raise(e) => Raise(e)
      case Ok((false, reason)) =>
        Ok(base["kyc_ok" := JBool(true)]["rule_compliant" := JBool(false)]["rule_reason" := JStr(reason)]
               ["status" := JStr("rejected_rules")]["reason" := JStr(reason)])
      case Ok((true, reason)) =>
        match model.predictProba(tx)
        case Raise(e) => Raise(e)
        case Ok(p) =>
          match ToScalar(py, p)
          case Raise(e) => Raise(e)
          case Ok(prob) =>
            var isFraud := prob >= config.fraudThreshold;
            Ok(base["kyc_ok" := JBool(true)]["rule_compliant" := JBool(true)]["rule_reason" := JStr(reason)]
                   ["fraud_probability" := JFloat(prob)]["is_fraud" := JBool(isFraud)]
                   ["status" := JStr(if isFraud then "flagged_fraud" else "approved")]
                   ["explanation" := ExplanationValue(model.explain(tx))])
  }

  /** Every completed evaluation carries the id and transaction it was given. */
  lemma EvaluationShape(py: Builtins, config: AmlConfig, model: FraudModel, tx: Dict, externalId: string)
    requires Evaluation(py, config, model, tx, externalId).Ok?
    ensures var r := Evaluation(py, config, model, tx, externalId).value;
      && "external_id" in r && r["external_id"] == JStr(externalId)
      && "transaction" in r && r["transaction"] == JObj(tx)
  {
  }

  /** Every completed evaluation records the KYC outcome and ends in one of the four
      statuses. */
  lemma EvaluationStatus(py: Builtins, config: AmlConfig, model: FraudModel, tx: Dict, externalId: string)
    requires Evaluation(py, config, model, tx, externalId).Ok?
    ensures var r := Evaluation(py, config, model, tx, externalId).value;
      && "kyc_ok" in r
      && "status" in r
      && r["status"] in {JStr("rejected_kyc"), JStr("rejected_rules"), JStr("flagged_fraud"), JStr("approved")}
  {
  }

  /** A failed KYC check rejects the transaction; neither the rules nor the model are
      consulted. */
  lemma KycFailurePath(py: Builtins, config: AmlConfig, model: FraudModel, other: FraudModel,
                       tx: Dict, externalId: string)
    requires CheckKyc(tx) == Ok(false)
    ensures var r := Evaluation(py, config, model, tx, externalId);
      && r.Ok?
      && r.value["status"] == JStr("rejected_kyc")
      && r.value["reason"] == JStr("KYC verification failed")
      && r.value["kyc_ok"] == JBool(false)
      && "rule_compliant" !in r.value && "fraud_probability" !in r.value
      && r == Evaluation(py, config, other, tx, externalId)
  {
  }

  /** KYC passes but the amount rule fails: the rule's reason is the rejection's reason and the
      model is not consulted. */
  lemma RuleFailurePath(py: Builtins, config: AmlConfig, model: FraudModel, other: FraudModel,
                        tx: Dict, externalId: string, reason: string)
    requires CheckKyc(tx) == Ok(true)
    requires EnforceRules(py, config, tx) == Ok((false, reason))
    ensures var r := Evaluation(py, config, model, tx, externalId);
      && r.Ok?
      && r.value["status"] == JStr("rejected_rules")
      && r.value["reason"] == JStr(reason)
      && r.value["rule_reason"] == JStr(reason)
      && r.value["rule_compliant"] == JBool(false)
      && r.value["kyc_ok"] == JBool(true)
      && "fraud_probability" !in r.value
      && r == Evaluation(py, config, other, tx, externalId)
  {
  }

  /** KYC and rules pass: the transaction is flagged exactly when the model's probability
      reaches the fraud threshold, and approved otherwise. */
  lemma ModelPath(py: Builtins, config: AmlConfig, model: FraudModel, tx: Dict, externalId: string, p: Json, prob: real)
    requires CheckKyc(tx) == Ok(true)
    requires EnforceRules(py, config, tx).Ok? && EnforceRules(py, config, tx).value.0
    requires model.predictProba(tx) == Ok(p) && ToScalar(py, p) == Ok(prob)
    ensures var r := Evaluation(py, config, model, tx, externalId);
      && r.Ok?
      && r.value["fraud_probability"] == JFloat(prob)
      && r.value["is_fraud"] == JBool(prob >= config.fraudThreshold)
      && (r.value["status"] == JStr("flagged_fraud") <==> prob >= config.fraudThreshold)
      && (r.value["status"] == JStr("approved") <==> prob < config.fraudThreshold)
      && r.value["rule_reason"] == JStr("Compliant")
      && "reason" !in r.value
  {
    assert EnforceRules(py, config, tx) == Ok((true, "Compliant"));
  }

  /** A failing explainer does not abort the evaluation: its message is recorded instead. */
  lemma ExplainFailureRecorded(py: Builtins, config: AmlConfig, model: FraudModel, tx: Dict, externalId: string, msg: string)
    requires CheckKyc(tx) == Ok(true)
    requires EnforceRules(py, config, tx).Ok? && EnforceRules(py, config, tx).value.0
    requires model.predictProba(tx).Ok? && ToScalar(py, model.predictProba(tx).value).Ok?
    requires model.explain(tx) == ExplainFailed(msg)
    ensures var r := Evaluation(py, config, model, tx, externalId);
      r.Ok? && r.value["explanation"] == JObj(map["error" := JStr(msg)])
  {
    assert EnforceRules(py, config, tx) == Ok((true, "Compliant"));
  }

  /** `AMLPipeline`: the model, the sink (here the log of what it was given) and the config. */
  class AmlPipeline {
    const py: Builtins
    const model: FraudModel
    const config: AmlConfig
    /** Every evaluation handed to the sink, in order. */
    ghost var stored: seq<Dict>

    constructor(py: Builtins, model: FraudModel, config: Option<AmlConfig>)
      ensures this.py == py && this.model == model && this.config == ConfigOrDefault(config)
      ensures stored == []
    {
      this.py := py;
      this.model := model;
      this.config := ConfigOrDefault(config);
      stored := [];
    }

    /** `self.sink.store_evaluation(result)` */
    method Store(result: Dict)
      modifies this
      ensures stored == old(stored) + [result]
    {
      stored := stored + [result];
    }

    /** `check_kyc` */
    method CheckKycOf(tx: Dict) returns (r: Conv<bool>)
      ensures r == CheckKyc(tx)
    {
      var sender := Get(tx, "sender_id", JNull);
      var receiver := Get(tx, "receiver_id", JNull);
      var senderOk := InVerified(sender);
      if !senderOk.Ok? || !senderOk.value {
        return senderOk;
      }
      r := InVerified(receiver);
    }

    /** `evaluate_transaction`: build the result stage by stage, hand it to the sink once and
        return it; an exception that escapes stores nothing. */
    method EvaluateTransaction(tx: Dict, externalId: string) returns (r: Conv<Dict>)
      modifies this
      ensures r == Evaluation(py, config, model, tx, externalId)
      ensures stored == old(stored) + (if r.Ok? then [r.value] else [])
    {
      var result: Dict := map["external_id" := JStr(externalId), "transaction" := JObj(tx)];

      // Step 1: KYC
      var kyc := CheckKycOf(tx);
      if kyc.Raise? {
        return Raise(kyc.error);
      }
      result := result["kyc_ok" := JBool(kyc.value)];
      if !kyc.value {
        result := result["status" := JStr("rejected_kyc")]["reason" := JStr("KYC verification failed")];
        Store(result);
        return Ok(result);
      }

      // Step 2: rule checks
      var rules := EnforceRules(py, config, tx);
      if rules.Raise? {
        return Raise(rules.error);
      }
      var (compliant, reason) := rules.value;
      result := result["rule_compliant" := JBool(compliant)]["rule_reason" := JStr(reason)];
      if !compliant {
        result := result["status" := JStr("rejected_rules")]["reason" := JStr(reason)];
        Store(result);
        return Ok(result);
      }

      // Step 3: fraud prediction
      var predicted := model.predictProba(tx);
      if predicted.Raise? {
        return Raise(predicted.error);
      }
      var scalar := ToScalar(py, predicted.value);
      if scalar.Raise? {
        return Raise(scalar.error);
      }
      var fraudProb := scalar.value;
      var isFraud := fraudProb >= config.fraudThreshold;
      result := result["fraud_probability" := JFloat(fraudProb)];
      result := result["is_fraud" := JBool(isFraud)];
      result := result["status" := JStr(if isFraud then "flagged_fraud" else "approved")];

      // Step 4: explanation
      var explanation := model.explain(tx);
      result := result["explanation" := ExplanationValue(explanation)];

      Store(result);
      return Ok(result);
    }
  }
}
