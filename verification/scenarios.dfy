/** Concrete requests from the service's test suite, and edge cases of the two
    handlers, stated for every classifier and every coercion that behaves as stated. */
module Scenarios {
  import opened Options
  import opened Json
  import opened Risk
  import opened Features
  import opened Handlers

  /** Python's `float()` and `int()` on the JSON numbers used below. */
  ghost predicate CoercesNumbers(rt: Runtime)
  {
    && (forall n :: rt.toFloat(Int(n)) == Some(n as real))
    && (forall n :: rt.toInt(Int(n)) == Some(n))
    && (forall x :: rt.toFloat(Float(x)) == Some(x))
  }

  /** A transaction object with the four required keys. */
  function Transaction(amount: Value, hour: Value, merchantKnown: Value, isWeekend: Value): map<string, Value>
  {
    map["amount" := amount, "hour" := hour, "merchant_known" := merchantKnown, "is_weekend" := isWeekend]
  }

  /** A body carrying only `amount` is rejected with 400 and an error. */
  lemma OnlyAmountIsRejected(rt: Runtime, clf: Classifier)
    ensures Predict(rt, clf, map["amount" := Int(100)]).Status() == 400
    ensures Predict(rt, clf, map["amount" := Int(100)]).required == RequiredFields
  {
    assert "hour" in RequiredFields;
  }

  /** Text where numbers belong is rejected with 422 when all keys are present. */
  lemma TextAmountIsRejected(rt: Runtime, clf: Classifier)
    requires rt.toFloat(Str("abc")) == None
    ensures Predict(rt, clf, Transaction(Str("abc"), Str("x"), Int(1), Int(0))).Status() == 422
  {
  }

  /** The two handlers validate in different orders: a body missing `hour` with an
      amount that does not coerce is a 400 for `/predict`, but the same object in
      a batch fails on the amount's coercion before its missing keys are noticed. */
  lemma ValidationOrderDiffers(rt: Runtime, clf: Classifier)
    requires rt.toFloat(Str("abc")) == None
    ensures Predict(rt, clf, map["amount" := Str("abc")]) == MissingFields(RequiredFields)
    ensures EvaluateTransaction(rt, clf, Object(map["amount" := Str("abc")])) == ItemError(Uncoercible("amount"))
  {
    var m := map["amount" := Str("abc")];
    assert "hour" in RequiredFields && "hour" !in m;
    assert ReadFields(rt, m, RequiredFields) == Failed(Uncoercible("amount"));
  }

  /** A batch of one anomalous and one normal transaction: both are answered, in
      order, and at least one anomaly is reported. */
  lemma TwoTransactionBatch(rt: Runtime, clf: Classifier)
    requires CoercesNumbers(rt)
    requires clf.predict([8500.0, 3.0, 0.0, 0.0])
    ensures var r := BatchPredict(rt, clf, map["transactions" := Array([
                       Object(Transaction(Int(8500), Int(3), Int(0), Int(0))),
                       Object(Transaction(Float(45.5), Int(14), Int(1), Int(0)))])]);
            && r.Status() == 200
            && r.totalTransactions == 2
            && r.anomaliesFound >= 1
            && r.results[0].Assessed? && r.results[0].prediction.isAnomaly
            && r.results[1].Assessed?
  {
    var t1 := Transaction(Int(8500), Int(3), Int(0), Int(0));
    var t2 := Transaction(Float(45.5), Int(14), Int(1), Int(0));
    var r := BatchPredict(rt, clf, map["transactions" := Array([Object(t1), Object(t2)])]);
    assert HasRequired(t1) && HasRequired(t2);
    assert FeatureRow(rt, t1) == [8500.0, 3.0, 0.0, 0.0];
    assert Flagged(r.results[0]);
    assert 0 in FlaggedIndices(r.results);
  }

  /** The tier is computed from the unrounded probability, so the reported tier need
      not be the tier of the reported confidence: 0.70004 is HIGH but is reported with
      confidence 0.7, whose tier is MEDIUM. */
  lemma RoundedConfidenceMayCrossThreshold(rt: Runtime, clf: Classifier, body: map<string, Value>)
    requires HasRequired(body) && Coercible(rt, body)
    requires clf.proba(FeatureRow(rt, body)) == 0.70004
    requires rt.round4(0.70004) == 0.7
    ensures Predict(rt, clf, body).prediction.confidence == 0.7
    ensures Predict(rt, clf, body).prediction.riskLevel == High
    ensures RiskTier(Predict(rt, clf, body).prediction.confidence) == Medium
  {
  }

  /** A `transactions` value of `null`, `false`, `0`, `0.0`, `""`, `{}` or `[]`, or
      none at all, is rejected before any item is evaluated. */
  lemma FalsyTransactionsRejected(rt: Runtime, clf: Classifier)
    ensures BatchPredict(rt, clf, map[]).Status() == 400
    ensures BatchPredict(rt, clf, map["transactions" := Null]).Status() == 400
    ensures BatchPredict(rt, clf, map["transactions" := Bool(false)]).Status() == 400
    ensures BatchPredict(rt, clf, map["transactions" := Int(0)]).Status() == 400
    ensures BatchPredict(rt, clf, map["transactions" := Float(0.0)]).Status() == 400
    ensures BatchPredict(rt, clf, map["transactions" := Str("")]).Status() == 400
    ensures BatchPredict(rt, clf, map["transactions" := Object(map[])]).Status() == 400
    ensures BatchPredict(rt, clf, map["transactions" := Array([])]).Status() == 400
  {
  }
}
