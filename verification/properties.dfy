/** Properties relating the two endpoints and their inputs. */
module HandlerProperties {
  import opened Json
  import opened Risk
  import opened Features
  import opened Handlers

  /** Presence is checked before anything else: a body missing a required key gets
      the 400 answer naming the four keys, whatever its values, however they coerce
      and whatever the classifier would say. */
  lemma PresenceCheckedFirst(rt: Runtime, rt': Runtime, clf: Classifier, clf': Classifier, body: map<string, Value>)
    requires exists k :: k in RequiredFields && k !in body
    ensures Predict(rt, clf, body) == Predict(rt', clf', body) == MissingFields(RequiredFields)
    ensures Predict(rt, clf, body).Status() == 400
  {
  }

  /** A rejected request never reaches the classifier: swapping the classifier does
      not change a 400 or 422 answer. */
  lemma RejectionIgnoresClassifier(rt: Runtime, clf: Classifier, clf': Classifier, body: map<string, Value>)
    requires !Predict(rt, clf, body).Predicted?
    ensures Predict(rt, clf', body) == Predict(rt, clf, body)
    ensures Predict(rt, clf, body).Status() in {400, 422}
  {
  }

  /** The answer depends on the body only through the four required keys. */
  lemma ExtraKeysIgnored(rt: Runtime, clf: Classifier, body: map<string, Value>)
    ensures Predict(rt, clf, body) == Predict(rt, clf, RequiredPart(body))
    ensures EvaluateTransaction(rt, clf, Object(body)) == EvaluateTransaction(rt, clf, Object(RequiredPart(body)))
  {
    ReadFieldsLocal(rt, body, RequiredPart(body), RequiredFields);
  }

  /** The body restricted to the required keys. */
  function RequiredPart(body: map<string, Value>): (part: map<string, Value>)
    ensures forall k :: k in part <==> k in body && k in RequiredFields
    ensures forall k :: k in part ==> part[k] == body[k]
  {
    map k | k in body && k in RequiredFields :: body[k]
  }

  /** A batch item that is an object is judged as `/predict` would judge it as a
      body: the same prediction when that answer is 200, an error entry when it is
      400 or 422. */
  lemma BatchItemAgreesWithPredict(rt: Runtime, clf: Classifier, body: map<string, Value>)
    ensures Predict(rt, clf, body).Predicted? <==> EvaluateTransaction(rt, clf, Object(body)).Assessed?
    ensures Predict(rt, clf, body).Predicted? ==>
              EvaluateTransaction(rt, clf, Object(body)).prediction == Predict(rt, clf, body).prediction
  {
  }

  /** The batch answer for a non-empty list summarises the per-item results. */
  lemma BatchOfList(rt: Runtime, clf: Classifier, xs: seq<Value>)
    requires xs != []
    ensures BatchPredict(rt, clf, map["transactions" := Array(xs)])
         == Batch(ListResults(rt, clf, xs), |xs|, AnomalyCount(ListResults(rt, clf, xs)))
  {
    var body := map["transactions" := Array(xs)];
    assert TransactionsOf(body) == Array(xs);
  }

  /** The entries for a list of transactions. */
  function ListResults(rt: Runtime, clf: Classifier, xs: seq<Value>): (rs: seq<ItemResult>)
    ensures |rs| == |xs|
    ensures forall i :: 0 <= i < |xs| ==> rs[i] == EvaluateTransaction(rt, clf, xs[i])
  {
    LoopResults(rt, clf, Array(xs))
  }

  /** The batch answer for a list is assembled from the answers for its two halves:
      the results are concatenated and the totals and anomaly counts add up. */
  lemma BatchConcatenation(rt: Runtime, clf: Classifier, xs: seq<Value>, ys: seq<Value>)
    requires xs != [] && ys != []
    ensures var a := BatchPredict(rt, clf, map["transactions" := Array(xs)]);
            var b := BatchPredict(rt, clf, map["transactions" := Array(ys)]);
            var ab := BatchPredict(rt, clf, map["transactions" := Array(xs + ys)]);
            && a.Batch? && b.Batch? && ab.Batch?
            && ab.results == a.results + b.results
            && ab.totalTransactions == a.totalTransactions + b.totalTransactions
            && ab.anomaliesFound == a.anomaliesFound + b.anomaliesFound
  {
    BatchOfList(rt, clf, xs);
    BatchOfList(rt, clf, ys);
    BatchOfList(rt, clf, xs + ys);
    var ra, rb, rab := ListResults(rt, clf, xs), ListResults(rt, clf, ys), ListResults(rt, clf, xs + ys);
    forall i | 0 <= i < |rab|
      ensures rab[i] == (ra + rb)[i]
    {
      if i < |xs| {
        assert (xs + ys)[i] == xs[i];
      } else {
        assert (xs + ys)[i] == ys[i - |xs|];
      }
    }
    assert rab == ra + rb;
    AnomalyCountAppend(ra, rb);
  }

  /** Items are evaluated in isolation: replacing one transaction of a batch, even
      by one that fails, leaves every other entry as it was. */
  lemma ItemsAreIndependent(rt: Runtime, clf: Classifier, xs: seq<Value>, ys: seq<Value>, k: int)
    requires |xs| == |ys| && xs != [] && 0 <= k < |xs|
    requires forall j :: 0 <= j < |xs| && j != k ==> xs[j] == ys[j]
    ensures var a := BatchPredict(rt, clf, map["transactions" := Array(xs)]);
            var b := BatchPredict(rt, clf, map["transactions" := Array(ys)]);
            && a.Batch? && b.Batch? && |a.results| == |b.results|
            && forall j :: 0 <= j < |xs| && j != k ==> a.results[j] == b.results[j]
  {
    BatchOfList(rt, clf, xs);
    BatchOfList(rt, clf, ys);
  }
}
