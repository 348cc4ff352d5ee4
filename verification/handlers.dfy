/** The two prediction endpoints: `/predict` for one transaction and
    `/batch-predict` for a list of them. */
module Handlers {
  import opened Options
  import opened Json
  import opened Risk
  import opened Features

  /** The pre-trained classifier, loaded once and only read: `predict` is the class
      it assigns a feature row (true for the anomaly class), `proba` the probability
      it gives the anomaly class. */
  datatype Classifier = Classifier(predict: seq<real> -> bool, proba: seq<real> -> real)

  /** The body of a successful answer: `is_anomaly`, `confidence`, `risk_level`. */
  datatype Prediction = Prediction(isAnomaly: bool, confidence: real, riskLevel: RiskLevel)

  /** The three outcomes of `/predict`. */
  datatype PredictResponse =
    | Predicted(prediction: Prediction)
    | MissingFields(required: seq<string>)
    | InvalidTypes
  {
    function Status(): int
    {
      match this
      case Predicted(_) => 200
      case MissingFields(_) => 400
      case InvalidTypes => 422
    }
  }

  /** `/predict`: presence of all four keys is checked first (400), then their
      coercion (422); only then is the classifier consulted. The tier is taken
      from the unrounded probability. */
  function Predict(rt: Runtime, clf: Classifier, body: map<string, Value>): (r: PredictResponse)
    ensures r.MissingFields? <==> !HasRequired(body)
    ensures r.MissingFields? ==> r.required == RequiredFields
    ensures r.InvalidTypes? <==> HasRequired(body) && !Coercible(rt, body)
    ensures r.Predicted? ==> HasRequired(body) && Coercible(rt, body)
    ensures r.Predicted? ==>
              && r.prediction.isAnomaly == clf.predict(FeatureRow(rt, body))
              && r.prediction.confidence == rt.round4(clf.proba(FeatureRow(rt, body)))
              && r.prediction.riskLevel == RiskTier(clf.proba(FeatureRow(rt, body)))
  {
    if !HasRequired(body) then MissingFields(RequiredFields)
    else
      ReadRequiredFields(rt, body);
      match ReadFields(rt, body, RequiredFields)
      case Failed(_) => InvalidTypes
      case Row(row) =>
        var p := clf.proba(row);
        Predicted(Prediction(clf.predict(row), rt.round4(p), RiskTier(p)))
  }

  /** One entry of the batch answer: a prediction, or the `{error}` record the
      per-item exception handler writes. */
  datatype ItemResult = Assessed(prediction: Prediction) | ItemError(fault: Fault)

  /** The first fault, in column order, that reading the required fields of an object meets. */
  ghost predicate IsFirstFault(rt: Runtime, m: map<string, Value>, f: Fault)
  {
    exists i :: (0 <= i < |RequiredFields| && FaultAt(rt, m, RequiredFields[i]) == Some(f)
      && forall j :: 0 <= j < i ==> FaultAt(rt, m, RequiredFields[j]).None?)
  }

  /** A successful read of the required fields means none of them is missing. */
  lemma RowMeansPresent(rt: Runtime, m: map<string, Value>)
    ensures ReadFields(rt, m, RequiredFields).Row? ==> HasRequired(m)
  {
  }

  /** The body of the batch loop for one transaction. Unlike `/predict` there is no
      separate presence check: lookups and coercions run column by column, and the
      first that raises becomes the item's error. */
  function EvaluateTransaction(rt: Runtime, clf: Classifier, txn: Value): (r: ItemResult)
    ensures !txn.Object? ==> r == ItemError(NotSubscriptable)
    ensures txn.Object? ==> (r.Assessed? <==> HasRequired(txn.fields) && Coercible(rt, txn.fields))
    ensures txn.Object? && r.ItemError? ==> IsFirstFault(rt, txn.fields, r.fault)
    ensures r.Assessed? ==> txn.Object? && HasRequired(txn.fields) && Coercible(rt, txn.fields)
    ensures r.Assessed? ==>
              && r.prediction.isAnomaly == clf.predict(FeatureRow(rt, txn.fields))
              && r.prediction.confidence == rt.round4(clf.proba(FeatureRow(rt, txn.fields)))
              && r.prediction.riskLevel == RiskTier(clf.proba(FeatureRow(rt, txn.fields)))
  {
    match txn
    case Object(m) =>
      var read := ReadFields(rt, m, RequiredFields);
      if read.Failed? then ItemError(read.fault)
      else
        RowMeansPresent(rt, m);
        ReadRequiredFields(rt, m);
        var p := clf.proba(read.values);
        TierFormsAgree(p);
        Assessed(Prediction(clf.predict(read.values), rt.round4(p), InlineRiskTier(p)))
    case _ => ItemError(NotSubscriptable)
  }

  /** The outcomes of `/batch-predict`. `Unhandled` is an exception raised outside
      the per-item handler, which the framework turns into a 500 answer. */
  datatype BatchResponse =
    | Batch(results: seq<ItemResult>, totalTransactions: int, anomaliesFound: int)
    | NoTransactions
    | Unhandled
  {
    function Status(): int
    {
      match this
      case Batch(_, _, _) => 200
      case NoTransactions => 400
      case Unhandled => 500
    }
  }

  /** An entry for which `r.get("is_anomaly")` is truthy: error records have no such key. */
  predicate Flagged(x: ItemResult)
  {
    x.Assessed? && x.prediction.isAnomaly
  }

  /** `sum(1 for r in results if r.get("is_anomaly"))`. */
  function AnomalyCount(rs: seq<ItemResult>): (n: nat)
    ensures n <= |rs|
  {
    if rs == [] then 0
    else AnomalyCount(rs[..|rs| - 1]) + (if Flagged(rs[|rs| - 1]) then 1 else 0)
  }

  /** The positions of the flagged entries. */
  ghost function FlaggedIndices(rs: seq<ItemResult>): set<int>
  {
    set i | 0 <= i < |rs| && Flagged(rs[i])
  }

  /** The positions of the entries that are predictions rather than errors. */
  ghost function AssessedIndices(rs: seq<ItemResult>): set<int>
  {
    set i | 0 <= i < |rs| && rs[i].Assessed?
  }

  /** The anomaly count is the number of positions holding a prediction whose
      `is_anomaly` is true. */
  lemma {:induction false} AnomalyCountIsFlaggedIndices(rs: seq<ItemResult>)
    ensures AnomalyCount(rs) == |FlaggedIndices(rs)|
    decreases |rs|
  {
    if rs != [] {
      var n := |rs| - 1;
      var front := rs[..n];
      AnomalyCountIsFlaggedIndices(front);
      var last := if Flagged(rs[n]) then {n} else {};
      assert FlaggedIndices(rs) == FlaggedIndices(front) + last;
      assert n !in FlaggedIndices(front);
    }
  }

  /** Error records never count: the anomaly count is at most the number of predictions. */
  lemma ErrorsNeverCount(rs: seq<ItemResult>)
    ensures AnomalyCount(rs) <= |AssessedIndices(rs)|
  {
    AnomalyCountIsFlaggedIndices(rs);
    var flagged, assessed := FlaggedIndices(rs), AssessedIndices(rs);
    assert assessed == flagged + (assessed - flagged);
  }

  /** Counting anomalies over a concatenation adds the counts of the parts. */
  lemma {:induction false} AnomalyCountAppend(a: seq<ItemResult>, b: seq<ItemResult>)
    ensures AnomalyCount(a + b) == AnomalyCount(a) + AnomalyCount(b)
    decreases |b|
  {
    if b == [] {
      assert a + b == a;
    } else {
      var n := |b| - 1;
      assert (a + b)[..|a + b| - 1] == a + b[..n];
      assert (a + b)[|a + b| - 1] == b[n];
      AnomalyCountAppend(a, b[..n]);
    }
  }

  /** The `transactions` field, `[]` when absent. */
  function TransactionsOf(body: map<string, Value>): Value
  {
    if "transactions" in body then body["transactions"] else Array([])
  }

  /** Values a Python `for` can iterate over. */
  predicate Iterable(v: Value)
  {
    v.Array? || v.Str? || v.Object?
  }

  /** How many items a `for` over the value yields: the elements of a list, the
      characters of a string, the keys of an object. */
  function IterationLength(v: Value): nat
  {
    match v
    case Array(items) => |items|
    case Str(s) => |s|
    case Object(fields) => |fields|
    case _ => 0
  }

  /** The answer for the results of a completed loop: the total is the number of
      entries, and the anomalies are the predictions flagged as anomalous. */
  function Summarise(results: seq<ItemResult>): (r: BatchResponse)
    ensures r.Batch? && r.results == results && r.totalTransactions == |results|
    ensures r.anomaliesFound == |FlaggedIndices(results)|
    ensures 0 <= r.anomaliesFound <= |AssessedIndices(results)| <= r.totalTransactions
  {
    AnomalyCountIsFlaggedIndices(results);
    ErrorsNeverCount(results);
    AssessedIndicesBounded(results);
    Batch(results, |results|, AnomalyCount(results))
  }

  /** There are no more predictions than entries. */
  lemma {:induction false} AssessedIndicesBounded(rs: seq<ItemResult>)
    ensures |AssessedIndices(rs)| <= |rs|
    decreases |rs|
  {
    if rs != [] {
      var n := |rs| - 1;
      var front := rs[..n];
      AssessedIndicesBounded(front);
      var last := if rs[n].Assessed? then {n} else {};
      assert AssessedIndices(rs) == AssessedIndices(front) + last;
    }
  }

  /** The entries the loop of the batch handler produces for an iterable value. */
  function LoopResults(rt: Runtime, clf: Classifier, t: Value): (rs: seq<ItemResult>)
    requires Iterable(t)
    ensures |rs| == IterationLength(t)
    ensures t.Array? ==> forall i :: 0 <= i < |rs| ==> rs[i] == EvaluateTransaction(rt, clf, t.items[i])
    ensures !t.Array? ==> forall i :: 0 <= i < |rs| ==> rs[i] == ItemError(NotSubscriptable)
  {
    match t
    case Array(xs) => seq(|xs|, i requires 0 <= i < |xs| => EvaluateTransaction(rt, clf, xs[i]))
    case Str(s) => seq(|s|, _ => ItemError(NotSubscriptable))
    case Object(m) => seq(|m|, _ => ItemError(NotSubscriptable))
  }

  /** `/batch-predict`: a falsy or absent `transactions` is rejected before any
      item is looked at; otherwise every item is evaluated on its own, in order,
      and a failing item becomes an error entry without stopping the loop.
      Iterating a string or an object yields strings, each of which fails to be
      subscripted; iterating `true` or a non-zero number raises outside the loop. */
  function BatchPredict(rt: Runtime, clf: Classifier, body: map<string, Value>): (r: BatchResponse)
    ensures r.NoTransactions? <==> !Truthy(TransactionsOf(body))
    ensures r.Unhandled? <==> Truthy(TransactionsOf(body)) && !Iterable(TransactionsOf(body))
    ensures r.Batch? ==> r.totalTransactions == |r.results| == IterationLength(TransactionsOf(body)) > 0
    ensures r.Batch? && TransactionsOf(body).Array? ==>
              forall i :: 0 <= i < |r.results| ==>
                r.results[i] == EvaluateTransaction(rt, clf, TransactionsOf(body).items[i])
    ensures r.Batch? && !TransactionsOf(body).Array? ==>
              forall i :: 0 <= i < |r.results| ==> r.results[i] == ItemError(NotSubscriptable)
    ensures r.Batch? ==> r.anomaliesFound == |FlaggedIndices(r.results)|
    ensures r.Batch? ==> 0 <= r.anomaliesFound <= |AssessedIndices(r.results)| <= r.totalTransactions
  {
    var t := TransactionsOf(body);
    if !Truthy(t) then NoTransactions
    else if !Iterable(t) then Unhandled
    else Summarise(LoopResults(rt, clf, t))
  }
}
