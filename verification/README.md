# Banking anomaly detector: request-handling core

This project models the two prediction endpoints of a small anomaly-scoring
service, and proves properties of that model. `/predict` scores one card
transaction. `/batch-predict` scores a list of transactions. Both endpoints read
four fields from each transaction: `amount`, `hour`, `merchant_known` and
`is_weekend`. They coerce the values to numbers and pass the feature row to a
pre-trained classifier. The classifier's probability is mapped to a risk tier:
LOW, MEDIUM or HIGH.

The model has these modules:

- `Json` (json.dfy): decoded request values, and Python truthiness.
- `Risk` (risk.dfy): the probability-to-tier mapping. The if/elif chain of the
  single handler and the inline conditional of the batch handler are both
  modelled.
- `Features` (features.dfy): the coercion built-ins as a `Runtime` record, and
  the required keys. It also models the left-to-right evaluation of the
  feature-row list literal (`ReadFields`), which stops at the first exception.
- `Handlers` (handlers.dfy): `Predict`, the per-item `EvaluateTransaction`,
  `BatchPredict` and the anomaly count.
- `HandlerProperties` (properties.dfy): lemmas that relate the endpoints and
  their inputs.
- `Scenarios` (scenarios.dfy): requests from the test suite, stated for every
  classifier.

The classifier is a pair of function parameters. `predict` is the label for a
feature row, and `proba` is the anomaly probability. Python's `float()`, `int()`
and `round(_, 4)` are also parameters. A coercion that raises `ValueError` or
`TypeError` returns `None`. Handlers are pure functions, so giving the same input
twice yields the same answer. Floats are modelled as the exact decimals they
denote, and this applies to the thresholds 0.7 and 0.4 too.

Behaviours worth noting:

- The tier is computed from the unrounded probability. The reported tier can
  therefore differ from the tier of the reported, rounded `confidence`
  (`Scenarios.RoundedConfidenceMayCrossThreshold`).
- The batch handler does not repeat the single handler's validation. It has no
  presence check that runs first. Lookups and coercions run column by column, so
  an object missing `hour` whose `amount` is text fails on the amount's coercion
  (`Scenarios.ValidationOrderDiffers`).
- Any falsy `transactions` value gets the 400 answer, not only an empty or
  absent list. A falsy value is any value Python treats as false: `null`, `false`, `0`,
  `0.0`, `""`, `{}` or `[]`. A truthy string
  or object is iterated, and each element becomes an error entry. `true` or a
  non-zero number raises outside the per-item handler, which gives a 500 answer
  (`Unhandled`).

## Model

| member | source | states |
|---|---|---|
| Risk.RiskTier | api/app.py:72-77 | The tier lies in the band of the probability: above 0.7 is HIGH, above 0.4 up to 0.7 is MEDIUM, 0.4 and below is LOW |
| Risk.BandsPartition | api/app.py:72-77 | Every probability lies in exactly one of the three bands, so the mapping is total and single-valued |
| Risk.RiskTierIsBand | api/app.py:72-77 | RiskTier(p) is t exactly when p lies in t's band (both directions) |
| Risk.TierFormsAgree | api/app.py:72-119 | The inline conditional of line 119 returns the same tier as the if/elif chain for every probability |
| Risk.BoundaryScores | api/app.py:72-77 | Exactly 0.7 maps to MEDIUM and exactly 0.4 maps to LOW, in both forms of the mapping |
| Risk.TierMonotone | api/app.py:72-77 | A higher probability never gets a lower tier |
| Features.ReadFields | api/app.py:104-109 | Evaluating the feature-row list gives a row exactly when no lookup or coercion raises. The row has one coerced value per key, in key order. Otherwise the fault is the first failing key's KeyError or coercion error |
| Features.ReadRequiredFields | api/app.py:53-63 | When all four keys are present, reading succeeds exactly when every value coerces. The row is [amount, hour, merchant_known, is_weekend] in that fixed order, and a failure is a coercion failure, never a missing key |
| Features.ReadFieldsLocal | api/app.py:104-109 | Reading fields looks only at the keys it reads |
| Handlers.RowMeansPresent | api/app.py:104-109 | A successful read of the required fields implies that all four keys are present |
| Handlers.Predict | api/app.py:37-84 | 400 with the four-key list exactly when a key is missing. 422 exactly when all keys are present but one does not coerce. Otherwise 200, with is_anomaly the classifier's label, confidence the rounded probability, and the tier of the unrounded probability, all on the fixed-order row |
| Handlers.EvaluateTransaction | api/app.py:101-123 | A non-object item gives a subscript error entry. An object is scored exactly when it has all keys and they coerce, with the same fields as /predict. Otherwise the entry holds the first fault in column order |
| Handlers.AnomalyCount | api/app.py:129 | The anomaly count never exceeds the number of entries |
| Handlers.AnomalyCountIsFlaggedIndices | api/app.py:129 | The anomaly count is the number of positions holding a prediction whose is_anomaly is true |
| Handlers.ErrorsNeverCount | api/app.py:121-129 | Error entries are never counted: the anomaly count is at most the number of scored entries |
| Handlers.AnomalyCountAppend | api/app.py:129 | The anomaly count of a concatenation is the sum of the parts' counts |
| Handlers.AssessedIndicesBounded | api/app.py:116-123 | There are no more scored entries than entries |
| Handlers.Summarise | api/app.py:126-130 | total_transactions is the number of results. anomalies_found counts the flagged predictions and lies between 0 and the number of scored entries |
| Handlers.LoopResults | api/app.py:101-123 | One entry per iterated item, in input order. List items are each evaluated on their own, and the characters of a string or the keys of an object each give a subscript error entry |
| Handlers.BatchPredict | api/app.py:89-130 | 400 exactly when transactions is absent or falsy, and 500 exactly when it is truthy but not iterable. Otherwise entry i is item i's own evaluation, total_transactions is the input length and is non-zero, and 0 <= anomalies_found <= scored entries <= total |
| HandlerProperties.PresenceCheckedFirst | api/app.py:42-50 | A body missing a key gets the same 400 answer, naming the four keys, whatever its values, the coercions or the classifier |
| HandlerProperties.RejectionIgnoresClassifier | api/app.py:44-69 | The classifier is not consulted on a 400 or 422 answer: swapping the classifier leaves it unchanged |
| HandlerProperties.ExtraKeysIgnored | api/app.py:42-60 | Both handlers give the same answer for a body and for its restriction to the four required keys |
| HandlerProperties.BatchItemAgreesWithPredict | api/app.py:53-120 | An object in a batch is scored exactly when /predict would answer 200 for it, and then with the same prediction |
| HandlerProperties.BatchOfList | api/app.py:94-130 | A non-empty list is answered with its per-item results, its length as total, and their anomaly count |
| HandlerProperties.BatchConcatenation | api/app.py:101-130 | The answer for xs + ys concatenates the results of xs and ys and adds their totals and anomaly counts |
| HandlerProperties.ItemsAreIndependent | api/app.py:101-123 | Replacing one item of a batch, even with one that fails, leaves every other entry unchanged |
| Scenarios.OnlyAmountIsRejected | tests/test_api.py:64-70 | A body with only amount gets 400, and the answer names the required keys |
| Scenarios.TextAmountIsRejected | tests/test_api.py:73-82 | All keys present with text in amount gives 422 |
| Scenarios.ValidationOrderDiffers | api/app.py:45-109 | A body {amount: "abc"} is a 400 for /predict. As a batch item it fails on the amount's coercion, not on a missing key |
| Scenarios.TwoTransactionBatch | tests/test_api.py:109-122 | A two-item batch whose first item the classifier flags gives 200, total 2, at least one anomaly, and both items scored in order |
| Scenarios.RoundedConfidenceMayCrossThreshold | api/app.py:72-82 | A probability of 0.70004 is reported HIGH with confidence 0.7, whose own tier is MEDIUM |
| Scenarios.FalsyTransactionsRejected | api/app.py:91-95 | An absent, null, false, 0, 0.0, empty-string, empty-object or empty-list transactions value gets 400 |

## Left out

- Flask routing, JSON decoding and encoding, CORS, and the constant `/health` answer (api/app.py:14-32, 133-135) are framework plumbing. Bodies that are not JSON objects are not modelled: both handlers take a decoded object. In `/predict`, `field in data` is a membership test on a list and a substring test on a string. So a list or string body gets the 400 answer unless it contains all four key names. If it does, the subscript `data["amount"]` raises a `TypeError`, which gives the 422 answer. A null, boolean or number body makes `in` raise a `TypeError` that nothing catches, so the answer is 500. `/batch-predict` fails with a 500 on every body that is not an object, because it calls `.get` on the body.
- Loading the pickled model (api/app.py:21-22) and the random forest itself are file I/O and an opaque library. The classifier is two function parameters. Bounds such as confidence in [0, 1] are facts about the classifier, not about this code, so they are not claimed.
- Exceptions raised inside the classifier are not modelled. /predict would let them escape as a 500, and the batch loop would record them as error entries.
- Python's exact `float()`/`int()` parsing rules, `round(_, 4)`, and the text of error messages (`str(e)`) are abstract. An entry's error carries the kind of fault, not its message.
- A coercion that raises something other than `ValueError`/`TypeError` is not modelled. `OverflowError` from `int()` of an infinite float is one example; in /predict it escapes as a 500.
- The concrete predictions asserted by tests/test_api.py:34-61 depend on the trained weights. `Scenarios.TwoTransactionBatch` therefore takes the classifier's verdict on the first item as a premise.
- data/generate_data.py (random data, CSV output) and models/train_model.py (offline training over pandas and scikit-learn) are not part of this model.
