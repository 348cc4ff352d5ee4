/** Turning a transaction object into the feature row the classifier consumes. */
module Features {
  import opened Options
  import opened Json

  /** The Python built-ins the handlers apply to request values: `float()`, `int()`
      and `round(_, 4)`. A coercion that raises ValueError or TypeError is `None`;
      which strings parse is the built-ins' business and is left abstract. */
  datatype Runtime = Runtime(
    toFloat: Value -> Option<real>,
    toInt: Value -> Option<int>,
    round4: real -> real)

  /** The keys every transaction must carry, in the column order of the feature row. */
  const RequiredFields: seq<string> := ["amount", "hour", "merchant_known", "is_weekend"]

  /** Why evaluating one transaction raised: a KeyError for an absent key, a
      ValueError or TypeError from coercing a present one, or a TypeError from
      subscripting something that is not an object. */
  datatype Fault = MissingKey(key: string) | Uncoercible(key: string) | NotSubscriptable

  /** The outcome of reading a sequence of fields: the coerced values, or the first fault. */
  datatype Read = Row(values: seq<real>) | Failed(fault: Fault)

  /** All required keys are present (extra keys are allowed). */
  predicate HasRequired(m: map<string, Value>)
  {
    forall k :: k in RequiredFields ==> k in m
  }

  /** `amount` goes through `float()`, every other column through `int()`; the row
      holds both as reals. */
  function Coerce(rt: Runtime, key: string, v: Value): Option<real>
  {
    if key == "amount" then rt.toFloat(v)
    else match rt.toInt(v)
      case None => None
      case Some(n) => Some(n as real)
  }

  /** Every required value coerces to its column's type. */
  predicate Coercible(rt: Runtime, m: map<string, Value>)
    requires HasRequired(m)
  {
    && rt.toFloat(m["amount"]).Some?
    && rt.toInt(m["hour"]).Some?
    && rt.toInt(m["merchant_known"]).Some?
    && rt.toInt(m["is_weekend"]).Some?
  }

  /** The feature row, in the fixed column order amount, hour, merchant_known, is_weekend. */
  function FeatureRow(rt: Runtime, m: map<string, Value>): seq<real>
    requires HasRequired(m) && Coercible(rt, m)
  {
    [ rt.toFloat(m["amount"]).value,
      rt.toInt(m["hour"]).value as real,
      rt.toInt(m["merchant_known"]).value as real,
      rt.toInt(m["is_weekend"]).value as real ]
  }

  /** What evaluating `coerce(m[key])` raises, if anything. */
  function FaultAt(rt: Runtime, m: map<string, Value>, key: string): Option<Fault>
  {
    if key !in m then Some(MissingKey(key))
    else if Coerce(rt, key, m[key]).None? then Some(Uncoercible(key))
    else None
  }

  /** Evaluates `coerce(m[k])` for each key from left to right, as the list
      literal that builds the feature row does, stopping at the first that raises. */
  function ReadFields(rt: Runtime, m: map<string, Value>, keys: seq<string>): (r: Read)
    ensures r.Row? <==> forall i :: 0 <= i < |keys| ==> FaultAt(rt, m, keys[i]).None?
    ensures r.Row? ==> |r.values| == |keys|
    ensures r.Row? ==> forall i :: 0 <= i < |keys| ==>
              keys[i] in m && Coerce(rt, keys[i], m[keys[i]]) == Some(r.values[i])
    ensures r.Failed? ==> exists i :: (0 <= i < |keys| && FaultAt(rt, m, keys[i]) == Some(r.fault)
              && forall j :: 0 <= j < i ==> FaultAt(rt, m, keys[j]).None?)
    decreases |keys|
  {
    if keys == [] then Row([])
    else match FaultAt(rt, m, keys[0])
      case Some(f) => Failed(f)
      case None =>
        match ReadFields(rt, m, keys[1..])
        case Row(xs) => Row([Coerce(rt, keys[0], m[keys[0]]).value] + xs)
        case Failed(f) => Failed(f)
  }

  /** Reading the required fields of an object that has them all succeeds exactly
      when every value coerces, yields the feature row in column order, and otherwise
      fails with a coercion fault, never a missing key. */
  lemma ReadRequiredFields(rt: Runtime, m: map<string, Value>)
    requires HasRequired(m)
    ensures ReadFields(rt, m, RequiredFields).Row? <==> Coercible(rt, m)
    ensures ReadFields(rt, m, RequiredFields).Row? ==>
              ReadFields(rt, m, RequiredFields).values == FeatureRow(rt, m)
    ensures ReadFields(rt, m, RequiredFields).Failed? ==>
              ReadFields(rt, m, RequiredFields).fault.Uncoercible?
  {
  }

  /** Reading fields looks only at those fields: two objects that agree on the keys
      read give the same outcome. */
  lemma {:induction false} ReadFieldsLocal(rt: Runtime, m: map<string, Value>, m': map<string, Value>, keys: seq<string>)
    requires forall k :: k in keys ==> (k in m <==> k in m')
    requires forall k :: k in keys && k in m ==> m[k] == m'[k]
    ensures ReadFields(rt, m, keys) == ReadFields(rt, m', keys)
    decreases |keys|
  {
    if keys != [] {
      assert keys[0] in keys;
      ReadFieldsLocal(rt, m, m', keys[1..]);
    }
  }
}
