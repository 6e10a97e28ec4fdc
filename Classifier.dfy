/**
  The risk classifier adapter (`classify_risk` in Deployment/app.py): encodes
  the request's vitals as a fixed-order feature vector and asks an opaque,
  pre-trained model for a label. Any conversion or prediction failure becomes
  the label "Unknown".

  The model is the parameter `predict` (None stands for `predict` raising) and
  Python's `float()` on a string is the partial function `parse`.
 */
module Classifier {
  import opened Json
  import Text

  const Unknown := "Unknown"

  /** The positions of the feature vector, in the order the model was trained on. */
  const GenderAt := 0
  const AgeAt := 1
  const SystolicAt := 2
  const DiastolicAt := 3
  const CholesterolAt := 4
  const BmiAt := 5
  const SmokerAt := 6
  const DiabetesAt := 7
  const FeatureCount := 8

  /** The request keys read as numbers, in feature order (positions 1 to 5). */
  const NumericKeys: seq<string> := ["Age", "Systolic BP", "Diastolic BP", "Cholesterol", "BMI"]

  /** `1 if str(gender).lower() in ["female", "f"] else 2`. The `str()` of a JSON
      value that is not a string is "None", "True", "False", a numeral, "inf",
      "nan", or starts with a bracket, so only strings can encode as 1. */
  function GenderCode(v: Value): real {
    match v
    case JStr(s) => if Text.Lower(s) in ["female", "f"] then 1.0 else 2.0
    case _ => 2.0
  }

  /** Python's `float(v)`: None when it raises. */
  function ToFloat(v: Value, parse: string -> Option<real>): Option<real> {
    match v
    case JNum(n) => Some(n)
    case JBool(b) => Some(if b then 1.0 else 0.0)
    case JStr(s) => parse(s)
    case _ => None
  }

  /** `int(bool(v))`. */
  function Flag(v: Value): real {
    if Truthy(v) then 1.0 else 0.0
  }

  /** `float(data.get(key, 0))`. */
  function Numeric(data: map<string, Value>, key: string, parse: string -> Option<real>): Option<real> {
    ToFloat(Get(data, key, JNum(0.0)), parse)
  }

  /** Every numeric field converts. */
  predicate Convertible(data: map<string, Value>, parse: string -> Option<real>) {
    forall k | k in NumericKeys :: Numeric(data, k, parse).Some?
  }

  /** The feature vector `[gender, age, systolic, diastolic, cholesterol, bmi,
      smoker, diabetes]`, or None when a conversion raises. */
  function EncodeFeatures(data: map<string, Value>, parse: string -> Option<real>): Option<seq<real>> {
    var gender := GenderCode(Get(data, "Gender", JStr("")));
    var age := Numeric(data, "Age", parse);
    var systolic := Numeric(data, "Systolic BP", parse);
    var diastolic := Numeric(data, "Diastolic BP", parse);
    var cholesterol := Numeric(data, "Cholesterol", parse);
    var bmi := Numeric(data, "BMI", parse);
    var smoker := Flag(Get(data, "Smoker", JBool(false)));
    var diabetes := Flag(Get(data, "Diabetes", JBool(false)));
    if age.Some? && systolic.Some? && diastolic.Some? && cholesterol.Some? && bmi.Some? then
      Some([gender, age.value, systolic.value, diastolic.value, cholesterol.value, bmi.value, smoker, diabetes])
    else
      None
  }

  /** `classify_risk(data)`: the model's label, or "Unknown" when encoding or
      prediction fails. */
  function ClassifyRisk(data: map<string, Value>, parse: string -> Option<real>,
                        predict: seq<real> -> Option<string>): (risk: string)
    ensures risk == Unknown
            || (EncodeFeatures(data, parse).Some? && predict(EncodeFeatures(data, parse).value) == Some(risk))
    ensures EncodeFeatures(data, parse).None? ==> risk == Unknown
    ensures EncodeFeatures(data, parse).Some? && predict(EncodeFeatures(data, parse).value).Some? ==>
              risk == predict(EncodeFeatures(data, parse).value).value
    ensures EncodeFeatures(data, parse).Some? && predict(EncodeFeatures(data, parse).value).None? ==> risk == Unknown
  {
    match EncodeFeatures(data, parse)
    case None => Unknown
    case Some(features) =>
      match predict(features)
      case Some(verdict) => verdict
      case None => Unknown
  }

  /** The gender code is 1 exactly for the strings "female" and "f" in any
      letter case, and 2 for everything else, including a missing key. */
  lemma GenderCodeIff(v: Value)
    ensures GenderCode(v) == 1.0 <==> v.JStr? && Text.Lower(v.s) in ["female", "f"]
    ensures GenderCode(v) == 1.0 || GenderCode(v) == 2.0
  {
  }

  /** The flags follow Python truthiness, not the spelling of the value: the
      string "false" is a smoker, while `false`, `null`, `0` and `""` are not. */
  lemma FlagIsTruthiness()
    ensures Flag(JStr("false")) == 1.0 && Flag(JStr("no")) == 1.0
    ensures Flag(JBool(false)) == 0.0 && Flag(JNull) == 0.0 && Flag(JNum(0.0)) == 0.0 && Flag(JStr("")) == 0.0
    ensures Flag(JBool(true)) == 1.0 && Flag(JNum(2.0)) == 1.0
  {
  }

  /** Encoding succeeds exactly when all five numeric fields convert, and then
      the vector has eight entries in the frozen order: gender code, the five
      numbers, and the smoker and diabetes flags, which are always 0 or 1. */
  lemma FeatureLayout(data: map<string, Value>, parse: string -> Option<real>)
    ensures EncodeFeatures(data, parse).Some? <==> Convertible(data, parse)
    ensures EncodeFeatures(data, parse).Some? ==>
              var x := EncodeFeatures(data, parse).value;
              |x| == FeatureCount
              && x[GenderAt] == GenderCode(Get(data, "Gender", JStr("")))
              && (forall p | 0 <= p < |NumericKeys| :: x[AgeAt + p] == Numeric(data, NumericKeys[p], parse).value)
              && x[SmokerAt] == (if Truthy(Get(data, "Smoker", JBool(false))) then 1.0 else 0.0)
              && x[DiabetesAt] == (if Truthy(Get(data, "Diabetes", JBool(false))) then 1.0 else 0.0)
              && (x[GenderAt] == 1.0 || x[GenderAt] == 2.0)
              && (x[SmokerAt] == 0.0 || x[SmokerAt] == 1.0)
              && (x[DiabetesAt] == 0.0 || x[DiabetesAt] == 1.0)
  {
    var e := EncodeFeatures(data, parse);
    if Convertible(data, parse) {
      assert forall p | 0 <= p < |NumericKeys| :: Numeric(data, NumericKeys[p], parse).Some?;
      assert e.Some?;
    } else {
      var k :| k in NumericKeys && Numeric(data, k, parse).None?;
      assert e.None?;
    }
  }

  /** A numeric field that is absent reads as 0. */
  lemma MissingNumericIsZero(data: map<string, Value>, parse: string -> Option<real>, p: nat)
    requires p < |NumericKeys| && NumericKeys[p] !in data
    requires EncodeFeatures(data, parse).Some?
    ensures EncodeFeatures(data, parse).value[AgeAt + p] == 0.0
  {
    FeatureLayout(data, parse);
  }

  /** A field that does not convert, such as `"Age": "abc"` or `"BMI": null`,
      yields "Unknown" whatever the model would have said. */
  lemma ConversionFailureIsUnknown(data: map<string, Value>, parse: string -> Option<real>,
                                   predict: seq<real> -> Option<string>, key: string)
    requires key in NumericKeys && Numeric(data, key, parse).None?
    ensures ClassifyRisk(data, parse, predict) == Unknown
  {
    FeatureLayout(data, parse);
  }

  /** The worked example: a 45-year-old female smoker without diabetes. */
  lemma EncodeExample(parse: string -> Option<real>)
    ensures EncodeFeatures(map["Gender" := JStr("female"), "Age" := JNum(45.0), "Systolic BP" := JNum(130.0),
                               "Diastolic BP" := JNum(85.0), "Cholesterol" := JNum(210.0), "BMI" := JNum(27.5),
                               "Smoker" := JBool(true), "Diabetes" := JBool(false)], parse)
            == Some([1.0, 45.0, 130.0, 85.0, 210.0, 27.5, 1.0, 0.0])
  {
    assert Text.Lower("female") == "female";
  }
}
