/**
  The `/analyze` endpoint (`analyze` in Deployment/app.py): validates the JSON
  body, then runs classification, retrieval and the doctor lookup in that
  order, sends an email alert only for the risk "Bad", and answers with the
  four results.

  The collaborators are parameters: `predict` is the pre-trained classifier,
  `parse` is `float()` on a string, `render` is `str()` of a request value,
  `ask` is the retrieval-augmented chain and `overpass` is the geospatial
  service, queried with latitude, longitude and radius in metres. The steps the
  endpoint takes, the email included, are returned as a trace.
 */
module Endpoint {
  import opened Json
  import Text
  import Classifier
  import Rag
  import Doctors
  import Alert

  /** The required keys, in the order the `missing` list reports them. */
  const Required: seq<string> :=
    ["Gender", "Age", "Systolic BP", "Diastolic BP", "Cholesterol", "BMI",
     "Smoker", "Diabetes", "Email", "Latitude", "Longitude"]

  /** `find_nearby_doctors(lat, lon)` uses its default radius. */
  const RadiusKm := 10

  datatype Response =
    | NoJson                                  // 400 {"error": "No JSON provided"}
    | MissingFields(missing: seq<string>)     // 400 {"error": "Missing fields", "missing": [...]}
    | Analysis(risk: string, causes: seq<string>, suggestions: seq<string>,
               doctors: seq<Doctors.Doctor>)  // 200 {"risk", "causes", "suggestions", "doctors"}
    | ServerError                             // 500 {"error": str(e)}

  function Status(r: Response): int {
    match r
    case NoJson => 400
    case MissingFields(_) => 400
    case Analysis(_, _, _, _) => 200
    case ServerError => 500
  }

  /** The components the endpoint calls, in the order it calls them. */
  datatype Step = Classify | Retrieve | Locate | Notify(alert: Alert.Alert)

  /** A body for which `key in body` does not raise. */
  predicate Searchable(body: Value) {
    body.JObj? || body.JArr? || body.JStr?
  }

  /** Python's `key in body`: a dictionary key, a list element, or a substring. */
  predicate Has(body: Value, key: string)
    requires Searchable(body)
  {
    match body
    case JObj(fields) => key in fields
    case JArr(items) => JStr(key) in items
    case JStr(s) => Text.Contains(s, key)
  }

  /** `[r for r in keys if r not in body]`. */
  function Missing(keys: seq<string>, body: Value): (m: seq<string>)
    requires Searchable(body)
    ensures forall k :: k in m <==> k in keys && !Has(body, k)
    ensures |m| <= |keys|
  {
    if keys == [] then []
    else (if Has(body, keys[0]) then [] else [keys[0]]) + Missing(keys[1..], body)
  }

  /** `m` is `keys` with some entries left out, the rest in their order. */
  predicate IsSubsequence(m: seq<string>, keys: seq<string>)
    decreases |keys|
  {
    m == []
    || (keys != [] && ((m[0] == keys[0] && IsSubsequence(m[1..], keys[1..])) || IsSubsequence(m, keys[1..])))
  }

  /** The missing keys keep the order of the list they come from. */
  lemma {:induction false} MissingInOrder(keys: seq<string>, body: Value)
    requires Searchable(body)
    ensures IsSubsequence(Missing(keys, body), keys)
  {
    if keys != [] {
      MissingInOrder(keys[1..], body);
      var m := Missing(keys, body);
      if Has(body, keys[0]) {
        assert m == Missing(keys[1..], body);
      } else {
        assert m[0] == keys[0] && m[1..] == Missing(keys[1..], body);
      }
    }
  }

  /** `missing` lists exactly the required keys the body lacks, in the order of
      the required list, and it is empty exactly when all eleven are present. */
  lemma MissingRequired(body: Value)
    requires Searchable(body)
    ensures var m := Missing(Required, body);
            && (forall k :: k in m <==> k in Required && !Has(body, k))
            && IsSubsequence(m, Required)
            && (m == [] <==> forall k | k in Required :: Has(body, k))
  {
    MissingInOrder(Required, body);
    var m := Missing(Required, body);
    if m != [] {
      assert m[0] in m;
    }
  }

  /** The keys the doctor lookup and the alert read are among the required ones. */
  lemma LocationRequired()
    ensures "Email" in Required && "Latitude" in Required && "Longitude" in Required
  {
    assert Required[8] == "Email" && Required[9] == "Latitude" && Required[10] == "Longitude";
  }

  /** The body passes validation and reaches the components. */
  predicate Complete(body: Option<Value>) {
    body.Some? && Truthy(body.value) && body.value.JObj?
    && forall k | k in Required :: k in body.value.fields
  }

  function NotifyCount(steps: seq<Step>): nat {
    if steps == [] then 0 else (if steps[0].Notify? then 1 else 0) + NotifyCount(steps[1..])
  }

  /** The steps of a request that passed validation: classification, retrieval
      and the doctor lookup, then the email alert when the risk is "Bad". */
  function SuccessTrace(email: Value, risk: string, causes: seq<string>, suggestions: seq<string>): seq<Step> {
    [Classify, Retrieve, Locate] + if risk == "Bad" then [Notify(Alert.Alert(email, risk, causes, suggestions))] else []
  }

  /** The alert is sent exactly once when the risk is "Bad" and never
      otherwise, as the last step, with the same causes and suggestions the
      response carries. */
  lemma NotifyOnceIffBad(email: Value, risk: string, causes: seq<string>, suggestions: seq<string>)
    ensures var steps := SuccessTrace(email, risk, causes, suggestions);
            && NotifyCount(steps) == (if risk == "Bad" then 1 else 0)
            && steps[..3] == [Classify, Retrieve, Locate]
            && forall i | 0 <= i < |steps| && steps[i].Notify? ::
                 i == |steps| - 1 && steps[i].alert == Alert.Alert(email, risk, causes, suggestions)
  {
    var steps := SuccessTrace(email, risk, causes, suggestions);
    var head := [Classify, Retrieve, Locate];
    assert NotifyCount(head) == 0 by {
      assert head[1..][1..][1..] == [];
    }
    NotifyCountAppend(head, steps[3..]);
    assert steps == head + steps[3..];
    if risk == "Bad" {
      assert NotifyCount(steps[3..]) == 1 by {
        assert steps[3..][1..] == [];
      }
    }
  }

  lemma {:induction false} NotifyCountAppend(a: seq<Step>, b: seq<Step>)
    ensures NotifyCount(a + b) == NotifyCount(a) + NotifyCount(b)
  {
    if a == [] {
      assert a + b == b;
    } else {
      assert (a + b)[1..] == a[1..] + b;
      NotifyCountAppend(a[1..], b);
    }
  }

  /** Steps 1 to 5 of `analyze()` for a body that passed validation. */
  method Respond(data: map<string, Value>, predict: seq<real> -> Option<string>, parse: string -> Option<real>,
                 render: Value -> string, ask: string -> Option<string>,
                 overpass: (Value, Value, int) -> Option<Value>)
    returns (resp: Response, steps: seq<Step>)
    requires "Latitude" in data && "Longitude" in data && "Email" in data
    ensures resp.Analysis?
    ensures resp.risk == Classifier.ClassifyRisk(data, parse, predict)
    ensures var rag := Rag.QueryRag(data, resp.risk, render, ask);
            resp.causes == rag.causes && resp.suggestions == rag.suggestions
    ensures resp.doctors == Doctors.DoctorsOf(overpass(data["Latitude"], data["Longitude"], RadiusKm * 1000), RadiusKm)
    ensures steps == SuccessTrace(data["Email"], resp.risk, resp.causes, resp.suggestions)
  {
    var risk := Classifier.ClassifyRisk(data, parse, predict);
    var rag := Rag.QueryRag(data, risk, render, ask);
    var causes, suggestions := rag.causes, rag.suggestions;
    var doctors := Doctors.FindNearbyDoctors(overpass(data["Latitude"], data["Longitude"], RadiusKm * 1000), RadiusKm);
    steps := [Classify, Retrieve, Locate];
    if risk == "Bad" {
      steps := steps + [Notify(Alert.Alert(data["Email"], risk, causes, suggestions))];
    }
    resp := Analysis(risk, causes, suggestions, doctors);
  }

  /** `analyze()` on the body `request.get_json()` returned. */
  method Analyze(body: Option<Value>, predict: seq<real> -> Option<string>, parse: string -> Option<real>,
                 render: Value -> string, ask: string -> Option<string>,
                 overpass: (Value, Value, int) -> Option<Value>)
    returns (resp: Response, steps: seq<Step>)
    // validation: a 400 answer runs no component
    ensures resp == NoJson <==> body.None? || !Truthy(body.value)
    ensures resp.MissingFields? ==> Searchable(body.value) && resp.missing == Missing(Required, body.value) && resp.missing != []
    ensures body.Some? && Truthy(body.value) && Searchable(body.value) && Missing(Required, body.value) != [] ==>
              resp == MissingFields(Missing(Required, body.value)) && steps == []
    ensures Status(resp) == 400 ==> steps == []
    // a 500 answer: `key in data` raises for a number or `true`, or
    // `data["Latitude"]` raises for a list or string holding every key
    ensures resp == ServerError <==>
              body.Some? && Truthy(body.value)
              && (!Searchable(body.value) || (Missing(Required, body.value) == [] && !body.value.JObj?))
    ensures resp == ServerError && !Searchable(body.value) ==> steps == []
    ensures resp == ServerError && Searchable(body.value) ==> steps == [Classify, Retrieve]
    // every complete body, and only such a body, is answered with the four results
    ensures resp.Analysis? <==> Complete(body)
    ensures resp.Analysis? ==>
              (LocationRequired();
              var data := body.value.fields;
              var rag := Rag.QueryRag(data, resp.risk, render, ask);
              && resp.risk == Classifier.ClassifyRisk(data, parse, predict)
              && resp.causes == rag.causes && resp.suggestions == rag.suggestions
              && resp.doctors == Doctors.DoctorsOf(overpass(data["Latitude"], data["Longitude"], RadiusKm * 1000), RadiusKm)
              && steps == SuccessTrace(data["Email"], resp.risk, resp.causes, resp.suggestions))
    // otherwise no alert is sent
    ensures !resp.Analysis? ==> steps == [] || steps == [Classify, Retrieve]
  {
    if body.None? || !Truthy(body.value) {
      return NoJson, [];
    }
    var data := body.value;
    if !Searchable(data) {
      // `key in data` raises for a number or a boolean
      return ServerError, [];
    }
    var missing := Missing(Required, data);
    MissingRequired(data);
    if missing != [] {
      return MissingFields(missing), [];
    }
    if !data.JObj? {
      // classification and retrieval fail inside their own handlers, then
      // `data["Latitude"]` raises for a list or a string
      return ServerError, [Classify, Retrieve];
    }
    LocationRequired();
    resp, steps := Respond(data.fields, predict, parse, render, ask, overpass);
  }
}
