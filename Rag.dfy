/**
  The RAG answer engine (`query_rag` in Src_Code/rag_integration.py): builds a
  fixed prompt from the patient's vitals and the predicted risk, asks the
  retrieval-augmented chain for one free-text answer, strips it, and sorts it
  into "causes" and "suggestions" by keyword presence.

  The chain is the parameter `ask` (prompt to answer; None stands for any
  exception on the way), and Python's `str()` of a request value, as an
  f-string renders it, is the parameter `render`.
 */
module Rag {
  import opened Json
  import opened Text

  /** The suggestion used when the answer names no suggestion or recommendation. */
  const NoAdvice := "Consult a healthcare provider for personalized advice."
  /** The only suggestion of the failure result. */
  const Unavailable := "Unable to fetch RAG insights at the moment."

  datatype RagResult = RagResult(causes: seq<string>, suggestions: seq<string>)

  /** What `query_rag` returns when anything on the way raises. */
  const FailureResult := RagResult([], [Unavailable])

  /** The seven lines of the prompt that carry the eight vitals, each with its indentation. */
  function VitalsLines(data: map<string, Value>, render: Value -> string): seq<string> {
    [ "        - Gender: " + render(Get(data, "Gender", JNull)) + "\n",
      "        - Age: " + render(Get(data, "Age", JNull)) + "\n",
      "        - BP: " + render(Get(data, "Systolic BP", JNull)) + "/" + render(Get(data, "Diastolic BP", JNull)) + "\n",
      "        - Cholesterol: " + render(Get(data, "Cholesterol", JNull)) + "\n",
      "        - BMI: " + render(Get(data, "BMI", JNull)) + "\n",
      "        - Smoker: " + render(Get(data, "Smoker", JNull)) + "\n",
      "        - Diabetic: " + render(Get(data, "Diabetes", JNull)) + "\n" ]
  }

  function Concat(lines: seq<string>): string {
    if lines == [] then "" else lines[0] + Concat(lines[1..])
  }

  const PromptHead := "\n        Patient vitals:\n"
  const PromptTail :=
    "\n        Provide:\n"
    + "        1. Explanation of possible causes.\n"
    + "        2. Recommended preventive actions or medical follow-up.\n"
    + "        3. Short actionable summary.\n"
    + "        "

  function RiskLine(risk: string): string {
    "        Predicted Risk: " + risk + "\n"
  }

  /** The f-string prompt of `query_rag`; a key absent from the request renders
      as `None`, the value of `dict.get`. */
  function BuildPrompt(data: map<string, Value>, risk: string, render: Value -> string): string {
    PromptHead + Concat(VitalsLines(data, render)) + RiskLine(risk) + PromptTail
  }

  /** Each line of a concatenation occurs in it. */
  lemma {:induction false} ConcatContains(lines: seq<string>, k: nat)
    requires k < |lines|
    ensures Contains(Concat(lines), lines[k])
  {
    if k == 0 {
      ContainsInfix("", lines[0], Concat(lines[1..]));
      assert "" + lines[0] + Concat(lines[1..]) == Concat(lines);
    } else {
      ConcatContains(lines[1..], k - 1);
      var i :| 0 <= i <= |Concat(lines[1..])| - |lines[k]| && OccursAt(Concat(lines[1..]), lines[k], i);
      assert Concat(lines) == lines[0] + Concat(lines[1..]);
      assert OccursAt(Concat(lines), lines[k], |lines[0]| + i);
    }
  }

  /** The prompt names the predicted risk and every vital: gender, age, both
      blood pressures, cholesterol, BMI, smoking and diabetes. */
  lemma PromptEmbedsVitals(data: map<string, Value>, risk: string, render: Value -> string)
    ensures Contains(BuildPrompt(data, risk, render), RiskLine(risk))
    ensures forall k | 0 <= k < |VitalsLines(data, render)| :: Contains(BuildPrompt(data, risk, render), VitalsLines(data, render)[k])
  {
    var lines := VitalsLines(data, render);
    var body := Concat(lines);
    ContainsInfix(PromptHead + body, RiskLine(risk), PromptTail);
    forall k | 0 <= k < |lines|
      ensures Contains(BuildPrompt(data, risk, render), lines[k])
    {
      ConcatContains(lines, k);
      ContainsExtend(PromptHead, body, RiskLine(risk), lines[k]);
      ContainsExtend("", PromptHead + body, RiskLine(risk), lines[k]);
      ContainsExtend("", PromptHead + body + RiskLine(risk), PromptTail, lines[k]);
    }
  }

  /** The answer mentions a suggestion or a recommendation, in any letter case. */
  predicate Advises(answer: string) {
    Contains(Lower(answer), "suggest") || Contains(Lower(answer), "recommend")
  }

  /** The keyword gating of `query_rag` applied to the stripped answer: the
      lists the code builds by conditional appends, then their `or` defaults. */
  function Bucket(answer: string): (r: RagResult)
    ensures r.causes == [answer]
    ensures Advises(answer) ==> r.suggestions == [answer]
    ensures !Advises(answer) ==> r.suggestions == [NoAdvice]
  {
    var causes := if Contains(Lower(answer), "cause") then [answer] else [];
    var suggestions := if Advises(answer) then [answer] else [];
    RagResult(if causes != [] then causes else [answer],
              if suggestions != [] then suggestions else [NoAdvice])
  }

  /** `query_rag(data, risk)`: the failure result if the chain raises, else the
      stripped answer sorted into the two buckets. */
  function QueryRag(data: map<string, Value>, risk: string, render: Value -> string,
                    ask: string -> Option<string>): (r: RagResult)
    ensures ask(BuildPrompt(data, risk, render)).None? ==> r == FailureResult
    ensures ask(BuildPrompt(data, risk, render)).Some? ==>
              r.causes == [Strip(ask(BuildPrompt(data, risk, render)).value)]
  {
    match ask(BuildPrompt(data, risk, render))
    case None => FailureResult
    case Some(raw) => Bucket(Strip(raw))
  }

  /** On success both lists hold exactly one entry, the cause is the whole
      stripped answer with no whitespace at either end, the suggestion is that
      same text or the generic advice, and the result can
      never be mistaken for the failure result, whose cause list is empty. */
  lemma SuccessShape(data: map<string, Value>, risk: string, render: Value -> string,
                     ask: string -> Option<string>)
    requires ask(BuildPrompt(data, risk, render)).Some?
    ensures var r := QueryRag(data, risk, render, ask);
            |r.causes| == 1 && |r.suggestions| == 1 && Trimmed(r.causes[0])
            && (r.suggestions[0] == r.causes[0] || r.suggestions[0] == NoAdvice)
            && r != FailureResult
  {
    var answer := Strip(ask(BuildPrompt(data, risk, render)).value);
    var r := Bucket(answer);
    assert QueryRag(data, risk, render, ask) == r;
    assert r.suggestions == [answer] || r.suggestions == [NoAdvice];
  }

  /** Every result is either the fixed failure result or a success: the
      suggestion is the stripped answer exactly when that answer advises. */
  lemma ResultCases(data: map<string, Value>, risk: string, render: Value -> string,
                    ask: string -> Option<string>)
    ensures var r := QueryRag(data, risk, render, ask);
            r == FailureResult
            || (exists answer ::
                  && Trimmed(answer) && r.causes == [answer]
                  && (r.suggestions == [answer] <==> Advises(answer) || answer == NoAdvice))
  {
    var r := QueryRag(data, risk, render, ask);
    if ask(BuildPrompt(data, risk, render)).Some? {
      var answer := Strip(ask(BuildPrompt(data, risk, render)).value);
      assert r.causes == [answer];
    }
  }

  /** The keyword test ignores letter case: an upper-case "RECOMMEND" routes the
      answer into the suggestions. */
  lemma UpperCaseKeyword()
    ensures Bucket("We RECOMMEND rest").suggestions == ["We RECOMMEND rest"]
  {
    var low := Lower("We RECOMMEND rest");
    assert low[3..12] == "recommend";
    assert OccursAt(low, "recommend", 3);
  }
}
