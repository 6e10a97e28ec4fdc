# Smart Health triage service: verified decision logic

This project models the deterministic core of a health-risk triage service
written in Python. The service takes a patient's vitals as a JSON body on
`POST /analyze`. It validates the body and asks a pre-trained classifier for a
risk level ("Good", "Fair", "Bad" or "Unknown"). It asks a retrieval-augmented
language model for causes and suggestions, and looks up at most five nearby
doctors on a geospatial service. It emails an alert when the risk is "Bad",
and answers with the four results.

Every external collaborator is a parameter of the model:

- `predict`: the pickled classifier. It maps a feature vector to a label, and None stands for it raising.
- `parse`: Python's `float()` on a string. It is partial and returns None where `float()` raises.
- `render`: Python's `str()` of a request value, as an f-string prints it.
- `ask`: the retrieval chain. It maps a prompt to the raw answer text, and None stands for any exception.
- `overpass`: the geospatial query. It takes latitude, longitude and radius in metres and gives the decoded JSON response, or None on a timeout or a body that does not decode.
- The email itself is not sent. `Endpoint.Analyze` returns the trace of steps it took, and a `Notify(alert)` step is one call of `send_email_alert` with its arguments.

Modules, one per component:

- `Json`: JSON values, Python truthiness and `dict.get`.
- `Text`: Python's `str.isspace`, `str.strip`, ASCII `str.lower` and the substring test.
- `Classifier`: `classify_risk`.
- `Rag`: `query_rag`, from the prompt it builds to the keyword bucketing.
- `Doctors`: `find_nearby_doctors`. It is a loop proved against the function `DoctorsOf`.
- `Alert`: the text shaping of `send_email_alert`: `shorten_text`, the `[:3]` caps, the placeholder items and the colour/emoji table.
- `Endpoint`: `analyze`. It validates, runs the steps in order and gates the alert.

Behaviour of the code worth noting:

- `causes or [answer]` makes `causes` equal `[answer]` on every successful call, whether or not the answer mentions "cause" (`Rag.Bucket`).
- Female is recognised as "female" and also as "f", in any letter case.
- The "No JSON provided" answer covers every falsy body (`null`, `{}`, `[]`, `0`, `""`, `false`), not only an absent one.
- A body that is a non-empty list or string is searched with Python's `in`. That is list membership or substring search. When it "contains" all eleven keys, the endpoint answers 500, because `data["Latitude"]` raises. A number or `true` as the body makes `in` raise, which also gives 500.
- `bool()` decides the smoker and diabetes flags, so the string "false" encodes as 1 (`Classifier.FlagIsTruthiness`).
- `shorten_text` returns its argument unchanged exactly when that argument is at most 400 characters long, or is 403 characters long and ends in "..." (`Alert.ShortenFixedPoints`).

## Model

| member | source | states |
|---|---|---|
| `Endpoint.Analyze` | Deployment/app.py:168-211 | A missing or falsy body gives "No JSON provided". A truthy dictionary, list or string body that lacks keys always gives the `missing` list, which holds exactly the absent keys, and a 400 answer runs no step. A number or `true` body answers 500 with no step run, and a list or string body that holds every key answers 500 after classify and retrieve. The answer carries the four results exactly when the body is a dictionary with all eleven keys, whatever the collaborators return. Those results are the classifier's risk, the retrieval's lists and the doctor lookup, and the trace is classify, retrieve, locate, then the alert only for "Bad". No other outcome sends an alert. |
| `Endpoint.Respond` | Deployment/app.py:185-206 | For a validated body the response holds the risk, causes, suggestions and doctors unchanged from the step that produced each. The steps run in the order classify, retrieve, locate, then notify with the email address and the same lists when the risk is "Bad". |
| `Endpoint.Missing` | Deployment/app.py:176-181 | A key is in `missing` exactly when it is required and `key in data` is false, and the list is no longer than the required list. |
| `Endpoint.MissingInOrder` | Deployment/app.py:181 | The missing keys form a subsequence of the list they are filtered from, so they keep its order. |
| `Endpoint.MissingRequired` | Deployment/app.py:176-183 | `missing` holds exactly the absent required keys, in the canonical order, and it is empty exactly when all eleven keys are present. |
| `Endpoint.NotifyOnceIffBad` | Deployment/app.py:196-198 | On the success path the alert is sent once if the risk is "Bad" and never otherwise. It is the last step, after classify, retrieve and locate, and carries the response's causes and suggestions. |
| `Classifier.ClassifyRisk` | Deployment/app.py:143-164 | The risk is the model's verdict whenever the features encode and the model answers. Otherwise it is "Unknown": when a conversion fails or the model raises. |
| `Classifier.GenderCodeIff` | Deployment/app.py:146-147 | The gender code is 1 exactly for a string that lower-cases to "female" or "f", and 2 for anything else, including a missing key. |
| `Classifier.FlagIsTruthiness` | Deployment/app.py:154-155 | The smoker and diabetes flags follow Python truthiness. The string "false" gives 1, while `false`, `null`, `0` and `""` give 0. |
| `Classifier.FeatureLayout` | Deployment/app.py:149-157 | Encoding succeeds exactly when all five numeric fields convert. The vector then has eight entries in the frozen order gender, age, systolic, diastolic, cholesterol, BMI, smoker, diabetes, and the gender is 1 or 2 while both flags are 0 or 1. |
| `Classifier.MissingNumericIsZero` | Deployment/app.py:149-153 | An absent numeric key encodes as 0. |
| `Classifier.ConversionFailureIsUnknown` | Deployment/app.py:149-153 | A numeric field that does not convert, such as `"abc"` or `null`, yields "Unknown" whatever the model says. |
| `Classifier.EncodeExample` | Deployment/app.py:146-157 | The female, 45, 130/85, 210, 27.5, smoker, non-diabetic example encodes as `[1, 45, 130, 85, 210, 27.5, 1, 0]`. |
| `Rag.PromptEmbedsVitals` | Src_Code/rag_integration.py:72-87 | The prompt contains the predicted-risk line and one line each for gender, age, both blood pressures, cholesterol, BMI, smoking and diabetes. |
| `Rag.Bucket` | Src_Code/rag_integration.py:92-102 | `causes` is always `[answer]`. `suggestions` is `[answer]` when the answer mentions "suggest" or "recommend" in any case, and otherwise the generic advice. |
| `Rag.QueryRag` | Src_Code/rag_integration.py:66-106 | If the chain raises, the result is exactly the failure result, with no causes and the "Unable to fetch RAG insights" suggestion. Otherwise the cause is the stripped answer. |
| `Rag.SuccessShape` | Src_Code/rag_integration.py:89-102 | On success both lists have exactly one entry. The cause has no whitespace at either end, the suggestion is that text or the generic advice, and the result differs from the failure result. |
| `Rag.ResultCases` | Src_Code/rag_integration.py:89-106 | Every result is the failure result or a stripped answer `a` with `causes == [a]`. In the second case `suggestions == [a]` exactly when `a` advises or is the generic advice itself. |
| `Rag.UpperCaseKeyword` | Src_Code/rag_integration.py:96-97 | The keyword test ignores letter case, so an upper-case "RECOMMEND" puts the answer into the suggestions. |
| `Text.TrimStart` | Src_Code/rag_integration.py:90 | The result is the suffix left after dropping leading whitespace. It does not start with whitespace, and everything dropped is whitespace. |
| `Text.TrimEnd` | Src_Code/rag_integration.py:90 | The result is the prefix left after dropping trailing whitespace. It does not end with whitespace, and everything dropped is whitespace. |
| `Text.Strip` | Src_Code/rag_integration.py:90 | The result has no whitespace at either end and is a slice of the input with only whitespace around it. |
| `Text.StripTrimmed` | Src_Code/rag_integration.py:90 | Stripping text with no whitespace at either end leaves it unchanged. |
| `Text.StripIdempotent` | Src_Code/rag_integration.py:90 | Stripping twice is stripping once. |
| `Doctors.FindNearbyDoctors` | Deployment/app.py:109-140 | The loop returns exactly `DoctorsOf` of the response. It appends one record per element and returns the empty list at the first malformed element. |
| `Doctors.RecordsFailIff` | Deployment/app.py:124-127 | Building the records fails exactly when some element, or its tags, is not a dictionary. |
| `Doctors.RecordsAt` | Deployment/app.py:124-135 | When no element is malformed there is one record per element. Record `i` is built from element `i` with the index `len(doctors) == i`. |
| `Doctors.ElementsArePrefix` | Deployment/app.py:124 | The elements visited are the first `min(5, n)` of the service's list, in its order. There are none when the key is absent, and none are visited when the response is not a dictionary or its `elements` is not a list. |
| `Doctors.DoctorsFollowElements` | Deployment/app.py:123-140 | At most five doctors are returned, and a malformed response or element gives none. Otherwise doctor `i` comes from element `i`, with "Unnamed Doctor", "General Practitioner" and "N/A" for missing tags and a distance of `3*radius + 5*i` tenths. |
| `Doctors.DistancesIncrease` | Deployment/app.py:128 | The i-th distance is `round(radius*0.3 + 0.5*i, 1)`, held as `3*radius + 5*i` tenths, so distances strictly increase along the list. |
| `Alert.ShortenBounds` | Deployment/app.py:44-45 | The shortened text is at most 403 characters and starts with the first 400 characters of the original. Text of at most 400 characters is unchanged, and longer text becomes exactly 403 characters ending in "...". |
| `Alert.ShortenFixedPoints` | Deployment/app.py:44-45 | A text is returned unchanged exactly when it has at most 400 characters, or has 403 characters and ends in "...". |
| `Alert.ShortenIdempotent` | Deployment/app.py:44-45 | Shortening twice is shortening once. |
| `Alert.ListHtmlEmptyIff` | Deployment/app.py:47-48 | The joined `<li>` markup is empty exactly when there are no items, and a non-empty list's markup starts with the first item's `<li>` element. |
| `Alert.ListBlockShows` | Deployment/app.py:47-48 | Each list shows one to three items. An empty list shows the placeholder, which is the `or` fallback of lines 66 and 71. Otherwise the first three entries are shown in order, each shortened, at most 403 characters, and unchanged when they fit in 400. |
| `Alert.SubjectNamesRisk` | Deployment/app.py:41 | The subject line contains the risk level with a space on each side. |
| `Alert.RenderShowsAlert` | Deployment/app.py:39-71 | The message goes to the alert's address and is styled by its risk level. Its subject names that level, and its two lists are the shown causes and suggestions. |
| `Alert.RiskStyleCases` | Deployment/app.py:34-39 | "Good", "Fair" and "Bad" get three different colours, and every other risk level, "Unknown" included, gets the grey fallback. |

## Left out

- Building and loading the vector index (`init_rag`), the module-level retriever, language model and chain, and `joblib.load` of the classifier. They are foreign library calls and file I/O, so the model replaces them with the parameters `ask` and `predict`.
- The text of the Overpass query, the HTTP request and its 15-second timeout, and JSON decoding. These become the parameter `overpass` and its `Option` result.
- SMTP delivery, the MIME envelope, the HTML page around the two lists, and the credentials read from the environment. Delivery failures are swallowed by the source and are invisible to the caller.
- Flask routing, `jsonify`, the `GET /` health answer, `.env` loading and all logging and printing.
- How `request.get_json()` treats a wrong content type or an unparseable body. Depending on the Flask version it returns None or raises, and a raise would reach the catch-all 500. The model takes what `get_json()` returned.
- The text of the 500 answer (`str(e)`) and the HTTP status of each answer beyond the mapping in `Endpoint.Status`.
- Python's `float()` parsing of strings and IEEE floating point: numbers are exact reals, and `parse` stands for `float()` on strings.
- Distances are held as exact tenths, `3*radius + 5*i`. It is not the rounded IEEE double that `round(radius_km * 0.3 + 0.5 * i, 1)` produces.
- Unicode lower-casing: `str.lower()` is modelled on ASCII letters only, for the gender test and for the keyword test. For the words compared here this changes nothing: they contain no "i" or "k", which are the only ASCII letters a non-ASCII character lower-cases to.
- The `str()` of request values in the prompt is the parameter `render`, so the model does not fix how Python formats numbers or booleans.
