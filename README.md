# AutoVault price page — verified model of its logic

AutoVault is a single Streamlit page, `streamlit_app.py`, with three tabs.

- **Price prediction.** The user picks a brand, fuel type, transmission, owner type and location. Each is offered in a selectbox whose options are the keys of a constant label-to-code dict. The user also enters age, kilometres driven, mileage, engine capacity, power and seats. On "Calculate Estimated Value", `prepare_input_data` encodes the five labels through the dicts. It then lays out the 11-entry feature vector the regression model was trained on. The model's output is shown as its absolute value.
- **Car types.** The list of car types is laid out two to a row.
- **Expert advice.** A canned-response advisor looks for the first keyword of its response table that occurs in the lower-cased query. It reveals the answer character by character and appends both turns to the session's chat history.

The Dafny model, one module per concern:

- `Dicts` (`dicts.dfy`): dict literals as association lists. `d[key]` is `Lookup`: it finds the last pair with that key, or fails where Python raises KeyError. Also holds the `Option` and `Result` wrappers.
- `CategoryMaps` (`category_maps.dfy`): the five category maps exactly as the page defines them. Proves they are well formed: labels are distinct and case-sensitive, and the codes are exactly the positions 0 .. n-1.
- `Encoder` (`encoder.dfy`): `prepare_input_data`.
  - It is proved against an independent decoder: the vector can be read back into exactly the input.
  - The model states when encoding fails and which label is reported.
  - Every label offered by a selectbox encodes to its option index.
- `Prediction` (`prediction.dfy`): the click handler.
  - The model call is a parameter `predict` that returns a number or raises.
  - The handler keeps the page's structure: encoding happens before the `try`, so only the model call is guarded.
- `Advisor` (`advisor.dfy`):
  - ASCII lower-casing and substring search.
  - The keyword scan as a loop with `break`, proved equal to a first-match specification.
  - The typewriter loop.
  - The session's chat history as a class whose invariant ties the history to the submitted queries and to whether each run got as far as appending its answer.
- `CarTypesGrid` (`grid.dfy`): the two-column grid loop. Read row by row, the grid shows every car type exactly once, in order.

## Model

| member | source | states |
|---|---|---|
| Dicts.Lookup | streamlit_app.py:240-244 | `d[key]` fails exactly when no pair of the dict has that key; otherwise its result is the value of a pair with that key |
| Dicts.LookupAt | streamlit_app.py:127-152 | in a dict display with distinct keys, the i-th key maps to the i-th value |
| CategoryMaps.LocationMappingValid | streamlit_app.py:127-130 | `location_mapping` has 11 distinct labels with codes 0..10, each code the label's position |
| CategoryMaps.FuelTypeMappingValid | streamlit_app.py:132-134 | `fuel_type_mapping` has 5 distinct labels with codes 0..4 |
| CategoryMaps.TransmissionMappingValid | streamlit_app.py:136-138 | `transmission_mapping` has 2 distinct labels with codes 0..1 |
| CategoryMaps.OwnerTypeMappingValid | streamlit_app.py:140-142 | `owner_type_mapping` has 4 distinct labels with codes 0..3 |
| CategoryMaps.BrandMappingValid | streamlit_app.py:144-152 | `brand_mapping` has 33 distinct, case-sensitive labels with codes 0..32 |
| CategoryMaps.CodesInjective | streamlit_app.py:127-152 | in a well-formed map, two labels with the same code are the same label |
| CategoryMaps.CodesDense | streamlit_app.py:127-152 | in a well-formed map of n labels, every code in 0..n-1 is some label's code, and every label's code lies in 0..n-1 |
| CategoryMaps.CodeOwnerOfLookup | streamlit_app.py:127-152 | searching a map by value for a label's code finds that label again |
| Encoder.SourceMappingsValid | streamlit_app.py:127-152 | each of the page's five maps is well formed with its documented size (11, 5, 2, 4, 33) |
| Encoder.EncodeLabel | streamlit_app.py:240-244 | `mapping[label]` succeeds exactly when the label is a key, and then yields that key's code; otherwise it is KeyError for that table and label, never a default code |
| Encoder.PrepareInputData | streamlit_app.py:238-249 | encoding succeeds exactly when all five labels are keys, giving 11 features; a failure names a label of the input that is missing from its map |
| Encoder.FirstUnknownReported | streamlit_app.py:240-244 | the KeyError is for the first unknown label in the order location, fuel, transmission, owner, brand: every label looked up earlier is known |
| Encoder.EncodedVector | streamlit_app.py:247-248 | the vector is [location, age, km, fuel, transmission, owner, mileage, cc, power, seats, brand], with each code at its position |
| Encoder.EncodeDecode | streamlit_app.py:238-249 | reading the vector back in that column order recovers exactly the user's input |
| Encoder.EncodingInjective | streamlit_app.py:238-249 | two different inputs never give the same feature vector |
| Encoder.OptionEncodesToIndex | streamlit_app.py:220-244 | the i-th option of a selectbox, `list(mapping.keys())[i]`, encodes to code i |
| Encoder.UiChoicesEncode | streamlit_app.py:220-249 | inputs chosen from the selectboxes always encode, and each categorical feature is the index of the chosen option |
| Encoder.ToyotaExample | streamlit_app.py:247-248 | Toyota/Petrol/Manual/First/Pune, 5 years, 50000 km, 15.0 km/l, 1500 cc, 100 bhp, 5 seats gives [10, 5, 50000, 4, 1, 0, 15.0, 1500, 100, 5, 30] |
| Encoder.BrandCaseSensitive | streamlit_app.py:147 | "ISUZU" encodes to 12 and "Isuzu" to 13 |
| Encoder.LowerCaseBrandUnknown | streamlit_app.py:244 | "isuzu" is no brand: its lookup raises KeyError |
| Encoder.EmptyLocationFails | streamlit_app.py:240 | an empty location raises KeyError for the location map, whatever the other inputs are |
| Encoder.UnknownLocationStops | streamlit_app.py:240-244 | an unknown location stops encoding with its KeyError before any other map is consulted |
| Prediction.Abs | streamlit_app.py:265 | `abs(x)` is non-negative and equals x or -x |
| Prediction.PredictPrice | streamlit_app.py:262-265 | a model that returns gives a non-negative price of the same magnitude as the output; a model that raises gives its message as the error |
| Prediction.OnCalculate | streamlit_app.py:258-296 | a click escapes the handler exactly when some label is unknown; a price shown is never negative; a price or an error box only follows a successful encoding |
| Prediction.ErrorText | streamlit_app.py:296 | the error box shows the exception's message verbatim after an 18-character lead-in and before a 41-character tail, so the message can be read back from the box |
| Prediction.ClickAfterEncoding | streamlit_app.py:258-296 | once the inputs encode, a returning model gives the price abs(output), and a raising model gives "Prediction error: <message>. ..." instead of a price |
| Prediction.UiClickCaught | streamlit_app.py:220-260 | with labels chosen from the selectboxes, no exception escapes the handler, whatever the model does |
| Prediction.EmptyLocationUncaught | streamlit_app.py:258-260 | an unknown location makes KeyError escape the handler before the model is called |
| Prediction.NegativeOutputExample | streamlit_app.py:262-265 | a model that answers -45231.75 for the Toyota example yields the estimate 45231.75 |
| Prediction.KeyErrorMessage | streamlit_app.py:240-244 | the text of a KeyError for a missing label is the label between single quotes, so the label can be read back from it |
| Prediction.OnCalculateGuarded | streamlit_app.py:258-296 | with encoding inside the `try`, no exception escapes; the handler agrees with the page whenever all labels are known and otherwise shows the KeyError in the error box |
| Prediction.EmptyLocationReported | streamlit_app.py:258-296 | under the guarded handler the empty location is reported as "Prediction error: ''. ..." |
| Advisor.Lower | streamlit_app.py:375 | `lower()` keeps the length, turns each ASCII capital into its small letter, keeps every other character, and leaves no capital |
| Advisor.Contains | streamlit_app.py:375 | `keyword in query` holds exactly when the keyword occurs in the query at some position |
| Advisor.FirstMatch | streamlit_app.py:374-377 | the index found is the first entry whose keyword matches, and no entry before it matches; if none is found, no entry matches |
| Advisor.SelectResponse | streamlit_app.py:373-377 | the scan with `break` returns the response of the first matching keyword, or the "default" response when none matches |
| Advisor.RespondFirstKeyword | streamlit_app.py:373-377 | the first keyword other than "default" that occurs in the lower-cased query decides the response |
| Advisor.RespondNoKeyword | streamlit_app.py:373-377 | when no keyword other than "default" occurs, the response is `ai_responses["default"]` |
| Advisor.RespondFromTable | streamlit_app.py:373-377 | the response is always one of the table's responses, and a match is never made through the "default" key |
| Advisor.AiResponsesShape | streamlit_app.py:364-370 | the table's keys are budget, electric, depreciation, maintenance, default, in that order, and the four keyword responses differ from the default one |
| Advisor.KeywordOrderDefault | streamlit_app.py:369-373 | `ai_responses["default"]` exists and is the last entry's response |
| Advisor.AiRespondDefault | streamlit_app.py:364-377 | the default answer comes back exactly when none of budget, electric, depreciation and maintenance occurs in the lower-cased query |
| Advisor.ElectricBudgetExample | streamlit_app.py:364-377 | "Electric car on a BUDGET?" gets the budget answer, because keywords are tried in table order |
| Advisor.DefaultKeywordExample | streamlit_app.py:369-377 | the query "default" gets the default answer |
| Advisor.Typewriter | streamlit_app.py:380-386 | after k+1 characters the placeholder shows the response's first k+1 characters plus the cursor; it finally shows, and `full_response` equals, the whole response |
| Advisor.TranscriptAppend | streamlit_app.py:352-389 | a new turn only adds entries at the end of the history: the query, then the answer if its run got that far |
| Advisor.TranscriptShape | streamlit_app.py:352-389 | when no run was stopped, the history holds 2n entries for n queries, the k-th query at position 2k and its answer at 2k+1 |
| Advisor.AnswerFollowsQuestion | streamlit_app.py:352-389 | even with stopped runs, every assistant entry directly follows a user entry and is the advisor's answer to that query |
| Advisor.ChatSession.constructor | streamlit_app.py:339-340 | the chat history starts empty |
| Advisor.ChatSession.HandleInput | streamlit_app.py:350-389 | a non-empty query appends exactly the user entry and then, if the run is not stopped first, the advisor's answer, leaving earlier entries unchanged; a run stopped before line 352, no input or an empty one leaves the history untouched; the history invariant is kept |
| Advisor.HistoryPairs | streamlit_app.py:352-389 | when no run was stopped, every user entry sits at an even position and is followed by the advisor's answer to that very query |
| CarTypesGrid.LayoutGrid | streamlit_app.py:304-321 | one row per pair of car types; row r holds item 2r and, if it exists, item 2r+1; read row by row the grid shows the list exactly, each item once and in order |
| CarTypesGrid.GridPositions | streamlit_app.py:304-321 | item k sits in row k/2, on the left when k is even; every row has a left card; only the last row of an odd-length list lacks a right card |
| CarTypesGrid.CarTypesExample | streamlit_app.py:304-321 | the five car types make three rows: Sedan and SUV, Hatchback and Luxury, then Electric alone |

## Left out

- Page configuration, CSS, the sidebar, tabs, cards, images, markdown text and the footer: presentation with no behaviour to state.
- Redisplaying the chat history on each rerun (lines 343-345) and the rendering of the user's message: presentation only.
- Loading the model with `joblib.load`, and the untrained `RandomForestRegressor` fallback: file I/O and a foreign library. The model is the parameter `predict` of the `Prediction` functions.
- Prediction.PredictPrice: the unwrapping of an ndarray result (`predicted_value[0]`) and the `float()` conversion are not modelled. `predict` is taken to return one number or to raise.
- Floating point: mileage and the features are exact reals. The conversion of the feature list to a float64 array is taken to be exact.
- The price "jitter" animation (`random.random()`, `:,.2f` formatting), the market-insight texts, and every `time.sleep` and spinner: randomness, number formatting and timing.
- The numeric widgets' bounds (age 1-50, km 0-300000, and so on): the widgets enforce them. `CarInput` accepts any numbers, and nothing in the encoder depends on their range.
- Advisor.Lower: lower-cases ASCII capitals only. Python's `str.lower()` also folds non-ASCII capitals, so a query whose keyword is written with such letters is not covered.
- Advisor.Typewriter: `frames` records the text given to each `placeholder.markdown` call. The rendering itself is not modelled.
- Advisor.ChatSession: the response table is a field that the constructor sets to `AiResponses`. The page instead rebuilds the same literal dict on every run. The responses are identical either way, and the field keeps the long literal texts out of every proof about the history.
- Advisor.ChatSession: `st.session_state` lives as long as the browser session. Here that is the lifetime of the `ChatSession` object, and each call of `HandleInput` is one rerun of the page with the chat input's value.
- Advisor.ChatSession.HandleInput: Streamlit stops a run at its next `st` call when a new message is submitted, which may fall between the user append (line 352) and the assistant append (line 389). The argument `end` says where the run stopped, not when. What happens to the widgets of a stopped run is not modelled. Only complete histories (Advisor.TranscriptShape, Advisor.HistoryPairs) alternate strictly; with stopped runs the history may hold a user entry with no answer, and Advisor.AnswerFollowsQuestion is what still holds.
- Advisor.ResponseDict: the response table is required to have distinct keys. A dict display with a repeated key keeps the key's first position and its last value, which a list of pairs scanned in order does not reproduce; the page's table has none.
- Prediction.KeyErrorMessage: Python's `str(KeyError(k))` is `repr(k)`. Quoting the key in `'` is `repr` only for keys with no quote, backslash or unprintable character. For other keys (`it's` prints as `"it's"`), the text shown in the error box differs from the model's.
- CarTypesGrid.LayoutGrid: only the index pairing is modelled. Each card's image, caption and description are not.

## Findings

The click handler catches every exception of the model call with `except Exception` (lines 295-296) and reports it in the error box, so failures are evidently meant to reach the user as that box. The encoding step, whose failure is an exception too, is outside that `try`. The model follows the code as written.

| source | as written | input that shows it | evidently intended | confidence | as-written member | corrected member |
|---|---|---|---|---|---|---|
| streamlit_app.py:258-260 | `prepare_input_data()` is called before the `try` opens, so a KeyError from an unknown label escapes the click handler instead of reaching `except Exception` | a location of "" (or any label missing from its map) | the unknown label is reported in the "Prediction error" box like a failed model call | low: the page's own selectboxes only offer known labels (Prediction.UiClickCaught); not executed | Prediction.EmptyLocationUncaught | Prediction.OnCalculateGuarded |
