# WattsUp decision logic in Dafny

WattsUp is a Streamlit app. It estimates a household's next electricity bill
from the last three monthly readings, and it answers free-text questions with
a hybrid chatbot. This project models the decision logic of three files and
proves properties of it:

- `app.dfy` (module `App`): the bill-predictor page. `NextUnits` is the trend
  extrapolation: last month's units plus the mean of the two month-over-month
  differences, rounded half to even as Python's `round` does, clamped at 0.
  It takes the same steps as `np.mean` and `round`, in exact arithmetic
  on Dafny `real`. It is proved equal to the integer-only reference `NextUnitsInt`,
  which rounds (3·u1 − u3)/2. `PredictBill` and the class `Session` model the
  "Predict Bill" button. With no trained model the button only reports
  `ModelUnavailable` and leaves the session state alone. Otherwise it
  overwrites `pred_val` and `pred_units`. The regression is an opaque function
  `nat -> real`. Whether a model was loaded is an `Option`.
- `chatbot.dfy` (module `Chatbot`): `predict_intent`, `call_gemini`,
  `chatbot_response` and the eight-entry reply table. The classifier's output
  is a `Classification`: a label sequence and a probability sequence of the
  same non-empty length. `MaxOf` is Python's `max`. `ArgMax` is NumPy's
  `argmax`, the first index of the maximum. The intent is a string, and the
  fallback is the sentinel string `"gemini_fallback"`, as in the source. The
  vectorizer together with the classifier is an opaque function
  `string -> Classification`. The text generator is an opaque function
  `string -> Result<string, GenerateError>`. A label missing from the table
  gives `Err(KeyError(label))`, as Python's `KeyError` does.
- `train.dfy` (module `Training`): `find_column` is the method `FindColumn`.
  It has the source's two nested loops and its early return, and it is
  proved equal to the recursive specification `FirstMatch`. The character
  filter of `to_numeric` is the function `CleanNumeric`.
- `wrappers.dfy` (module `Wrappers`): `Option` and `Result`.

Three consequences of the code that a reader might not expect:

- For falling readings the prediction is strictly below last month only when
  last month is above 0. With u1 = 0 it is 0, equal to u1
  (`NextUnitsDecreasing`).
- The `except` branch at app.py:50-51 would fall back to u1. For the
  whole-number inputs the form allows it cannot run, so the model has no
  such branch.
- The sentinel is compared as a string. A classifier class literally named
  `gemini_fallback` would go to the generator even at high confidence
  (`SentinelLabelGoesToGenerator`).

## Model

| member | source | states |
|---|---|---|
| App.RoundHalfEven | app.py:49 | the result is within 1/2 of x, and is even when x is exactly halfway between two integers |
| App.RoundHalfEvenUnique | app.py:49 | no other integer has those two properties, so they determine Python's rounding |
| App.HalfEvenOfHalfIsRounding | app.py:49 | the integer-only rounding of n/2 equals round-half-even of the real n/2 |
| App.MeanOfTwo | app.py:47-48 | the mean of a two-element list of differences is their sum over 2 |
| App.NextUnitsClosedForm | app.py:47-49 | the real-valued extrapolation equals the integer reference max(0, round-half-even((3·u1 − u3)/2)) for all readings |
| App.NextUnitsIgnoresMiddleReading | app.py:47-48 | the differences telescope: changing the middle reading never changes the prediction |
| App.NextUnitsZeroIff | app.py:49 | the prediction is 0 exactly when 3·u1 − u3 ≤ 1 |
| App.NextUnitsConstant | app.py:47-49 | three equal readings predict that same reading |
| App.NextUnitsDefaults | app.py:35-49 | the form's defaults 200, 220, 240 predict 260 |
| App.NextUnitsTiesToEven | app.py:49 | halves round to even: 2.5 gives 2 and 1.5 gives 2, whatever the middle reading |
| App.NextUnitsClamped | app.py:49 | readings 500, 100, 50 predict 0, not a negative count |
| App.NextUnitsIncreasing | app.py:47-49 | strictly increasing readings predict more than last month |
| App.NextUnitsDecreasing | app.py:47-49 | strictly decreasing readings predict at most last month, and strictly less when last month is above 0 |
| App.PredictBill | app.py:42-53 | with no model the outcome is ModelUnavailable, and only then; otherwise the units are the integer reference prediction and the bill is the regression's value for them |
| App.Session.constructor | app.py:58 | a new session holds neither pred_val nor pred_units |
| App.Session.PressPredict | app.py:42-55 | the outcome is PredictBill's; with no model both entries keep their old values; after a prediction both entries hold the fresh units and bill, whatever they held before |
| Chatbot.IntentsDistinct | chatbot_module.py:37-58 | the eight intent names are pairwise different |
| Chatbot.ResponseKeys | chatbot_module.py:37-58 | the table's keys are exactly high_bill, low_bill, energy_tips, ac_tips, greeting, thanks, general_faq and unknown, there are 8 of them, and the fallback sentinel is not one |
| Chatbot.MaxOf | chatbot_module.py:67 | the confidence is one of the probabilities and no probability exceeds it |
| Chatbot.ArgMax | chatbot_module.py:68 | the index is in range, holds a largest probability, and every earlier index holds a strictly smaller one |
| Chatbot.MaxOfIsAtArgMax | chatbot_module.py:67-68 | the confidence tested against the threshold is the probability of the chosen class |
| Chatbot.ConfidenceIsProbability | chatbot_module.py:67 | if every output is in [0, 1], so is the confidence |
| Chatbot.PredictIntent | chatbot_module.py:63-74 | below 0.50 the intent is the fallback sentinel; at 0.50 or more it is one of the classifier's labels |
| Chatbot.ConfidentIntentIsFirstMax | chatbot_module.py:67-74 | a confident intent is the label at the first index holding the maximum probability |
| Chatbot.ThresholdIsInclusive | chatbot_module.py:71-74 | a confidence of exactly 0.50 yields the top label, not the fallback |
| Chatbot.CallGemini | chatbot_module.py:23-31 | the generator's text for the prompt is returned unchanged; any generator failure yields the fixed apology, never an error |
| Chatbot.FailedFallbackReplyNonEmpty | chatbot_module.py:30-31 | a failed fallback still gives a non-empty reply |
| Chatbot.ChatbotResponse | chatbot_module.py:80-87 | the reply is an error exactly when the confidence is at least 0.50 and the top label is neither the sentinel nor a key of the table, and the error is a KeyError carrying that top label |
| Chatbot.LowConfidenceAsksGenerator | chatbot_module.py:80-85 | below the threshold the generator gets the user's message unchanged, and its text, or the apology on failure, is the reply |
| Chatbot.ConfidentAnswersFromTable | chatbot_module.py:80-87 | at or above the threshold, a label of the table is answered with exactly its canned text |
| Chatbot.CoveredLabelsNeverFail | chatbot_module.py:87 | if every class label is a table key, the reply is never a KeyError |
| Chatbot.SentinelLabelGoesToGenerator | chatbot_module.py:84-85 | a top label equal to "gemini_fallback" is routed to the generator even when confident |
| Chatbot.HighBillScenario | chatbot_module.py:80-87 | "my bill is very high this month" classified high_bill at 0.82 gets the high-bill text exactly |
| Chatbot.GibberishScenario | chatbot_module.py:80-85 | a message classified at 0.30 is passed verbatim to the generator, and its reply "Try reducing AC usage." is returned unchanged |
| Training.Lower | train_model.py:14 | the lower-cased name has the same length, and each character is the lower-case form of the original |
| Training.LowerIdempotent | train_model.py:14 | lower-casing twice is lower-casing once |
| Training.Contains | train_model.py:16 | `kw in low` holds exactly when kw occurs as a contiguous slice of low |
| Training.FindColumn | train_model.py:11-18 | the nested loops with early return compute FirstMatch, the first column in order whose lower-cased name contains a keyword |
| Training.FirstMatchNoneIff | train_model.py:13-18 | None is returned exactly when no column's lower-cased name contains any keyword |
| Training.FirstMatchIsFirst | train_model.py:13-17 | a returned name is a column, it matches a keyword, and every earlier column matches none |
| Training.KeywordOrderIrrelevant | train_model.py:13-16 | two keyword lists with the same members give the same result, whatever their order |
| Training.MatchIgnoresColumnCase | train_model.py:14-16 | a column matches exactly when its lower-cased name matches |
| Training.CaseExamples | train_model.py:14-16 | "UNITS" matches keyword "unit", but "Units" does not match "Unit", because keywords are not lower-cased |
| Training.CleanNumeric | train_model.py:22 | the cleaned string is no longer than the input and holds only digits, '.' and '-' |
| Training.CleanNumericAppend | train_model.py:22 | cleaning works character by character: cleaning s + t is cleaning s followed by cleaning t, so kept characters keep their order |
| Training.CleanNumericCounts | train_model.py:22 | a kept character occurs as often as in the input; any other character does not occur |
| Training.CleanNumericFixesClean | train_model.py:22 | a string made only of digits, '.' and '-' is unchanged |
| Training.CleanNumericIdempotent | train_model.py:22 | cleaning twice is cleaning once |
| Training.CleanNumericExample | train_model.py:21-22 | "₹1,234" is cleaned to "1234" and "1,234.50" to "1234.50" |

## Left out

- Streamlit presentation is not modelled: page config, query-parameter routing, HTML embedding, CSS, columns, charts, the info and success messages and the back button (app.py:8-31, 57-79).
- Loading the trained artifacts is file I/O and is not modelled (`joblib.load`, `os.path.exists`). A regression model is present or absent as an `Option`. The chatbot's classifier is always present, as the module-level load requires.
- `model.predict`, `vectorizer.transform` and `predict_proba` are foreign numeric code. They are opaque function parameters.
- App.Session.PressPredict: `pred_val` holds the regression's value unrounded. `round(predicted_bill, 2)` (app.py:54) depends on float64 formatting and is not modelled.
- App.PredictBill: an exception raised by a present but failing regression model propagates to Streamlit. It is not modelled; the regression is a total function.
- App.NextUnits: the arithmetic is exact. `np.mean` works in float64, which is exact only for readings below about 2^52. Larger readings could round differently and are not modelled.
- The bill readings b3, b2 and b1 are only drawn in the chart. They take no part in the prediction and are not parameters.
- Chatbot: NaN probabilities are not modelled. `max` and `argmax` treat NaN in their own ways, and a `real` cannot be NaN.
- Chatbot.ChatbotResponse: the classifier's output is required to be well formed: aligned with the labels and non-empty. A trained classifier always returns such output, so the errors `max` would raise otherwise are not modelled.
- The generator's configuration, the API key and the network call are not modelled. A generator failure of any kind is one `Err` value. Timeouts are part of that failure.
- The interactive terminal loop at chatbot_module.py:93-99 is terminal I/O and is not modelled.
- Conversation history and session isolation belong to a chat page that is not part of this model.
- Training.Lower and Training.IsKept use ASCII. Python's `str.lower` folds all Unicode letters, and `\d` matches every Unicode decimal digit. Non-ASCII letters are kept as they are, and non-ASCII digits are removed.
- Training.FindColumn: column names are strings. A non-string pandas column label would raise on `.lower()`; that is not modelled.
- `to_numeric` applies the filter to every cell of a column and then calls `pd.to_numeric(..., errors='coerce')`. Only the per-cell character filter is modelled; the number parsing is float parsing.
- `main` in train_model.py is not modelled: CSV reading, the keyword lists, the missing-column exit, `dropna`, the split, the fit, the RMSE and the save. It is I/O around the two helpers and foreign numeric code.
