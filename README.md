# Support-ticket triage engine — a Dafny model

This project models the decision core of a support-ticket auto-triage app
(`app.py`). A ticket's subject and body are normalised into one text. Three
classifiers then run in a cascade: ticket type, then priority, then routing
queue. Each stage's predicted class becomes a feature of the next stage. Two
configurable thresholds and a fixed 0.90 type-confidence floor turn the three
confidences into optional auto-applied values and one of five actions. Each
triaged ticket becomes a row of the prediction log and an entry of the session
history. An admin can clear both.

Modules:

- `Wrappers` (`wrappers.dfy`): `Option`, standing for Python's `None`.
- `TextClean` and `CleanTextExamples` (`text_clean.dfy`): `clean_text` as
  pure functions, one per step: lower-case, scrub, collapse whitespace, strip,
  `split`, drop stop words, `" ".join`. The file also holds the lemmas about
  these steps.
- `Triage` (`triage.dfy`): `predict_ticket`. Each classifier is a function
  from its stage's feature record to a class name and a confidence, carried
  in a `Models` value. The cascade is `RunStages`, the policy is `AutoApply`
  plus `Decide`, and `PredictTicket` puts them together.
- `History` (`history.dfy`): the log row and history entry built from a
  result (`NewRow`, `NewEntry`). The `Session` class holds the history list
  and the log rows as `seq` fields. `save_and_log` appends to both, and
  `admin_clear_all` empties both.

Decisions taken from the code:

- Python truthiness is modelled exactly. `Truthy(o)` holds when `o` is
  present and not `""`. An auto value whose class name is empty therefore
  counts as absent in the decision list, in the log's `auto_queue` flag and in
  the `a or b` fallbacks.
- The queue hint is `Option<string>`. A missing hint and an empty hint both
  give `"General"`. Any other hint is stripped, so a whitespace-only hint
  gives `""`, not `"General"` (app.py:62).
- Whitespace is Python's `str.isspace` set, Unicode spaces included. This is
  what regex `\s`, `str.split()` and `str.strip()` use, so the three steps
  agree.
- The stop-word set (app.py:57) has 55 words, and the model uses exactly
  those 55.
- One might expect `clean_text("Can't Login!") == clean_text("cant login")`.
  The code does not have this property. The apostrophe splits "Can't" into
  "can" and "t", and "can" is a stop word. So the first text yields the
  tokens of `["t", "login"]` and never the token "cant"
  (`CleanTextExamples.ContractionLosesWord`). The model follows the code.
- Thresholds are not range-checked, and a classifier failure is not turned
  into an error value of its own. The thresholds come from sliders limited to
  [0.5, 1.0] (app.py:234-235) but `predict_ticket` accepts any value, and a
  classifier exception just propagates. The model does not range-check
  thresholds either. Classifier exceptions are left out (see "## Left out").
- For a result of `predict_ticket`, an auto value is either the prediction
  itself or absent. So the "resolved" priority and queue written to the log
  always equal the predicted ones (`History.LoggedValuesArePredictions`).

## Model

| member | source | states |
|---|---|---|
| `TextClean.Lower` | app.py:54 | The length is kept and each character is lower-cased on its own (ASCII letters only, see "Left out"). `TextClean.CleanTextIgnoresCase` states that lower-casing first changes nothing. |
| `TextClean.CleanText` | app.py:52-58 | A missing input gives `""`. The result contains only `a-z`, `0-9` and single inner spaces, with no space at either end. Its tokens are exactly the scrubbed text's tokens with the stop words dropped. None of its tokens is a stop word. |
| `TextClean.Scrub` | app.py:55 | The length is kept. A character stays exactly when it is in `[a-z0-9]` or is whitespace, and every other character becomes a space. |
| `TextClean.StripStart` | app.py:56 | The result is a suffix of the input, all of the dropped part is whitespace, and the result does not start with whitespace. |
| `TextClean.StripEnd` | app.py:56 | The result is a prefix of the input, all of the dropped part is whitespace, and the result does not end with whitespace. |
| `TextClean.Strip` | app.py:56 | The result is no longer than the input, does not start or end with whitespace, and is empty exactly when the input is all whitespace. |
| `TextClean.StripIsSlice` | app.py:56 | `str.strip()` cuts whitespace off both ends and nothing else. What `Strip` keeps is the input's slice from the end of the leading whitespace on, with only whitespace before and after it (`IsStripped`). |
| `TextClean.SliceBetweenSpaces` | app.py:56 | Cutting whitespace off the start and then off the end leaves a slice of the input with only whitespace before and after it. |
| `TextClean.StripEmpty` | app.py:56 | Stripping leaves nothing exactly when the input is all whitespace. |
| `TextClean.CollapseSpace` | app.py:56 | `re.sub(r"\s+", " ", t)`. Its contract is stated by `TextClean.CollapseKeepsSplit` and `TextClean.SqueezeKeepsSplit`: it leaves the tokens unchanged. |
| `TextClean.CollapseKeepsSplit` | app.py:56 | Replacing each whitespace run with one space leaves the `split()` tokens unchanged. |
| `TextClean.SqueezeKeepsSplit` | app.py:56-58 | Collapsing and then stripping leaves the `split()` tokens unchanged. |
| `TextClean.KeptAreTokens` | app.py:55-58 | Every word kept from a scrubbed text is a non-empty `[a-z0-9]` token. |
| `TextClean.SplitAccTokens` | app.py:58 | Splitting a text made of `[a-z0-9]` and whitespace yields only non-empty `[a-z0-9]` tokens. |
| `TextClean.SplitAcc` | app.py:58 | `str.split()` with the token being built as a parameter. Its contract is stated by `TextClean.SplitAccTokens` and `TextClean.CollapseKeepsSplit`. |
| `TextClean.Split` | app.py:58 | `str.split()`. `TextClean.SplitJoin` states that it undoes `" ".join` on tokens, and `TextClean.SqueezeKeepsSplit` that whitespace runs and the ends do not matter to it. |
| `TextClean.Join` | app.py:58 | `" ".join(ws)`. `TextClean.JoinNormalized` states that its result is normalised, and `TextClean.SplitJoin` that splitting gives back the tokens. |
| `TextClean.SplitJoin` | app.py:58 | Round trip: `" ".join(ws).split() == ws` for every list of tokens. |
| `TextClean.JoinNormalized` | app.py:58 | Joining tokens with single spaces gives a normalised text (alphabet, no double space, no space at either end). |
| `TextClean.DropStopWords` | app.py:57-58 | A word is kept exactly when it is in the input and is not a stop word, and the output is never longer than the input. |
| `TextClean.DropStopWordsAppend` | app.py:58 | Filtering preserves order: dropping stop words distributes over concatenation. |
| `TextClean.DropStopWordsNone` | app.py:57-58 | A list without stop words passes through unchanged. |
| `TextClean.CleanTextIdempotent` | app.py:52-58 | Normalising an already normalised text changes nothing. |
| `TextClean.JoinedTokensAreClean` | app.py:52-58 | Tokens that are not stop words, joined by single spaces, come out of `clean_text` unchanged. |
| `TextClean.NormalizedIsScrubbed` | app.py:54-55 | Lower-casing and scrubbing leave a normalised text unchanged. |
| `TextClean.CleanTextIgnoresCase` | app.py:54 | Lower-casing the input first does not change the result. |
| `CleanTextExamples.ContractionLosesWord` | app.py:54-58 | The tokens of `clean_text("Can't Login!")` are `["t", "login"]` with the stop words dropped, so "cant" never appears. |
| `CleanTextExamples.ApostropheTokens` | app.py:54-58 | `"Can't Login!"` lower-cased, scrubbed and split gives `["can", "t", "login"]`. |
| `CleanTextExamples.LeadingStopWordDropped` | app.py:57-58 | The stop word "can" at the head of `["can", "t", "login"]` is dropped. |
| `CleanTextExamples.CantIsNotKept` | app.py:57-58 | "cant" is not among the tokens kept from `["t", "login"]`. |
| `Triage.Truthy` | app.py:79-85 | Python truthiness of an optional string: present and not `""`. `Triage.Decide` and `History.LogRowResolves` state its effect on the decision list and on the `a or b` fallbacks. |
| `Triage.ResolveHint` | app.py:62 | A missing or empty hint gives `"General"`. Any other hint gives its stripped form, which is `""` exactly when the hint is all whitespace. |
| `Triage.BlankHintIsEmptyQueue` | app.py:62 | A non-empty whitespace-only hint gives the queue feature `""`, not `"General"`. |
| `Triage.DefaultHints` | app.py:62 | A missing hint, an empty hint and the hint `"General"` give the same result. |
| `Triage.GeneralHintResolves` | app.py:62 | The hint "General" resolves to "General". |
| `Triage.AutoApply` | app.py:76-77 | The auto value is present exactly when the confidence is at or above the threshold. When present it is the predicted class. |
| `Triage.ThresholdBoundary` | app.py:76-77 | At exactly the threshold the value auto-applies; below it, it does not. |
| `Triage.Decide` | app.py:79-88 | Each of the five actions is chosen exactly when its own condition holds: both / only queue / only priority / neither with type confidence >= 0.90 / neither with type confidence < 0.90. |
| `Triage.DecisionIsUniqueMatch` | app.py:79-88 | Exhaustive and exclusive: for every input exactly one action's condition holds, and it is the action chosen. |
| `Triage.ActionName` | app.py:80-88 | The name of each of the five actions. `History.ActionNameBeforeArrow` states that it is the part of the action text before the arrow. |
| `Triage.ActionHint` | app.py:80-88 | The explanation that follows the arrow in each of the five action texts. `Triage.ActionText` puts it after the name and the arrow. |
| `Triage.ActionText` | app.py:80-88 | The full `final_action` text: name, arrow, explanation. `History.ActionNameBeforeArrow` states that splitting it at the arrow gives the name. |
| `Triage.TicketText` | app.py:61 | `clean_text(subject + " " + body)`. Its result is stated by the `TextClean.CleanText` contract, and `Triage.PredictTicket` states that the cascade runs on it. |
| `Triage.RunStages` | app.py:61-74 | The three-stage cascade. `Triage.CascadeThreadsLabels` states each stage's feature record and output. |
| `Triage.PredictTicket` | app.py:60-96 | The result carries the three stage outputs of the cascade on `clean_text(subject + " " + body)`. Each auto value is present exactly when its confidence reaches its threshold, and equals the prediction. The action is the one whose condition holds on the result's auto values and type confidence. |
| `Triage.CascadeThreadsLabels` | app.py:61-74 | Type stage input: (text, resolved hint, "Medium"). Priority stage input: (text, resolved hint, type class). Queue stage input: (text, type class, priority class). |
| `Triage.QueueStageIgnoresHint` | app.py:72-74 | Two hints that lead to the same type and priority classes give the queue stage the same input and output. |
| `Triage.HintOnlyThroughResolvedQueue` | app.py:60-74 | Two hints with the same resolved queue name give the same result. |
| `Triage.LowerThresholdsAutomateMore` | app.py:76-88 | Lowering either threshold never removes an auto-applied value and never lowers the number of auto-applied fields. |
| `Triage.ScenarioFullyAuto` | app.py:60-96 | Confidences 0.95/0.82/0.90 with thresholds 0.80/0.85: both values auto-apply, FULLY AUTO-TRIAGED. |
| `Triage.ScenarioAutoPriority` | app.py:60-96 | Queue confidence 0.70: no auto queue, AUTO-PRIORITY. |
| `Triage.ScenarioAutoTypeOnly` | app.py:60-96 | Confidences 0.92/0.50/0.40: nothing auto-applies, AUTO-TYPE ONLY. |
| `Triage.ScenarioHumanReview` | app.py:60-96 | All confidences low: nothing auto-applies, HUMAN REVIEW SUGGESTED. |
| `History.Prefix` | app.py:104 | `s[:n]` is the prefix of `s` with length `min(len(s), n)`. |
| `History.ShortSubject` | app.py:116 | A subject of at most 45 characters is kept. A longer one becomes its first 45 characters followed by `"..."`. |
| `History.BeforeSep` | app.py:120 | `s.split(sep)[0]` is the prefix of `s` before the first occurrence of `sep`, or all of `s` when `sep` does not occur. |
| `History.BeforeArrow` | app.py:120 | Splitting `p + " → " + q` at the arrow gives `p` when `p` contains no arrow. |
| `History.ActionNameBeforeArrow` | app.py:120 | The history's `Action` for each final action is its name (for example `"FULLY AUTO-TRIAGED"`). |
| `History.Timestamp` | app.py:103 | `now.strftime("%Y-%m-%d %H:%M:%S")`: the clock reading's date, a space, then its time. `History.LogRowResolves` states that it is the log row's timestamp. |
| `History.Upper` | app.py:118 | `str.upper()`: the length is kept and each character is upper-cased on its own, for ASCII letters only (see "Left out"). `History.HistoryEntryShows` states where it is used. |
| `History.OrElse` | app.py:106-119 | Python's `a or b` on an optional string. `History.LogRowResolves` and `History.HistoryEntryShows` state the resolved values. |
| `History.NewRow` | app.py:102-110 | The log row. Its contract is stated by `History.LogRowResolves` and `History.LoggedValuesArePredictions`. |
| `History.NewEntry` | app.py:114-121 | The history entry. Its contract is stated by `History.HistoryEntryShows`. |
| `History.AdminClearRow` | app.py:127-135 | The row written by `admin_clear_all`: subject "ADMIN CLEAR", dashes, `auto_queue` false, and action "All data cleared by admin". `History.Session.AdminClearAll` writes it and then empties the log, so it never stays. |
| `History.LogRowResolves` | app.py:102-110 | The log row has: the timestamp from the clock reading; the subject unchanged when it has at most 100 characters, and its first 100 characters otherwise; priority and queue as the auto value or else the prediction; `auto_queue` true exactly when the auto queue is present and non-empty; the full action text. |
| `History.LoggedValuesArePredictions` | app.py:102-110 | For a `predict_ticket` result, the logged priority and queue are the predicted ones. `auto_queue` is true exactly when the queue confidence reached its threshold and the queue name is non-empty. |
| `History.HistoryEntryShows` | app.py:114-121 | The history entry has: the clock time; the shortened subject; the type; the upper-cased priority (auto value, else prediction, else a dash); the same queue as the log row; the action name. |
| `History.Session.constructor` | app.py:36-37 | A new session has an empty history; the log holds what was already stored. |
| `History.Session.SaveAndLog` | app.py:99-121 | Exactly one row is appended to the log and one entry to the history. Earlier rows and entries are unchanged. |
| `History.Session.AdminClearAll` | app.py:124-139 | Afterwards the log and the history are both empty. |

## Left out

- The Streamlit page: page config, tabs, text areas, buttons, metrics, balloons, sidebar sliders, footer and injected JavaScript (app.py:18, 143-248). These are presentation only. This also covers the button handler that refuses a blank subject or body and then calls `predict_ticket` and `save_and_log` (app.py:176-185).
- Downloading and deserialising the three models (app.py:21-33). These are foreign calls. The classifiers are the function-valued fields of `Models`.
- How a classifier computes its class and `predict_proba(...).max()`. Only the (class, confidence) pair is modelled, with the confidence as a `real`. Its range [0, 1] is not assumed anywhere.
- CSV file I/O: `safe_read_log`, `to_csv`, `os.makedirs`, and the file truncation in `admin_clear_all` (app.py:40-49, 111-112, 125-138). The log is modelled only as the sequence of rows the file holds.
- The clock `datetime.now(WAT)` and `strftime` (app.py:15, 100, 125). A clock reading is an `Instant` parameter with its date and time already formatted.
- The admin password check (app.py:209-215) and the floating-point auto-rate percentage (app.py:228). These are UI checks and float formatting.
- `TextClean.LowerChar` and `History.UpperChar`: Python's `str.lower()` and `str.upper()` are modelled on ASCII letters only. A character whose Python lower case is an ASCII letter or digit (for example KELVIN SIGN) is scrubbed to a space here. Python would keep it as a letter.
- `TextClean.CleanText`: `str(t)` on non-string inputs such as numbers is not modelled. The input is a string or missing (`None` covers both missing and NaN).
- Sharing the log between sessions. The prediction log is one CSV file (app.py:40) shared by every browser session, and `save_and_log` reads, appends and rewrites it without locking (app.py:101-112). In the model, `log` is a field of each `Session`. So sharing between sessions, and updates lost when two sessions save at once, are not captured.
- Python exceptions raised inside a classifier, which abort `predict_ticket`. The classifiers are total functions here.
