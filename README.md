# Credit-risk dashboard: cache, classification and attribution panels

This project models the client side of a loan-default scoring tool: the
Streamlit dashboard `dashboard.py`. The analyst types a client identifier
(`SK_ID_CURR`) and clicks Run. The dashboard asks the scoring API for the
client's default probability and SHAP attribution values, caches the reply
in the session, colours the probability against a fixed threshold, formats
the client's feature values and shows the ten features that lower the risk
most and the ten that raise it most.

Modules:

- `Wrappers` (`wrappers.dfy`): `Option`. `None` stands for Python's `None`, or for a computation that raised.
- `Formatting` (`formatting.dfy`): `format_value`. Feature values are a tagged type `Missing | Int | Float | Other`.
- `Risk` (`risk.dfy`): the threshold 44.5262, `compute_color` and the decision message.
- `Attribution` (`attribution.dfy`): flattening SHAP values that arrive as one-element lists, zipping rows, and the two top-10 panels. `IsTop` states what a correct panel is without fixing the order of ties. The filter/insertion-sort/take pipeline `Top` is proved to be one such panel.
- `View` (`view.dfy`): the reply payload, and `Render`, which chains everything the script computes from a reply (lines 79-119).
- `Session` (`session.dfy`): the session dictionary and the Run block.
  - `Step` states the Run block case by case. `Replay` runs a sequence of interactions.
  - `StateDict` models the mutable dictionary and `SessionState` models `st.session_state`. Their methods mirror the script statement by statement and are proved equal to `Step` and `Repair`.

Probabilities, SHAP values and numbers are `real`. The network call is a
parameter: `reply` is what `POST /predict` would return. The `fetched`
result says whether the script asks for it.

Three behaviours of the code that the model keeps as they are:

- A probability outside [0, 100] raises nothing. `compute_color` returns no colour, and the message is still chosen by the threshold alone.
- Ties among attribution values have no fixed order. The code sorts with pandas' default quicksort, which is not stable. So `IsTop` fixes no tie order, and `PanelValuesDetermined` proves that only tied rows can differ.
- Formatting a formatted value can change its tag: 6.999 formats to the float 7.0, which formats to the int 7. `FormatIdempotent` therefore compares values numerically, as Python's `==` does for numbers.

## Model

| member | source | states |
|---|---|---|
| `Formatting.Round2` | Veynachter_Quentin_3_Dossier_Code_112023/Artefacts/dashboard.py:38 | the result has at most two decimals and lies within 0.005 of the input |
| `Formatting.Round2Fixes` | Veynachter_Quentin_3_Dossier_Code_112023/Artefacts/dashboard.py:38 | a value that already has two decimals is returned unchanged |
| `Formatting.FormatValue` | Veynachter_Quentin_3_Dossier_Code_112023/Artefacts/dashboard.py:32-39 | missing values and non-numbers pass through unchanged; a number stays a number on the 0.01 grid within 0.005 of the input; the result is an int exactly when the input is integral, and then has the same value |
| `Formatting.FormatIdempotent` | Veynachter_Quentin_3_Dossier_Code_112023/Artefacts/dashboard.py:32-39 | formatting a formatted value gives the same value: numbers are equal as numbers (an int equals the float of the same value), and other cells are identical |
| `Formatting.FormatSevenPointZero` | Veynachter_Quentin_5_Script_Test_API_112023.py:71 | 7.0 formats to the int 7 |
| `Formatting.FormatOnePointEightyTwo` | Veynachter_Quentin_5_Script_Test_API_112023.py:70 | 1.82 formats to 1.82 |
| `Risk.ComputeColor` | Veynachter_Quentin_3_Dossier_Code_112023/Artefacts/dashboard.py:42-46 | green iff 0 <= p < threshold, red iff threshold <= p <= 100, no colour iff p is outside [0, 100] |
| `Risk.DecisionMessage` | Veynachter_Quentin_3_Dossier_Code_112023/Artefacts/dashboard.py:111 | "Risque faible" iff p < threshold, "Risque potentiel" iff p >= threshold |
| `Risk.MessageAgreesWithColor` | Veynachter_Quentin_3_Dossier_Code_112023/Artefacts/dashboard.py:94-112 | on [0, 100] the low-risk message coincides with green and the potential-risk message with red |
| `Risk.ColorMonotone` | Veynachter_Quentin_3_Dossier_Code_112023/Artefacts/dashboard.py:42-46 | on [0, 100] the bands are monotone: red stays red upwards, green stays green downwards |
| `Risk.ColorExamples` | Veynachter_Quentin_5_Script_Test_API_112023.py:64-65 | 30 is green, 70 is red, the threshold itself is red and 44.5261 is green |
| `Attribution.Flatten` | Veynachter_Quentin_3_Dossier_Code_112023/Artefacts/dashboard.py:83 | succeeds iff no entry is an empty list; then it has the input's length and holds each entry's first item (lists) or the entry itself (scalars) |
| `Attribution.AssembleRows` | Veynachter_Quentin_3_Dossier_Code_112023/Artefacts/dashboard.py:88-91 | as many rows as the shortest input; row i is (name i, SHAP i, formatted value i) |
| `Attribution.Candidates` | Veynachter_Quentin_3_Dossier_Code_112023/Artefacts/dashboard.py:118-119 | keeps exactly the rows on the panel's side of zero, each with its multiplicity in the table |
| `Attribution.SortByRank` | Veynachter_Quentin_3_Dossier_Code_112023/Artefacts/dashboard.py:118-119 | the result is sorted by the panel's key and is a permutation of the input |
| `Attribution.SortedPrefixIsTop` | Veynachter_Quentin_3_Dossier_Code_112023/Artefacts/dashboard.py:118-119 | the first min(k, n) elements of a sorted sequence are a correct panel drawn from its elements |
| `Attribution.Top` | Veynachter_Quentin_3_Dossier_Code_112023/Artefacts/dashboard.py:118-119 | filter, sort and `head(k)` give exactly min(k, #candidates) candidate rows, most extreme first, with no omitted candidate more extreme than a shown one |
| `Attribution.TopRowsKeep` | Veynachter_Quentin_3_Dossier_Code_112023/Artefacts/dashboard.py:118-119 | every row in any correct panel comes from the table and is on that panel's side of zero |
| `Attribution.PanelsDisjoint` | Veynachter_Quentin_3_Dossier_Code_112023/Artefacts/dashboard.py:118-119 | the decrease panel holds only negative values and the increase panel only positive ones; so zero rows are in neither, the panels share no row, and each holds at most k rows |
| `Attribution.PanelValuesDetermined` | Veynachter_Quentin_3_Dossier_Code_112023/Artefacts/dashboard.py:118-119 | any two correct panels for the same table have the same length and the same SHAP value at every position; only which of several tied rows is shown, and in what order, is left open |
| `Attribution.PanelPositionBound` | Veynachter_Quentin_3_Dossier_Code_112023/Artefacts/dashboard.py:118-119 | no position of one correct panel is more extreme than the same position of another panel drawn from the same candidates |
| `Attribution.FewMoreExtreme` | Veynachter_Quentin_3_Dossier_Code_112023/Artefacts/dashboard.py:118-119 | in a sequence sorted by a panel's key, at most i rows are strictly more extreme than the row at position i |
| `Attribution.PanelOrder` | Veynachter_Quentin_3_Dossier_Code_112023/Artefacts/dashboard.py:118-119 | the decrease panel is ascending in SHAP value, the increase panel descending |
| `View.Render` | Veynachter_Quentin_3_Dossier_Code_112023/Artefacts/dashboard.py:79-119 | fails iff some SHAP entry is an empty list; otherwise it gives index-aligned rows, two correct top-10 panels, the colour `ComputeColor` and the message `DecisionMessage` of the probability, and these agree on [0, 100] |
| `Session.Repair` | Veynachter_Quentin_3_Dossier_Code_112023/Artefacts/dashboard.py:26-27 | adds 'last_sk_id_curr' as None when missing, leaves `data_received` and `data` untouched, and changes nothing when the key is present |
| `Session.Step` | Veynachter_Quentin_3_Dossier_Code_112023/Artefacts/dashboard.py:59-77 | a request is sent iff the block runs and no result is cached for this id; after a request the id is recorded and `data_received` is set iff the status is 200; a 200 reply is stored as `data` and the page is drawn from it; a failed request keeps the old `data` and stops; without a request nothing changes, and the page is drawn from the cached result (with the "already received" notice) when the block runs, or skipped when it does not; whenever the page is drawn, its data is cached for this id |
| `Session.Replay` | Veynachter_Quentin_3_Dossier_Code_112023/Artefacts/dashboard.py:59-77 | a sequence of reruns keeps the dictionary consistent and sends at most one request per rerun |
| `Session.CachedIsQuiet` | Veynachter_Quentin_3_Dossier_Code_112023/Artefacts/dashboard.py:61-70 | once an id is cached, resubmitting it any number of times sends no request and leaves the state unchanged |
| `Session.SameIdFetchesAtMostOnce` | Veynachter_Quentin_3_Dossier_Code_112023/Artefacts/dashboard.py:59-77 | submitting one id repeatedly, with a working API, sends at most one request |
| `Session.NewIdFetchesExactlyOnce` | Veynachter_Quentin_3_Dossier_Code_112023/Artefacts/dashboard.py:65-77 | an id with nothing cached for it (a different id after a received result, or the first click of the session) sends exactly one request with a working API; that reply stays cached over later resubmissions |
| `Session.FailureAllowsRetry` | Veynachter_Quentin_3_Dossier_Code_112023/Artefacts/dashboard.py:72-74 | after a non-200 reply nothing is cached for the id, so the next click on Run asks again |
| `Session.StateDict.constructor` | Veynachter_Quentin_3_Dossier_Code_112023/Artefacts/dashboard.py:23-25 | the new dictionary is `{data_received: False, data: None, last_sk_id_curr: None}` |
| `Session.StateDict.Run` | Veynachter_Quentin_3_Dossier_Code_112023/Artefacts/dashboard.py:59-77 | updating the dictionary in place, statement by statement, gives exactly the state, request and outcome of `Step` |
| `Session.SessionState.GetState` | Veynachter_Quentin_3_Dossier_Code_112023/Artefacts/dashboard.py:21-29 | creates the initial dictionary when none is stored, otherwise repairs and returns the same stored object; the result is what is stored |
| `Session.SessionState.Rerun` | Veynachter_Quentin_3_Dossier_Code_112023/Artefacts/dashboard.py:48-119 | one rerun is `get_state` followed by `Step` on the same stored object, and the drawn page is `Render` of the cached reply |

## Left out

- `Formatting.Round2`: rounds ties upward on exact reals. Python's `round(val, 2)` rounds the binary double, half to even. Only the two-decimal grid and the 0.005 bound are stated.
- `Formatting.FormatIdempotent`: a missing cell counts as equal to itself. That is true of `None`, but for NaN Python's `==` is False.
- `Formatting.FormatValue`: infinite floats are not modelled (Python's `int(inf)` raises `OverflowError`). NaN is folded into `Missing`. Booleans, which Python treats as ints, are not modelled.
- `Attribution.Flatten`: a nested entry is a list of reals. A list whose first item is itself a list is not modelled.
- `Attribution.SortByRank`: pandas sorts with an unstable quicksort. The insertion sort is one witness of `IsTop`. `IsTop` and the lemmas about it fix no order among equal values. `PanelValuesDetermined` shows that ties are the only freedom.
- `Session.StateDict.Run`: the dictionary must already hold 'last_sk_id_curr', and `data_received` must only be true together with `data`. `get_state` (line 48) adds the missing key before the block runs. The second condition holds because the initial dictionary has `data_received` False and line 76 writes `data` before line 77 sets the flag; `Step` and `Replay` keep it. The `KeyError`/`TypeError` a hand-built dictionary would raise is not modelled.
- `Session.Step`: the identifier is kept as the typed text. The `int(sk_id_curr)` conversion is folded into the reply, so the `ValueError` on non-numeric text is not modelled.
- The network request (line 71) is not modelled: the reply is a parameter. Error text, timeouts and connection failures are not modelled beyond a non-200 status.
- The text-input callback (line 51) adds an unused 'run' key to the dictionary. Nothing reads that key, so it is not modelled.
- Loading the parquet file (lines 13-14), page configuration, markdown, the HTML gauge (lines 97-105) and all matplotlib drawing (lines 122-163) are presentation through libraries and are not modelled. The `st.success` and `st.error` notices appear only as the outcome's `alreadyReceived` flag and the `Stopped` status.
- The scoring API (`api.py`) is not part of this model: the scaler, classifier and SHAP explainer it calls are opaque. The process launcher (`app.py`) is not part of this model either.
- The HTTP payload is not validated. The dashboard reads the four fields directly, and the zip silently truncates arrays of unequal length; `AssembleRows` models that truncation.
- Out-of-range probabilities give no colour, as in the code; nothing raises.
