# Disease prediction endpoint — Dafny model

This project models the `/predict` handler of the disease-prediction Flask service
(`test_flask_predict.py`). The handler works in three steps:

- It takes a JSON list of symptom names and encodes it as a 218-slot 0/1 feature
  vector. A name's slot is its position in the 128-entry symptom table. A name missing
  from the table is reported as a warning.
- It asks the classifier for one probability per disease. It then returns the five most
  probable diseases as `{disease, probability}` pairs, most probable first.
- Any exception (for example a list index out of range) becomes an HTTP 500 response
  whose message is prefixed with "An error occurred while predicting the disease: ".

Modules:

- `Wrappers`: `Option`, and `Result`. A `Result` is a value or the text of a raised exception.
- `Tables`: the disease list (41 names) and the symptom list (128 names). It proves both
  lists free of duplicates, so `list.index` finds the only position of a name. The
  symptom list is written as eight blocks of sixteen names. Their concatenation is the
  source's list in the source's order.
- `Encoder`:
  - `Encoding` is a declarative definition of the feature vector.
  - `EncodeSymptoms` is the handler's loop. It sets array slots in place and is proved to
    produce `Encoding` and the list of unknown names.
- `Ranking`: the numpy part.
  - `IsArgsort` says what `np.argsort` returns: a permutation of the class numbers that
    sorts the probabilities ascending. The tie order is left open.
  - `SortAscending` is `np.sort`.
  - `LastAtMost` and `Reversed` are the slices `[-5:]` and `[::-1]`.
  - Lemmas relate the top-five indices to the top-five values: they agree entry by
    entry, are non-increasing, are distinct, and no unreported class beats the fifth.
- `Endpoint`: the response types, the error response, the name lookup, the response loop,
  `Rank` (the specification of the ranking part), `Answer`, and the handler `Predict`.
  - The classifier is a parameter `classify` that returns the probability row or raises.
  - `np.argsort` is a parameter `argsort`. It may be any function satisfying `IsArgsort`.
    `Ranking.StableArgsort` shows that such a function exists.

The code allocates 218 slots for 128 symptom names, so slots 128–217 are always 0
(`Encoder.EncodingMarksListedSymptoms`).

## Model

| member | source | states |
|---|---|---|
| Tables.DiseasesDistinct | test_flask_predict.py:8-17 | the disease table has 41 names, no two alike, so class number k names exactly one disease |
| Tables.SymptomsDistinct | test_flask_predict.py:20-43 | the symptom table has 128 names, no two alike, so each known symptom owns exactly one feature slot |
| Encoder.IndexOf | test_flask_predict.py:67-68 | `name in symptoms` fails exactly when the lookup finds nothing; otherwise `symptoms.index` returns a position holding the name with no earlier occurrence |
| Encoder.Encoding | test_flask_predict.py:63-69 | the feature vector always has 218 entries and each entry is 0 or 1 |
| Encoder.UnknownNames | test_flask_predict.py:70-71 | the warned-about names are exactly the submitted names that are not in the symptom table, each as many times as it was submitted, and there are no more of them than names submitted |
| Encoder.EncodingAppend | test_flask_predict.py:66-71 | one more submitted name leaves the vector unchanged if it is unknown, and otherwise sets exactly its own slot (below 218) to 1 |
| Encoder.EncodingMarksListedSymptoms | test_flask_predict.py:62-69 | slot i is 1 exactly when i < 128 and the i-th listed symptom was submitted; slots 128–217 are 0 |
| Encoder.EncodingDeterminedByKnownNames | test_flask_predict.py:66-71 | the vector depends only on which known symptoms were submitted: order, repetition and unknown names do not change it |
| Encoder.ItchingAndSkinRash | test_model.py:31-34 | submitting "itching" and "skin_rash" gives the smoke-test vector: slots 0 and 1 set, all others 0 |
| Encoder.EncodeSymptoms | test_flask_predict.py:62-71 | the in-place loop over a zeroed 218-slot array yields exactly `Encoding(names)` and reports exactly `UnknownNames(names)` |
| Ranking.StableArgsort | test_flask_predict.py:79 | ranking the first n classes yields a permutation of 0..n-1 that sorts the probabilities ascending and keeps tied classes in class-number order, as a stable argsort does |
| Ranking.ArgsortExists | test_flask_predict.py:79 | every probability row has an argsort result, so the handler's precondition on `argsort` can be met |
| Ranking.SortAscending | test_flask_predict.py:80 | `np.sort` returns a non-decreasing permutation (as a multiset) of the row |
| Ranking.LastAtMost | test_flask_predict.py:79-80 | for k > 0, the slice `[-k:]` holds the last min(k, length) entries, in order (the source uses k = 5) |
| Ranking.ArgsortAgreesWithSort | test_flask_predict.py:79-80 | reading the row through any argsort result gives exactly the sorted row, whatever the tie order |
| Ranking.ArgsortIsBijection | test_flask_predict.py:79 | an argsort result lists every class number exactly once |
| Ranking.TopValuesMatchIndices | test_flask_predict.py:79-80 | `top5_idx` and `top5_proba` both have min(5, classes) entries, and `top5_proba[i]` is the probability of class `top5_idx[i]` |
| Ranking.TopValuesDescending | test_flask_predict.py:80 | `top5_proba` is non-increasing, most probable first |
| Ranking.TopIndicesDistinct | test_flask_predict.py:79 | `top5_idx` holds valid, pairwise distinct class numbers |
| Ranking.TopIndicesComplete | test_flask_predict.py:79 | with fewer than five classes every class is reported; otherwise no unreported class has a higher probability than the fifth reported one |
| Endpoint.DiseaseNames | test_flask_predict.py:83 | the name lookup succeeds exactly when every index is below 41, and then gives the disease name at each index |
| Endpoint.BuildResponse | test_flask_predict.py:85-95 | the five-step loop succeeds exactly when there are at least five names, and then yields the first five (name, probability) pairs in order |
| Endpoint.RankSucceedsIff | test_flask_predict.py:78-104 | the ranking part answers with a list exactly when there are at least five classes and all five reported indices name a disease; otherwise it answers 500 with "list index out of range" |
| Endpoint.RankedShape | test_flask_predict.py:83-95 | a successful answer has five entries, and entry i pairs the name of top-five index i with top-five value i |
| Endpoint.RankedEntries | test_flask_predict.py:78-95 | a successful answer has five entries, each naming the disease of its class with that class's probability, with five distinct classes and five distinct disease names |
| Endpoint.RankedOrderedAndComplete | test_flask_predict.py:78-95 | a successful answer is ordered most probable first, and every disease left out has a probability no higher than the fifth listed |
| Endpoint.AnswerErrorPath | test_flask_predict.py:100-104 | a classifier exception becomes status 500 with the fixed prefix followed by the exception text; with a probability row, the answer fails exactly when fewer than five classes come back or a chosen class has no disease name, and then it is status 500 with the prefix and "list index out of range"; a successful answer always has all five entries, never a partial list |
| Endpoint.RankRow | test_flask_predict.py:78-99 | from the probability row on, the handler's steps (top five, name lookup, response loop, IndexError to 500) produce exactly `Rank(p, order)`, whose meaning the lemmas above state |
| Endpoint.Predict | test_flask_predict.py:56-104 | the handler reports exactly the unknown names and answers exactly `Answer(classify(Encoding(names)))`: a classifier exception becomes the 500 response with its text, and otherwise the result of ranking the probability row |

## Left out

- Flask: the routing, `request.get_json`, `jsonify` and the status 200 of a successful
  answer are not modelled. The request body is modelled as a list of strings. A body that
  is not a JSON list, or a list whose entries are not strings, is not modelled.
- Model loading with `pickle` is not modelled. The ExtraTrees classifier is the
  parameter `classify`, which returns either a probability row or the text of an exception.
- Probability column k is assumed to be disease k of the table, as it is when the
  classifier's classes are 0..40 in order. Column order is decided by the classifier.
- Probabilities are mathematical reals rather than 64-bit floats. `float(probability)`
  is the identity here, and NaN is not modelled.
- `print` calls and `traceback.print_exc` are not modelled. The per-name warning is
  modelled as the returned `unknown` list.
- `np.argsort` uses an unspecified sorting algorithm, so its order among equal
  probabilities is not fixed. The model takes `argsort` as a parameter and requires only
  `IsArgsort`.
- Endpoint.BuildResponse requires the name list and the probability list to have the same
  length. The handler always passes two lists of min(5, classes) entries, so the
  numpy out-of-bounds message for `top5_proba[i]` cannot arise first.
- Exceptions other than those of the classifier and the two list lookups (inside Flask,
  or memory errors) are not modelled.
- The `home` route and the `__main__` block of `test_flask_predict.py` are not
  modelled.
- `training/train_model.py` (random training data and fitting) is not part of this
  model.
- Of `test_model.py`, only the smoke-test feature vector is modelled
  (`Encoder.ItchingAndSkinRash`). Its model search and printing are not.
