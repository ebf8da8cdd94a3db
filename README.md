# Round-4 bootstrap configuration generator and preprocess metadata, in Dafny

This project models two parts of the iepy repository.

The first is the generator `iter_configs` in `experimentation/loop/config_round4.py`.
It builds the space of bootstrap experiment configurations. For every classifier
preset, in list order, it plugs the preset into the base configuration and expands
the base against a patch. It then runs each raw candidate through three rules, in
this order:

- the ordering filter skips a candidate whose fact distance is below its evidence
  distance;
- the threshold derivation replaces both distances by thresholds measured down
  from the maximum score;
- the SVM rewrite turns `predict_proba` into `decision_function` for SVMs, switches
  off `probability`, and switches off `sparse` input for an `rbf` kernel.

The candidate is yielded if it survives. Configurations are Python values
(`Values.Value`: None, booleans, numbers, strings, lists, dicts with string keys),
and a candidate is a `map<string, Value>`. Each rule is a pure function
(`CandidateRules`). `Transform` composes them, and its outcome is `Dropped`,
`Kept(config)` or `Failed(error)`, for the `KeyError` or `TypeError` Python raises.
`ConfigRound4.IterConfigs` is the generator's nested loop, written as a method. It
is proved equal to the specification function `Process`, applied to the raw
candidates of all presets in order. The lemmas beside `Process` and `Collect` (the same stream, over the per-candidate outcomes) state that the
stream keeps input order, yields at most one output per raw candidate, stops at
the first exception, and is grouped by preset.

The second part is the preprocessing metadata contract stated by
`tests/test_db_preprocess_administration.py`. It has four steps in a fixed order.
A `Document` class keeps its results in a `map<Step, P>` field, where `P` is an
opaque payload type. A `DocumentManager` class holds the saved documents and
offers two filters: raw documents (empty text) and documents lacking a step.
Three client methods replay the test scenarios against these contracts.

## Model

| member | source | states |
|---|---|---|
| `Values.MaxNum` | experimentation/loop/config_round4.py:162 | `max` of a non-empty list of numbers is one of its elements and is at least every element |
| `CandidateRules.MaxScore` | experimentation/loop/config_round4.py:160-162 | the maximum score is 1.0 when `scale_to_range` is falsy (None or empty) and the largest bound of the list otherwise; it fails exactly when `prediction_config` or `scale_to_range` cannot be read, or `scale_to_range` is truthy but not a list of numbers |
| `CandidateRules.DroppedIffFactDistanceBelowEvidence` | experimentation/loop/config_round4.py:154-158 | a candidate is dropped if and only if both distances are numbers and the fact distance is strictly below the evidence distance |
| `CandidateRules.MissingDistanceRaises` | experimentation/loop/config_round4.py:154 | a candidate missing a distance raises `KeyError` naming the fact distance if that one is missing, else the evidence distance |
| `CandidateRules.DeriveThresholds` | experimentation/loop/config_round4.py:163-164 | both distances are removed and both thresholds added, each the maximum score less its distance; every other key keeps its value; the thresholds are in order when the distances were |
| `CandidateRules.SvmRewrite` | experimentation/loop/config_round4.py:165-173 | the SVM rewrite keeps the key set and changes no key but `classifier_config` and `prediction_config`; it changes nothing when the svm/`predict_proba` guard is false; under the guard it raises exactly when `classifier_args` is missing or not a dict |
| `CandidateRules.Transform` | experimentation/loop/config_round4.py:152-174 | a kept candidate passed the ordering filter and has both thresholds, in order, and no distances (its behaviour in full is stated by the lemmas `DroppedIffFactDistanceBelowEvidence`, `MissingDistanceRaises`, `KeptThresholds`, `KeptKeys` and `SvmPredictProbaRewritten`) |
| `CandidateRules.KeptThresholds` | experimentation/loop/config_round4.py:154-164 | a kept candidate passed the filter; it has neither distance key, and it has `fact_threshold = max_score - fact distance` and `evidence_threshold = max_score - evidence distance`, so `fact_threshold <= evidence_threshold` |
| `CandidateRules.KeptKeys` | experimentation/loop/config_round4.py:160-174 | a kept candidate's keys are the raw keys less both distances plus both thresholds; every other key keeps its value, except `classifier_config` and `prediction_config`, which keep theirs too when the guard is false |
| `CandidateRules.SvmPredictProbaRewritten` | experimentation/loop/config_round4.py:165-173 | under the guard, the method becomes `decision_function`, `classifier_args` gains `probability = False`, and `sparse` is set to False exactly when the kernel (missing counts as '') is `rbf`; otherwise, and for every other key of both sub-configs, nothing changes |
| `ConfigRound4.Collect` | experimentation/loop/config_round4.py:151-174 | the stream over a sequence of per-candidate outcomes yields no more candidates than there are outcomes |
| `ConfigRound4.Process` | experimentation/loop/config_round4.py:151-174 | the inner loop over a sequence of raw candidates yields at most one output per raw candidate; `Collect` over the per-candidate outcomes, with its lemmas, fixes the rest |
| `ConfigRound4.CollectAppend` | experimentation/loop/config_round4.py:151-174 | streaming two outcome sequences back to back gives the first stream if it raised, else the first stream's output followed by the second's |
| `ConfigRound4.CollectOrigins` | experimentation/loop/config_round4.py:151-174 | every yielded candidate is the kept result of its own raw candidate; the origins strictly increase (input order, at most one output each); without an exception every kept raw candidate is yielded |
| `ConfigRound4.CollectFailsIffSomeFails` | experimentation/loop/config_round4.py:151-174 | the stream ends in an exception if and only if some raw candidate raises |
| `ConfigRound4.CollectStopsAtFirstFailure` | experimentation/loop/config_round4.py:151-174 | a failed stream carries the exception of the first raising candidate and has yielded exactly what the candidates before it yield |
| `ConfigRound4.ProcessAppend` | experimentation/loop/config_round4.py:151-174 | the same for raw candidates: running two raw sequences back to back is the first run if it raised, else the first run's output followed by the second's |
| `ConfigRound4.YieldedCandidatesHaveThresholds` | experimentation/loop/config_round4.py:154-164 | every yielded candidate has both thresholds and no distances, with `fact_threshold <= evidence_threshold`; no yielded candidate comes from a raw one whose fact distance is below its evidence distance |
| `ConfigRound4.WithPreset` | experimentation/loop/config_round4.py:150 | plugging a preset into the base sets `classifier_config` to the preset and changes no other key |
| `ConfigRound4.RawCandidates` | experimentation/loop/config_round4.py:149-151 | every raw candidate comes from the expansion of the base with one of the presets in its slot |
| `ConfigRound4.RawCandidatesNext` | experimentation/loop/config_round4.py:149-151 | the raw candidates of the first `i + 1` presets are those of the first `i` followed by the expansion of the base with preset `i` in its slot |
| `ConfigRound4.RawCandidatesSplit` | experimentation/loop/config_round4.py:149-151 | the raw candidates of a preset list are those of its first `i` presets followed by those of the rest |
| `ConfigRound4.GroupedByPreset` | experimentation/loop/config_round4.py:149-174 | the output is grouped by preset in list order: if the first `i` presets raise nothing, the output is theirs followed by that of the remaining presets |
| `ConfigRound4.FailureEndsIteration` | experimentation/loop/config_round4.py:149-174 | an exception raised under one preset ends the iteration: the later presets yield nothing |
| `ConfigRound4.FailureEndsPreset` | experimentation/loop/config_round4.py:151-174 | an exception raised by one raw candidate ends the inner loop: the later candidates of the same preset yield nothing |
| `ConfigRound4.ProcessPreset` | experimentation/loop/config_round4.py:151-174 | the inner loop over one preset's raw candidates continues the stream of the earlier presets exactly as `Process` over their concatenation, stopping at the first exception |
| `ConfigRound4.IterConfigs` | experimentation/loop/config_round4.py:149-174 | the nested loop yields exactly `Process` of all presets' raw candidates in order, and returns the exception, raised by the candidate rules, that stops it |
| `ConfigRound4.Base` | experimentation/loop/config_round4.py:93-124 | the base carries both distances, equal so that the filter lets them through, no thresholds, and an empty classifier slot |
| `ConfigRound4.BaseAloneRaises` | experimentation/loop/config_round4.py:93-124 | the base with its empty classifier slot is no candidate: reading `classifier` from it raises `KeyError` |
| `ConfigRound4.BaseWithPresetKept` | experimentation/loop/config_round4.py:93-124 | the base with any preset in its slot is kept unchanged except for the thresholds, both 0.9 - 0.01 = 0.89 |
| `ConfigRound4.PatchedDistancesFiltered` | experimentation/loop/config_round4.py:143-158 | of the six distance pairs the patch offers, the filter drops exactly (0.01, 0.05), (0.01, 0.1) and (0.05, 0.1) |
| `Preprocess.Ordinal` | tests/test_db_preprocess_administration.py:10-13 | each step has a position in the enumeration that lists it |
| `Preprocess.StepsEnumeration` | tests/test_db_preprocess_administration.py:10-13 | the enumeration holds every step exactly once, named tokenization, segmentation, tagging, nerc in that order |
| `Preprocess.Document.constructor` | tests/test_db_preprocess_administration.py:15-23 | a just-created document has no step done and no result for any step |
| `Preprocess.Document.WasPreprocessDone` | tests/test_db_preprocess_administration.py:15-18 | a step is reported done if and only if the document holds a result for it |
| `Preprocess.Document.GetPreprocessResult` | tests/test_db_preprocess_administration.py:20-31 | the result of a step is the payload stored for it, and nothing when none is stored |
| `Preprocess.Document.SetPreprocessResult` | tests/test_db_preprocess_administration.py:25-47 | after setting a step's result the step is done and the result reads back as the payload; no other step and not the text change |
| `Preprocess.DocumentManager.constructor` | tests/test_db_preprocess_administration.py:50 | a fresh manager has no saved documents |
| `Preprocess.DocumentManager.Save` | tests/test_db_preprocess_administration.py:53-54 | saving adds a document to the saved ones, once |
| `Preprocess.DocumentManager.GetRawDocuments` | tests/test_db_preprocess_administration.py:52-57 | a document is returned if and only if it is saved and its text is empty |
| `Preprocess.DocumentManager.GetDocumentsLackingPreprocess` | tests/test_db_preprocess_administration.py:59-68 | a document is returned if and only if it is saved and the step was not done for it, whatever its text |
| `Preprocess.SetResultCanBeRetrieved` | tests/test_db_preprocess_administration.py:25-47 | for any step, a new document reports the step not done; after setting the result it reports it done and returns that payload |
| `Preprocess.RawDocumentsAreFiltered` | tests/test_db_preprocess_administration.py:52-57 | of a saved empty document and a saved non-empty one, the empty one is raw and the other is not |
| `Preprocess.UntokenizedDocumentsAreFiltered` | tests/test_db_preprocess_administration.py:59-68 | the empty and the untokenized documents lack tokenization and the tokenized one does not; the empty one is raw and the untokenized non-empty one is not, so the two filters are independent |

## Notes on the code

- `MaxScore` tests the truthiness of `scale_to_range`, as line 161 does, so an
  empty list, `None` or 0 all give 1.0.
- `IterConfigs` overwrites `classifier_config` in its copy of the base for every
  preset, as line 150 does.

## Left out

- Reading the gold-standard file, `os.path.abspath` and the MD5 digest (lines 91-92, 97-99): the absolute path and the hex digest are string parameters of `Base`.
- The command line, logging and the JSON output (lines 177-190): I/O.
- `apply_dict_combinations` and `check_configs` live in `utils`, which is not part of this model. The expansion is the function parameter `expand` of `IterConfigs`, and nothing is assumed about the candidates it returns. The budget and duplicate check is not modelled.
- The patch lists for `prediction_config` and `seed_facts` (lines 126-138, 141-146): they only feed the expansion. The distance alternatives (lines 143-144) are modelled.
- The feature list and the classifier presets (lines 24-87): opaque data, given as the `presets` parameter.
- Aliasing: the source changes the nested `classifier_args`, `prediction_config` and `classifier_config` dicts in place (lines 169-173), and those may be shared with the presets, depending on how `utils` copies. The model works on values, so it neither shows nor rules out such a leak.
- `ConfigRound4.IterConfigs`: the expansion `expand` is a total function, so the model assumes `apply_dict_combinations` finishes without raising. An exception raised part-way through the expansion, which would end `iter_configs` after part of its output, is not modelled; the exceptions the model reports, and `ConfigRound4.CollectFailsIffSomeFails`, are those of the three candidate rules only.
- Floating point: distances, thresholds and bounds are reals, with no IEEE rounding.
- `CandidateRules.Transform`: a distance that is not a number (a bool included) makes the model raise `TypeError` at line 154. Python 3 would compare two strings or two lists there and skip the candidate when the fact distance is the smaller, and would treat a bool as 0 or 1 and go on with the candidate; Python 2's cross-type ordering is not modelled either. The same holds for bools among the `scale_to_range` bounds at line 162. Ints and floats share one number type.
- The moment of an exception: the source may have half-changed a candidate when it raises. The model reports only the exception, since the candidate is never yielded.
- Persistence: `.save()`, the database, factories and the test fixture (test lines 4-5, 50-68). The manager keeps the saved documents in memory, so a result set on a saved document is visible at once.
- `set_preprocess_result` returns the document for chaining (test line 64); `Preprocess.Document.SetPreprocessResult` returns nothing.
- The manager's queries: the tests assert membership only, so the model states membership and not the order of the returned documents.
