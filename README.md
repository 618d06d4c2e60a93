# drug_run: one epoch of the drug-pair training loop

This project models the discrete bookkeeping around the training loop in
`tasks/drug_run.py` and proves properties of that model. The network, the
optimiser and the floating-point metrics are abstracted away.

- `Drugs` (drugs.dfy) declares the drug id type that the classifier and the
  dictionary share.
- `Subgroups` (subgroups.dfy) models the KK/KU/UU classifier of a batch of drug
  pairs. The pairs are `zip(d1, d2)`, so only the first min(|d1|, |d2|)
  positions are paired. Each subgroup is the ascending list of positions whose
  pair passes its test, as `np.argwhere(...).flatten()` gives it. The length
  assertion that follows is `CountsMatch`.
- `Thresholds` (thresholds.dfy) models the `float(x > cut)` thresholding, the
  fancy indexing `xs[idx]` and the exact-match count `sum(t == p)`.
- `KeyRegistry` (key_registry.dfy) models `register_key`. `RegisterAll` is its
  specification and the class `KeyToVec` holds the dictionary. Its method
  `RegisterKey` runs the source's loop in place.
- `Elapsed` (elapsed.dfy) models the hours/minutes/seconds split of the
  elapsed seconds printed on a progress line.
- `DrugRun` (drug_run.dfy) models one epoch of `run_drug`. A `Batch` carries
  what the loader yields and what the model returns for it (outputs, both
  embedding lists, the loss). The loop keeps its locals in an `Accum`: the
  all/KK/KU/UU target and prediction lists, the five `total_metrics` lists,
  `total_step`, and the steps that write a progress line.
  - `StepBatch` and `RunPrefix` specify the dictionary and the stop status.
  - `Advance` and `AccPrefix` specify the locals.
  - `EpochOutcome` specifies the return value.
  - The method `RunDrug` runs the loop through `ProcessBatch`, `UpdateLocals`,
    `CollectBatch` and `RecordBatch`, which follow the source statement by
    statement, and is proved to agree with those functions.
- `RunProperties` (run_properties.dfy) proves what an epoch guarantees, against
  reference definitions (`Targets`, `Outputs`, `GroupPairs`, `NonEmpty`,
  `BinaryTotals`, `ReportedSteps`, `Ids`).

Correlations and accuracies are kept symbolic. A `Score` records which two
lists `np.corrcoef` is applied to (`Pearson`), or which match count and
length an accuracy divides, and whether the `1e-16` guard is added
(`Accuracy`).

Behaviour of `tasks/drug_run.py` worth noting:
- Targets are thresholded (`float(s > 0)`, line 66) in both modes, so in
  regression mode the correlations are taken against 0/1 targets.
- The epoch returns the overall score: the last `corref` in regression mode,
  the mean of `total_metrics[1]` in binary mode.
- With disjoint id sets, the length assertion after the classifier holds
  exactly when every pair passes exactly one test. A pair of one unknown id
  and one id that is in neither set passes the KU test. With overlapping
  sets the assertion can pass while one pair is in two lists and another in
  none (`OverlapPassesAssertion`).
- An empty batch in binary mode raises at line 114 (`0 / 0`).
- A batch that raises ends the epoch. The dictionary keeps what was
  registered before the error, and progress lines written for earlier
  batches stay written (`RunDrug` returns their steps).

## Model

| member | source | states |
|---|---|---|
| Subgroups.Classify | tasks/drug_run.py:49-54 | the KK, KU and UU index lists of a batch, built in one pass over the zipped pairs |
| Subgroups.CountsMatch | tasks/drug_run.py:55 | the length assertion: the three list lengths add up to `len(d1)` |
| Subgroups.Tests | tasks/drug_run.py:49-54 | the three membership conditions: KK both ids known, KU exactly one id unknown, UU both ids unknown |
| Subgroups.Indices | tasks/drug_run.py:49-54 | one of `kk_idx`, `ku_idx`, `uu_idx`: the ascending positions whose pair passes that subgroup's test |
| Subgroups.Mask | tasks/drug_run.py:49-54 | the flag list has one flag per zipped pair, and flag i is the subgroup's test on pair i |
| Subgroups.ArgWhere | tasks/drug_run.py:49-54 | the result is strictly increasing, has one entry per true flag, and holds a position exactly when its flag is true |
| Subgroups.ClassifyIsArgWhere | tasks/drug_run.py:49-54 | the one-pass classification equals the three separate argwhere lists of the source |
| Subgroups.ClassifyBounds | tasks/drug_run.py:49-54 | every index in the three lists is below the number of zipped pairs |
| Subgroups.ClassifySpec | tasks/drug_run.py:49-54 | each list is strictly increasing and holds a position exactly when that position is paired and its pair passes the list's test |
| Subgroups.LengthsAreHits | tasks/drug_run.py:49-55 | the three lengths add up to the number of tests passed over all pairs |
| Subgroups.TotalHitsDisjoint | tasks/drug_run.py:49-55 | with disjoint id sets, the tests passed reach the number of pairs exactly when every pair passes exactly one test |
| Subgroups.Partition | tasks/drug_run.py:49-55 | when every pair is valid the lists are pairwise disjoint, their union is every paired position, and the assertion holds exactly when no left id is unpaired |
| Subgroups.AssertionExact | tasks/drug_run.py:55 | with disjoint sets and equal columns, the length assertion holds if and only if every pair is valid |
| Subgroups.PairPlacement | tasks/drug_run.py:49-55 | a position is in exactly one list iff its pair is valid; with disjoint sets, both known goes to KK only, both unknown to UU only, one unknown to KU only |
| Subgroups.UnclassifiedPairFails | tasks/drug_run.py:49-55 | a pair with neither id unknown and not both known is in no list, and with disjoint sets the assertion then fails |
| Subgroups.OverlapPassesAssertion | tasks/drug_run.py:49-55 | with an id in both sets the assertion passes although one pair is in two lists and another in none |
| Subgroups.ClassifyExample | tasks/drug_run.py:49-55 | pairs (A, B), (A, C), (C, D) with known {A, B} and unknown {C, D} go to KK, KU and UU |
| Thresholds.Above | tasks/drug_run.py:66 | `[float(x > cut) for x in xs]`, one value per input |
| Thresholds.Gather | tasks/drug_run.py:92-97 | numpy fancy indexing `xs[idx]`, one element per index |
| Thresholds.AboveSpec | tasks/drug_run.py:66 | each thresholded value is 1.0 exactly when the input exceeds the cut, and is always 0.0 or 1.0 |
| Thresholds.AboveAppend | tasks/drug_run.py:66 | thresholding a concatenation is the concatenation of the thresholded parts |
| Thresholds.GatherSpec | tasks/drug_run.py:92-97 | `xs[idx]` has one element per index and element k is xs at idx[k] |
| Thresholds.GatherAbove | tasks/drug_run.py:104-112 | indexing the thresholded list equals thresholding the indexed list |
| Thresholds.MatchCount | tasks/drug_run.py:114-117 | the match count is at most the length, and equals it exactly when the two lists are equal |
| Thresholds.MatchCountExample | tasks/drug_run.py:114 | [1, 0, 1, 1] against [1, 0, 0, 1] matches at three positions |
| KeyRegistry.Insert | tasks/drug_run.py:19-25 | one pass of the loop: a present key is skipped, a new key is stored with its embedding |
| KeyRegistry.RegisterAll | tasks/drug_run.py:18-25 | the dictionary after the loop has inserted the pairs in order |
| KeyRegistry.RegisterKeys | tasks/drug_run.py:16-25 | afterwards the keys are exactly the old keys plus every registered key, so no other key is added |
| KeyRegistry.RegisterKeepsOld | tasks/drug_run.py:19-21 | a key present before keeps its value |
| KeyRegistry.RegisterFirst | tasks/drug_run.py:18-25 | a new key maps to the embedding at its first occurrence |
| KeyRegistry.FirstWriteWins | tasks/drug_run.py:18-25 | a key given twice in one call keeps the embedding of its first occurrence |
| KeyRegistry.RegisterPresent | tasks/drug_run.py:19-21 | registering only keys already present changes nothing |
| KeyRegistry.RegisterIdempotent | tasks/drug_run.py:16-25 | registering the same keys again with any embeddings changes nothing |
| KeyRegistry.KeyToVec.RegisterKey | tasks/drug_run.py:16-25 | succeeds exactly when there is one embedding per key; then the dictionary is the registration of the pairs in order, otherwise it is unchanged |
| Elapsed.Split | tasks/drug_run.py:145-146 | minutes and seconds are below 60, and hours·3600 + minutes·60 + seconds is the elapsed time |
| Elapsed.SplitOfToSeconds | tasks/drug_run.py:145-146 | the split is the only normal reading with that many seconds |
| DrugRun.Sub | tasks/drug_run.py:92-112 | the targets and predictions at a subgroup's positions, in index order |
| DrugRun.ScoreOf | tasks/drug_run.py:99-117 | the score of a list pair: the correlation of targets with predictions (regression), or the match count over the length, with or without the `1e-16` guard (binary) |
| DrugRun.Collect | tasks/drug_run.py:85-112 | the list pairs after one batch: grown by its thresholded targets, outputs and subgroup slices (regression), or replaced by its thresholded targets and predictions and their slices (binary) |
| DrugRun.Record | tasks/drug_run.py:99-125 | the metric lists after one batch: one overall score, and one score for each subgroup whose index list is non-empty |
| DrugRun.Accumulate | tasks/drug_run.py:85-125 | the list and metric updates of one batch, `Record` after `Collect` |
| DrugRun.DIdx | tasks/drug_run.py:82 | `d_idx`: the batch size times the batches before this one, plus this batch's length |
| DrugRun.Advance | tasks/drug_run.py:80-138 | the locals after a batch that raises nothing: loss appended, step counted, lists and metrics updated, step noted when a progress line is written |
| DrugRun.StepBatch | tasks/drug_run.py:49-138 | the dictionary and status after one batch: the partition assertion, the two registrations with their length assertions, the empty binary division and the zero print interval, in source order |
| DrugRun.RunPrefix | tasks/drug_run.py:43-138 | the dictionary and status after the first i batches; a failed status is kept |
| DrugRun.RunBatches | tasks/drug_run.py:43-138 | the dictionary and status after the whole loader |
| DrugRun.AccPrefix | tasks/drug_run.py:43-138 | the locals after the first i batches, each advanced by `Advance` |
| DrugRun.AccAfter | tasks/drug_run.py:43-138 | the locals after the first k batches, with each batch's index lists given by `Classify` |
| DrugRun.EpochAcc | tasks/drug_run.py:43-138 | the locals after every batch |
| DrugRun.Result | tasks/drug_run.py:166-169 | what a completed loop returns: no score for an empty loader, the last correlation (regression), the per-batch accuracies to average (binary) |
| DrugRun.EpochOutcome | tasks/drug_run.py:43-169 | the failure of the first batch that raises, or otherwise the result of the completed loop |
| DrugRun.SplitsOfClassify | tasks/drug_run.py:49-54 | the classification of every batch only names positions inside that batch |
| DrugRun.CollectBatch | tasks/drug_run.py:85-112 | the lists after the `+=` (regression) or the replacement (binary) statements are those of `Collect` |
| DrugRun.RecordBatch | tasks/drug_run.py:114-125 | the metric lists after the appends are those of `Record` |
| DrugRun.UpdateLocals | tasks/drug_run.py:80-138 | raises for an empty binary batch, then for a zero print interval, and otherwise leaves the locals of `Advance` |
| DrugRun.ProcessBatch | tasks/drug_run.py:49-138 | the dictionary and status are those of `StepBatch` (assertion, both registrations, division, modulo in source order), and a running batch leaves the locals of `Advance` |
| DrugRun.RunDrug | tasks/drug_run.py:29-169 | the dictionary afterwards is that of `RunBatches` and the result is `EpochOutcome`; the steps that write a progress line are those of `EpochAcc` when every batch is accepted, and those of the batches before the failing one otherwise |
| DrugRun.StaysFailed | tasks/drug_run.py:43-55 | once a batch has raised, the remaining batches change nothing |
| RunProperties.StepStatus | tasks/drug_run.py:49-138 | one batch leaves the epoch running exactly when it is accepted |
| RunProperties.RunningIff | tasks/drug_run.py:43-138 | the epoch is running after i batches exactly when each of them was accepted |
| RunProperties.RunningIffValid | tasks/drug_run.py:43-138 | with disjoint sets, the epoch runs to the end exactly when every pair is valid, embeddings match ids, no binary batch is empty and the print interval is positive |
| RunProperties.RunningBefore | tasks/drug_run.py:43-55 | a running epoch was running one batch earlier, and its last batch was processed from that state |
| RunProperties.NonEmptyAtMost | tasks/drug_run.py:120-125 | a subgroup is non-empty in at most as many batches as there are |
| RunProperties.AdvanceCounts | tasks/drug_run.py:80-81 | a batch adds one step, its loss, one overall score, and one score for each non-empty subgroup |
| RunProperties.Counters | tasks/drug_run.py:80-81 | after i batches the losses are the batches' losses, there are i steps and i overall scores, and subgroup t has one score per batch with non-empty t, never more than i |
| RunProperties.AdvanceTotal | tasks/drug_run.py:99-119 | a batch records the correlation of the grown lists (regression) or its own accuracy (binary) |
| RunProperties.AdvanceRegression | tasks/drug_run.py:90-97 | in regression mode a batch appends its columns to the overall lists and its slices to the subgroup lists |
| RunProperties.RegressionLists | tasks/drug_run.py:90-99 | the overall lists are every thresholded target and every output so far, in order; overall score k correlates everything up to batch k |
| RunProperties.TargetsOfScores | tasks/drug_run.py:66-90 | thresholding each batch's scores and concatenating equals thresholding all scores so far |
| RunProperties.RegressionTargets | tasks/drug_run.py:66-90 | in regression mode the overall target list is the threshold at 0 of every raw score seen so far |
| RunProperties.RegressionGroups | tasks/drug_run.py:92-97 | each subgroup list is the in-order concatenation of that subgroup's slices |
| RunProperties.GroupSizes | tasks/drug_run.py:90-97 | with valid partitions the three subgroup lists together are as long as the overall lists, which hold one entry per example |
| RunProperties.AdvanceBinary | tasks/drug_run.py:104-125 | in binary mode a batch replaces every list by its own columns and slices, and records a subgroup's accuracy only when its slice is non-empty |
| RunProperties.BinaryLists | tasks/drug_run.py:105-112 | in binary mode the lists hold the last batch only |
| RunProperties.BinaryFlags | tasks/drug_run.py:66-104 | binary targets are 1.0 exactly when the score is positive, predictions exactly when the output exceeds 0.5, and both are 0.0 or 1.0 |
| RunProperties.BinaryTotalsMatch | tasks/drug_run.py:114-119 | the overall binary scores are the per-batch accuracies |
| RunProperties.BinaryGroupMatch | tasks/drug_run.py:115-125 | subgroup t's binary scores are the guarded accuracies of its non-empty slices |
| RunProperties.BinaryTotalsBounded | tasks/drug_run.py:114 | with non-empty batches every overall accuracy has a non-zero size and at most that many matches |
| RunProperties.BinaryGroupBounded | tasks/drug_run.py:115-125 | every subgroup accuracy is guarded, has a non-zero size and at most that many matches |
| RunProperties.AdvancePrinted | tasks/drug_run.py:81-138 | a batch notes its step when the step is a multiple of the interval or `d_idx` reaches the dataset length |
| RunProperties.PrintedIsReported | tasks/drug_run.py:81-138 | after i batches the step counter is i and the noted steps are the reported ones |
| RunProperties.ReportedStepsSpec | tasks/drug_run.py:138 | the reported steps are strictly increasing, lie in 1..i, and are exactly the steps meeting the reporting condition |
| RunProperties.DIdxCounts | tasks/drug_run.py:82 | when every earlier batch is full, `d_idx` is the number of examples seen so far |
| RunProperties.LastBatchReported | tasks/drug_run.py:82-138 | with full batches covering the dataset, the last batch writes a progress line (so its step is among those `RunDrug` returns) |
| RunProperties.DictKeepsOld | tasks/drug_run.py:76-78 | without embedding capture the dictionary is untouched; with it an old entry keeps its value, even when the epoch fails |
| RunProperties.DictKeys | tasks/drug_run.py:76-78 | with embedding capture a running epoch's dictionary holds exactly the starting keys and every id seen |
| RunProperties.EpochResult | tasks/drug_run.py:166-169 | the epoch returns a value exactly when it ran through a non-empty loader: the correlation of all targets with all outputs, equal to the last overall score (regression), or the mean of the per-batch accuracies (binary) |

## Left out

- The network, the loss, the gradient step and the tensor wrapping (lines 57-65, 67-75, 79, 127-135): foreign library and GPU calls. The outputs, the embeddings and the loss of a batch are inputs carried in `Batch`.
- `np.corrcoef` and the accuracy divisions (lines 99-102, 114-117), the running means on the progress line (line 143) and the mean returned in binary mode (line 169): floating-point numerics. They stay symbolic as `Score` and `Headline` values.
- The loader, `dataset.shuffle()` and `progress(...)` (lines 41, 43-44, 140): their code is not part of this model. The loader is a given sequence of batches. Each batch is required to have as many right ids and scores as left ids, which the loader is trusted to provide.
- Printing, the clock and the `pickle.dump` of the dictionary (lines 22-23, 139-164): I/O and wall-clock time. The elapsed whole seconds are an input of `Elapsed.Split`, and the `diff` message of `register_key` is not modelled.
- The `print_step`, batch size and dataset length are natural numbers. A negative print interval is not modelled.
- `total_step` and `d_idx` are floats in the source. They are whole numbers here, and for whole numbers `%` and the comparisons agree.
- The division by zero of an empty loader in binary mode and the unbound `corref` in regression mode are one error, `NoBatches`.
- The outputs come from the model call (lines 75, 86), and one output per left id is assumed of the network.
- Scores, outputs, targets and predictions are exact `real` values, not float32 or float64. NaN (`float(nan > 0)` is 0.0 at lines 66 and 104), the infinities and rounding are not modelled.
- Embedding vectors are lists of reals. `emb.data.tolist()` is taken to be the vector itself.
