/**
 What one epoch guarantees, stated against reference definitions of the
 accumulated lists and counters: when the loop runs to the end, which of its
 batches it accepts, how long each metric list is, what the list pairs hold
 in regression and in binary mode, which steps write a progress line, what
 the dictionary holds, and what the epoch returns.
 */
module RunProperties {
  import opened Drugs
  import opened Subgroups
  import opened Thresholds
  import opened KeyRegistry
  import opened DrugRun

  /** The loop body gets through batch b without raising: the partition
      assertion holds, there is one embedding per id when embeddings are
      saved, a binary-mode batch is not empty, and the print interval is
      positive. */
  predicate Accepted(cfg: Config, b: Batch)
    requires WellFormed(b)
  {
    && CountsMatch(Classify(b.d1, b.d2, cfg.known, cfg.unknown), |b.d1|)
    && (cfg.saveEmbed ==> |b.embed1| == |b.d1| && |b.embed2| == |b.d2|)
    && !(cfg.binary && |b.d1| == 0)
    && cfg.printStep > 0
  }

  /** One batch leaves the epoch running exactly when it is accepted. */
  lemma StepStatus(cfg: Config, st: State, b: Batch, j: nat)
    requires WellFormed(b)
    ensures StepBatch(cfg, st, b, j).status.Running? <==> Accepted(cfg, b)
  {
  }

  /** The epoch is still running after i batches exactly when each of them
      was accepted. */
  lemma {:induction false} RunningIff(cfg: Config, m0: map<DrugId, Embedding>, bs: seq<Batch>, i: nat)
    requires AllWellFormed(bs) && i <= |bs|
    ensures RunPrefix(cfg, m0, bs, i).status.Running? <==> forall j :: 0 <= j < i ==> Accepted(cfg, bs[j])
    decreases i
  {
    if i > 0 {
      RunningIff(cfg, m0, bs, i - 1);
      var prev := RunPrefix(cfg, m0, bs, i - 1);
      if prev.status.Running? {
        StepStatus(cfg, prev, bs[i - 1], i - 1);
      }
    }
  }

  /** With disjoint id sets, the partition assertion of a batch holds exactly
      when every pair of it is in exactly one subgroup, so the epoch runs to
      the end exactly when that holds of every batch and the other checks pass. */
  lemma RunningIffValid(cfg: Config, m0: map<DrugId, Embedding>, bs: seq<Batch>)
    requires AllWellFormed(bs) && cfg.known !! cfg.unknown
    ensures RunBatches(cfg, m0, bs).status.Running? <==>
              forall j :: 0 <= j < |bs| ==>
                && AllValid(bs[j].d1, bs[j].d2, cfg.known, cfg.unknown)
                && (cfg.saveEmbed ==> |bs[j].embed1| == |bs[j].d1| && |bs[j].embed2| == |bs[j].d2|)
                && !(cfg.binary && |bs[j].d1| == 0)
                && cfg.printStep > 0
  {
    RunningIff(cfg, m0, bs, |bs|);
    forall j | 0 <= j < |bs|
      ensures CountsMatch(Classify(bs[j].d1, bs[j].d2, cfg.known, cfg.unknown), |bs[j].d1|)
              <==> AllValid(bs[j].d1, bs[j].d2, cfg.known, cfg.unknown)
    {
      AssertionExact(bs[j].d1, bs[j].d2, cfg.known, cfg.unknown);
    }
  }

  /** The running state after batch i - 1 comes from the running state before it. */
  lemma RunningBefore(cfg: Config, m0: map<DrugId, Embedding>, bs: seq<Batch>, i: nat)
    requires AllWellFormed(bs) && 0 < i <= |bs| && RunPrefix(cfg, m0, bs, i).status.Running?
    ensures RunPrefix(cfg, m0, bs, i - 1).status.Running?
    ensures RunPrefix(cfg, m0, bs, i) == StepBatch(cfg, RunPrefix(cfg, m0, bs, i - 1), bs[i - 1], i - 1)
  {
  }

  // Reference definitions of the accumulated values.

  /** The losses of the first i batches, in order. */
  function Losses(bs: seq<Batch>, i: nat): seq<real>
    requires i <= |bs|
  {
    if i == 0 then [] else Losses(bs, i - 1) + [bs[i - 1].loss]
  }

  /** The number of examples in the first i batches. */
  function Examples(bs: seq<Batch>, i: nat): nat
    requires i <= |bs|
  {
    if i == 0 then 0 else Examples(bs, i - 1) + |bs[i - 1].d1|
  }

  /** The thresholded targets of the first i batches, concatenated in order. */
  function Targets(bs: seq<Batch>, i: nat): seq<real>
    requires i <= |bs|
  {
    if i == 0 then [] else Targets(bs, i - 1) + Above(bs[i - 1].scores, 0.0)
  }

  /** The raw scores of the first i batches, concatenated in order. */
  function RawScores(bs: seq<Batch>, i: nat): seq<real>
    requires i <= |bs|
  {
    if i == 0 then [] else RawScores(bs, i - 1) + bs[i - 1].scores
  }

  /** Thresholding batch by batch gives the threshold of every score so far. */
  lemma {:induction false} TargetsOfScores(bs: seq<Batch>, i: nat)
    requires i <= |bs|
    ensures Targets(bs, i) == Above(RawScores(bs, i), 0.0)
    decreases i
  {
    if i > 0 {
      TargetsOfScores(bs, i - 1);
      AboveAppend(RawScores(bs, i - 1), bs[i - 1].scores, 0.0);
    }
  }

  /** The raw model outputs of the first i batches, concatenated in order. */
  function Outputs(bs: seq<Batch>, i: nat): seq<real>
    requires i <= |bs|
  {
    if i == 0 then [] else Outputs(bs, i - 1) + bs[i - 1].outputs
  }

  /** The target and prediction columns of one batch, after thresholding. */
  function Columns(b: Batch, binary: bool): Pairs
  {
    Pairs(Above(b.scores, 0.0), if binary then Above(b.outputs, 0.5) else b.outputs)
  }

  /** The target and prediction columns of one batch at subgroup t's positions. */
  function GroupColumns(cfg: Config, b: Batch, s: Split, t: Tag): Pairs
    requires WellFormed(b) && Fits(s, |b.d1|)
  {
    var c := Columns(b, cfg.binary);
    Sub(c.tar, c.pred, Pick(s, t))
  }

  /** The subgroup-t slices of the first i batches, concatenated in order. */
  function GroupPairs(cfg: Config, bs: seq<Batch>, ss: seq<Split>, i: nat, t: Tag): Pairs
    requires AllWellFormed(bs) && SplitsFit(bs, ss) && i <= |bs|
  {
    if i == 0 then Pairs([], []) else Extend(GroupPairs(cfg, bs, ss, i - 1, t), GroupColumns(cfg, bs[i - 1], ss[i - 1], t))
  }

  /** How many of the first i batches have a non-empty subgroup t. */
  function NonEmpty(ss: seq<Split>, i: nat, t: Tag): nat
    requires i <= |ss|
  {
    if i == 0 then 0
    else NonEmpty(ss, i - 1, t) + (if |Pick(ss[i - 1], t)| != 0 then 1 else 0)
  }

  /** The batch-by-batch accuracies of binary mode: each batch's match count
      over its own length. */
  function BinaryTotals(bs: seq<Batch>, i: nat): seq<Score>
    requires AllWellFormed(bs) && i <= |bs|
  {
    if i == 0 then [] else BinaryTotals(bs, i - 1) + [BatchAccuracy(bs[i - 1])]
  }

  /** Binary mode: the share of a batch's thresholded predictions that match
      its thresholded targets, without the guard. */
  function BatchAccuracy(b: Batch): Score
    requires WellFormed(b)
  {
    var c := Columns(b, true);
    Accuracy(MatchCount(c.tar, c.pred), |b.d1|, false)
  }

  /** Binary mode: the guarded accuracy of the subgroup-t slice of a batch,
      when that slice is non-empty. */
  function SliceAccuracy(cfg: Config, b: Batch, s: Split, t: Tag): seq<Score>
    requires WellFormed(b) && Fits(s, |b.d1|)
  {
    var g := GroupColumns(cfg, b, s, t);
    var n := |Pick(s, t)|;
    if n != 0 then [Accuracy(MatchCount(g.tar, g.pred), n, true)] else []
  }

  // Properties of the accumulated locals.

  lemma {:induction false} NonEmptyAtMost(ss: seq<Split>, i: nat, t: Tag)
    requires i <= |ss|
    ensures NonEmpty(ss, i, t) <= i
    decreases i
  {
    if i > 0 {
      NonEmptyAtMost(ss, i - 1, t);
    }
  }

  /** One batch adds one step, its loss, one overall score, and one score
      for each non-empty subgroup. */
  lemma AdvanceCounts(cfg: Config, a: Accum, b: Batch, s: Split)
    requires WellFormed(b) && Fits(s, |b.d1|)
    ensures var n := Advance(cfg, a, b, s);
            && n.steps == a.steps + 1
            && n.metrics.loss == a.metrics.loss + [b.loss]
            && |n.metrics.total| == |a.metrics.total| + 1
            && (forall t :: |Scores(n.metrics, t)| == |Scores(a.metrics, t)| + (if |Pick(s, t)| != 0 then 1 else 0))
  {
    var n := Advance(cfg, a, b, s);
    forall t ensures |Scores(n.metrics, t)| == |Scores(a.metrics, t)| + (if |Pick(s, t)| != 0 then 1 else 0) {
      match t
      case KK =>
      case KU =>
      case UU =>
    }
  }

  /** After i batches: i steps, one loss and one overall score per batch, and
      one subgroup score per batch in which that subgroup is non-empty, so
      never more than the number of batches. */
  lemma {:induction false} Counters(cfg: Config, bs: seq<Batch>, ss: seq<Split>, i: nat)
    requires AllWellFormed(bs) && SplitsFit(bs, ss) && i <= |bs|
    ensures var a := AccPrefix(cfg, bs, ss, i);
            && a.steps == i
            && a.metrics.loss == Losses(bs, i)
            && |a.metrics.total| == i
            && (forall t :: |Scores(a.metrics, t)| == NonEmpty(ss, i, t) <= i)
    decreases i
  {
    if i > 0 {
      Counters(cfg, bs, ss, i - 1);
      var prev := AccPrefix(cfg, bs, ss, i - 1);
      assert AccPrefix(cfg, bs, ss, i) == Advance(cfg, prev, bs[i - 1], ss[i - 1]);
      AdvanceCounts(cfg, prev, bs[i - 1], ss[i - 1]);
      forall t ensures NonEmpty(ss, i, t) <= i {
        NonEmptyAtMost(ss, i, t);
      }
    }
  }

  /** A batch records one overall score: the correlation of the grown
      overall lists in regression mode, the accuracy of its own columns in
      binary mode. */
  lemma AdvanceTotal(cfg: Config, a: Accum, b: Batch, s: Split)
    requires WellFormed(b) && Fits(s, |b.d1|)
    ensures Advance(cfg, a, b, s).metrics.total == a.metrics.total +
              [if cfg.binary then BatchAccuracy(b) else Pearson(a.all.tar + Above(b.scores, 0.0), a.all.pred + b.outputs)]
  {
  }

  /** Regression mode: a batch appends its thresholded targets and outputs to
      the overall lists and its subgroup slices to the subgroup lists. */
  lemma AdvanceRegression(cfg: Config, a: Accum, b: Batch, s: Split)
    requires WellFormed(b) && Fits(s, |b.d1|) && !cfg.binary
    ensures var n := Advance(cfg, a, b, s);
            && n.all == Extend(a.all, Columns(b, false))
            && (forall t :: Group(n, t) == Extend(Group(a, t), GroupColumns(cfg, b, s, t)))
  {
    var n := Advance(cfg, a, b, s);
    forall t ensures Group(n, t) == Extend(Group(a, t), GroupColumns(cfg, b, s, t)) {
      match t
      case KK =>
      case KU =>
      case UU =>
    }
  }

  /** Regression mode: the overall lists are every thresholded target and
      every output so far, in order, and the overall score recorded after
      batch k correlates everything up to and including batch k. */
  lemma {:induction false} RegressionLists(cfg: Config, bs: seq<Batch>, ss: seq<Split>, i: nat)
    requires AllWellFormed(bs) && SplitsFit(bs, ss) && i <= |bs| && !cfg.binary
    ensures var a := AccPrefix(cfg, bs, ss, i);
            && a.all == Pairs(Targets(bs, i), Outputs(bs, i))
            && |a.metrics.total| == i
            && (forall k :: 0 <= k < i ==> a.metrics.total[k] == Pearson(Targets(bs, k + 1), Outputs(bs, k + 1)))
    decreases i
  {
    if i > 0 {
      RegressionLists(cfg, bs, ss, i - 1);
      var prev := AccPrefix(cfg, bs, ss, i - 1);
      assert AccPrefix(cfg, bs, ss, i) == Advance(cfg, prev, bs[i - 1], ss[i - 1]);
      AdvanceRegression(cfg, prev, bs[i - 1], ss[i - 1]);
      AdvanceTotal(cfg, prev, bs[i - 1], ss[i - 1]);
    }
  }

  /** Regression mode: the overall target list is the threshold of every raw
      score seen so far, one target per score. */
  lemma RegressionTargets(cfg: Config, bs: seq<Batch>, ss: seq<Split>, i: nat)
    requires AllWellFormed(bs) && SplitsFit(bs, ss) && i <= |bs| && !cfg.binary
    ensures var a := AccPrefix(cfg, bs, ss, i);
            && a.all.tar == Above(RawScores(bs, i), 0.0)
            && |a.all.tar| == |RawScores(bs, i)|
  {
    RegressionLists(cfg, bs, ss, i);
    TargetsOfScores(bs, i);
  }

  /** Regression mode: each subgroup list is the concatenation of that
      subgroup's slices, in batch order. */
  lemma {:induction false} RegressionGroups(cfg: Config, bs: seq<Batch>, ss: seq<Split>, i: nat, t: Tag)
    requires AllWellFormed(bs) && SplitsFit(bs, ss) && i <= |bs| && !cfg.binary
    ensures Group(AccPrefix(cfg, bs, ss, i), t) == GroupPairs(cfg, bs, ss, i, t)
    decreases i
  {
    if i > 0 {
      RegressionGroups(cfg, bs, ss, i - 1, t);
      var prev := AccPrefix(cfg, bs, ss, i - 1);
      assert AccPrefix(cfg, bs, ss, i) == Advance(cfg, prev, bs[i - 1], ss[i - 1]);
      AdvanceRegression(cfg, prev, bs[i - 1], ss[i - 1]);
    }
  }

  /** Regression mode with valid partitions: the three subgroup lists
      together are exactly as long as the overall lists, which hold one entry
      per example. */
  lemma {:induction false} GroupSizes(cfg: Config, bs: seq<Batch>, ss: seq<Split>, i: nat)
    requires AllWellFormed(bs) && SplitsFit(bs, ss) && i <= |bs| && !cfg.binary
    requires forall j :: 0 <= j < i ==> CountsMatch(ss[j], |bs[j].d1|)
    ensures var a := AccPrefix(cfg, bs, ss, i);
            && |a.all.tar| == |a.all.pred| == Examples(bs, i)
            && |a.kk.tar| + |a.ku.tar| + |a.uu.tar| == |a.all.tar|
            && |a.kk.pred| + |a.ku.pred| + |a.uu.pred| == |a.all.pred|
    decreases i
  {
    if i > 0 {
      GroupSizes(cfg, bs, ss, i - 1);
      var prev := AccPrefix(cfg, bs, ss, i - 1);
      assert AccPrefix(cfg, bs, ss, i) == Advance(cfg, prev, bs[i - 1], ss[i - 1]);
      AdvanceRegression(cfg, prev, bs[i - 1], ss[i - 1]);
      var a := AccPrefix(cfg, bs, ss, i);
      assert CountsMatch(ss[i - 1], |bs[i - 1].d1|);
      assert Group(a, KK) == a.kk && Group(a, KU) == a.ku && Group(a, UU) == a.uu;
    }
  }

  /** Binary mode: a batch replaces every list by its own thresholded columns
      and their subgroup slices, and records a subgroup's accuracy when its
      slice is non-empty. */
  lemma AdvanceBinary(cfg: Config, a: Accum, b: Batch, s: Split)
    requires WellFormed(b) && Fits(s, |b.d1|) && cfg.binary
    ensures var n := Advance(cfg, a, b, s);
            && n.all == Columns(b, true)
            && (forall t :: Group(n, t) == GroupColumns(cfg, b, s, t))
            && (forall t :: Scores(n.metrics, t) == Scores(a.metrics, t) + SliceAccuracy(cfg, b, s, t))
  {
    var n := Advance(cfg, a, b, s);
    forall t ensures Group(n, t) == GroupColumns(cfg, b, s, t)
      && Scores(n.metrics, t) == Scores(a.metrics, t) + SliceAccuracy(cfg, b, s, t)
    {
      match t
      case KK =>
      case KU =>
      case UU =>
    }
  }

  /** Binary mode: the lists hold the last batch only. */
  lemma BinaryLists(cfg: Config, bs: seq<Batch>, ss: seq<Split>, i: nat)
    requires AllWellFormed(bs) && SplitsFit(bs, ss) && 0 < i <= |bs| && cfg.binary
    ensures var a := AccPrefix(cfg, bs, ss, i);
            && a.all == Columns(bs[i - 1], true)
            && forall t :: Group(a, t) == GroupColumns(cfg, bs[i - 1], ss[i - 1], t)
  {
    AdvanceBinary(cfg, AccPrefix(cfg, bs, ss, i - 1), bs[i - 1], ss[i - 1]);
  }

  /** Binary mode: every target is 1.0 exactly when its score is positive and
      every prediction is 1.0 exactly when its output exceeds one half; both
      are always 0.0 or 1.0. */
  lemma BinaryFlags(cfg: Config, bs: seq<Batch>, ss: seq<Split>, i: nat)
    requires AllWellFormed(bs) && SplitsFit(bs, ss) && 0 < i <= |bs| && cfg.binary
    ensures var a := AccPrefix(cfg, bs, ss, i); var b := bs[i - 1];
            && |a.all.tar| == |a.all.pred| == |b.d1|
            && (forall k :: 0 <= k < |b.d1| ==> (a.all.tar[k] == 1.0 <==> b.scores[k] > 0.0))
            && (forall k :: 0 <= k < |b.d1| ==> (a.all.pred[k] == 1.0 <==> b.outputs[k] > 0.5))
            && (forall k :: 0 <= k < |b.d1| ==> a.all.tar[k] in {0.0, 1.0} && a.all.pred[k] in {0.0, 1.0})
  {
    BinaryLists(cfg, bs, ss, i);
    AboveSpec(bs[i - 1].scores, 0.0);
    AboveSpec(bs[i - 1].outputs, 0.5);
  }

  /** Binary mode, subgroup t: the accuracy of each batch's slice, for the
      batches in which that slice is non-empty. */
  function BinaryGroupScores(cfg: Config, bs: seq<Batch>, ss: seq<Split>, i: nat, t: Tag): seq<Score>
    requires AllWellFormed(bs) && SplitsFit(bs, ss) && i <= |bs|
  {
    if i == 0 then [] else BinaryGroupScores(cfg, bs, ss, i - 1, t) + SliceAccuracy(cfg, bs[i - 1], ss[i - 1], t)
  }

  /** Binary mode: the overall scores are the per-batch accuracies. */
  lemma {:induction false} BinaryTotalsMatch(cfg: Config, bs: seq<Batch>, ss: seq<Split>, i: nat)
    requires AllWellFormed(bs) && SplitsFit(bs, ss) && i <= |bs| && cfg.binary
    ensures AccPrefix(cfg, bs, ss, i).metrics.total == BinaryTotals(bs, i)
    decreases i
  {
    if i > 0 {
      BinaryTotalsMatch(cfg, bs, ss, i - 1);
      var prev := AccPrefix(cfg, bs, ss, i - 1);
      assert AccPrefix(cfg, bs, ss, i) == Advance(cfg, prev, bs[i - 1], ss[i - 1]);
      AdvanceTotal(cfg, prev, bs[i - 1], ss[i - 1]);
    }
  }

  /** Binary mode: the scores of subgroup t are the accuracies of its
      non-empty slices. */
  lemma {:induction false} BinaryGroupMatch(cfg: Config, bs: seq<Batch>, ss: seq<Split>, i: nat, t: Tag)
    requires AllWellFormed(bs) && SplitsFit(bs, ss) && i <= |bs| && cfg.binary
    ensures Scores(AccPrefix(cfg, bs, ss, i).metrics, t) == BinaryGroupScores(cfg, bs, ss, i, t)
    decreases i
  {
    if i > 0 {
      BinaryGroupMatch(cfg, bs, ss, i - 1, t);
      var prev := AccPrefix(cfg, bs, ss, i - 1);
      assert AccPrefix(cfg, bs, ss, i) == Advance(cfg, prev, bs[i - 1], ss[i - 1]);
      AdvanceBinary(cfg, prev, bs[i - 1], ss[i - 1]);
    }
  }

  /** With non-empty batches, every per-batch accuracy counts at most as many
      matches as its batch has examples, over a non-zero size. */
  lemma {:induction false} BinaryTotalsBounded(bs: seq<Batch>, i: nat)
    requires AllWellFormed(bs) && i <= |bs|
    requires forall j :: 0 <= j < i ==> |bs[j].d1| > 0
    ensures var m := BinaryTotals(bs, i);
            && |m| == i
            && forall k :: 0 <= k < |m| ==> ProperAccuracy(m[k])
    decreases i
  {
    if i > 0 {
      BinaryTotalsBounded(bs, i - 1);
      assert |bs[i - 1].d1| > 0;
    }
  }

  /** An accuracy over a non-zero size that counts at most as many matches
      as its list is long. */
  predicate ProperAccuracy(c: Score)
  {
    c.Accuracy? && 0 < c.size && c.matches <= c.size
  }

  /** Every subgroup accuracy is guarded, over a non-zero size, and counts at
      most as many matches as its slice is long. */
  lemma {:induction false} BinaryGroupBounded(cfg: Config, bs: seq<Batch>, ss: seq<Split>, i: nat, t: Tag)
    requires AllWellFormed(bs) && SplitsFit(bs, ss) && i <= |bs|
    ensures forall c :: c in BinaryGroupScores(cfg, bs, ss, i, t) ==> ProperAccuracy(c) && c.guarded
    decreases i
  {
    if i > 0 {
      BinaryGroupBounded(cfg, bs, ss, i - 1, t);
      var g := GroupColumns(cfg, bs[i - 1], ss[i - 1], t);
      assert |g.tar| == |g.pred| == |Pick(ss[i - 1], t)|;
    }
  }

  // The progress lines.

  /** Batch number s (counting from one) writes a progress line: a multiple of
      the print interval, or `d_idx` reaching the dataset length. */
  predicate Reported(cfg: Config, bs: seq<Batch>, s: nat)
    requires 1 <= s <= |bs|
  {
    cfg.printStep > 0 && (s % cfg.printStep == 0 || DIdx(s, cfg.batchSize, |bs[s - 1].d1|) == cfg.length)
  }

  /** A batch notes its step number when that step is a multiple of the
      print interval or `d_idx` reaches the dataset length. */
  lemma AdvancePrinted(cfg: Config, a: Accum, b: Batch, s: Split)
    requires WellFormed(b) && Fits(s, |b.d1|)
    ensures var n := a.steps + 1;
            && Advance(cfg, a, b, s).steps == n
            && Advance(cfg, a, b, s).printed == a.printed +
                 (if cfg.printStep > 0 && (n % cfg.printStep == 0 || DIdx(n, cfg.batchSize, |b.d1|) == cfg.length) then [n] else [])
  {
    var a1 := a.(metrics := a.metrics.(loss := a.metrics.loss + [b.loss]), steps := a.steps + 1);
    assert Accumulate(a1, b, s, cfg.binary).steps == a.steps + 1;
    assert Accumulate(a1, b, s, cfg.binary).printed == a.printed;
  }

  /** The steps among the first i that write a progress line, in order. */
  function ReportedSteps(cfg: Config, bs: seq<Batch>, i: nat): seq<nat>
    requires i <= |bs|
  {
    if i == 0 then [] else ReportedSteps(cfg, bs, i - 1) + (if Reported(cfg, bs, i) then [i] else [])
  }

  /** After i batches the step counter is i and the noted steps are the
      reported ones. */
  lemma {:induction false} PrintedIsReported(cfg: Config, bs: seq<Batch>, ss: seq<Split>, i: nat)
    requires AllWellFormed(bs) && SplitsFit(bs, ss) && i <= |bs|
    ensures AccPrefix(cfg, bs, ss, i).steps == i
    ensures AccPrefix(cfg, bs, ss, i).printed == ReportedSteps(cfg, bs, i)
    decreases i
  {
    if i > 0 {
      PrintedIsReported(cfg, bs, ss, i - 1);
      var prev := AccPrefix(cfg, bs, ss, i - 1);
      assert AccPrefix(cfg, bs, ss, i) == Advance(cfg, prev, bs[i - 1], ss[i - 1]);
      AdvancePrinted(cfg, prev, bs[i - 1], ss[i - 1]);
    }
  }

  /** The reported steps are strictly increasing, lie between 1 and i, and
      are exactly the steps that meet the reporting condition. */
  lemma {:induction false} ReportedStepsSpec(cfg: Config, bs: seq<Batch>, i: nat)
    requires i <= |bs|
    ensures var p := ReportedSteps(cfg, bs, i);
            && StrictlyIncreasing(p)
            && (forall k :: 0 <= k < |p| ==> 1 <= p[k] <= i)
            && (forall s :: 1 <= s <= i ==> (s in p <==> Reported(cfg, bs, s)))
    decreases i
  {
    if i > 0 {
      ReportedStepsSpec(cfg, bs, i - 1);
      var p := ReportedSteps(cfg, bs, i - 1);
      var q := ReportedSteps(cfg, bs, i);
      assert i !in p;
      forall j, k | 0 <= j < k < |q| ensures q[j] < q[k] {
        if k >= |p| { assert q[k] == i && q[j] == p[j]; }
      }
    }
  }

  /** When every batch before the last is full, `d_idx` counts the examples
      seen so far. */
  lemma {:induction false} DIdxCounts(bs: seq<Batch>, size: nat, i: nat)
    requires 1 <= i <= |bs| && forall j :: 0 <= j < i - 1 ==> |bs[j].d1| == size
    ensures DIdx(i, size, |bs[i - 1].d1|) == Examples(bs, i)
    decreases i
  {
    if i > 1 {
      DIdxCounts(bs, size, i - 1);
      assert (i - 1) * size == (i - 2) * size + size;
    }
  }

  /** With full batches, the last batch of a loader that covers the dataset
      always writes a progress line. */
  lemma LastBatchReported(cfg: Config, m0: map<DrugId, Embedding>, bs: seq<Batch>)
    requires AllWellFormed(bs) && |bs| > 0 && RunBatches(cfg, m0, bs).status.Running?
    requires forall j :: 0 <= j < |bs| - 1 ==> |bs[j].d1| == cfg.batchSize
    requires Examples(bs, |bs|) == cfg.length
    ensures |bs| in EpochAcc(cfg, bs).printed
  {
    RunningIff(cfg, m0, bs, |bs|);
    SplitsOfClassify(cfg, bs);
    PrintedIsReported(cfg, bs, Splits(cfg, bs), |bs|);
    ReportedStepsSpec(cfg, bs, |bs|);
    DIdxCounts(bs, cfg.batchSize, |bs|);
    assert Accepted(cfg, bs[|bs| - 1]);
  }

  // The dictionary.

  function ToSet(ids: seq<DrugId>): set<DrugId>
  {
    set k | k in ids
  }

  /** The ids of both sides of the first i batches. */
  function Ids(bs: seq<Batch>, i: nat): set<DrugId>
    requires i <= |bs|
  {
    if i == 0 then {} else Ids(bs, i - 1) + ToSet(bs[i - 1].d1) + ToSet(bs[i - 1].d2)
  }

  /** Without embedding capture the dictionary is never touched; with it, an
      entry present before the epoch keeps its value, whatever happens. */
  lemma {:induction false} DictKeepsOld(cfg: Config, m0: map<DrugId, Embedding>, bs: seq<Batch>, i: nat)
    requires AllWellFormed(bs) && i <= |bs|
    ensures var d := RunPrefix(cfg, m0, bs, i).dict;
            && (!cfg.saveEmbed ==> d == m0)
            && (forall k :: k in m0 ==> k in d && d[k] == m0[k])
    decreases i
  {
    if i > 0 {
      DictKeepsOld(cfg, m0, bs, i - 1);
      var prev := RunPrefix(cfg, m0, bs, i - 1);
      var b := bs[i - 1];
      if prev.status.Running? && cfg.saveEmbed && |b.d1| == |b.embed1| {
        var m1 := RegisterAll(prev.dict, b.d1, b.embed1);
        RegisterKeepsOld(prev.dict, b.d1, b.embed1);
        if |b.d2| == |b.embed2| {
          RegisterKeepsOld(m1, b.d2, b.embed2);
        }
      }
    }
  }

  /** With embedding capture, a running epoch's dictionary holds exactly the
      keys it started with and every id of every batch so far. */
  lemma {:induction false} DictKeys(cfg: Config, m0: map<DrugId, Embedding>, bs: seq<Batch>, i: nat)
    requires AllWellFormed(bs) && i <= |bs| && cfg.saveEmbed && RunPrefix(cfg, m0, bs, i).status.Running?
    ensures var d := RunPrefix(cfg, m0, bs, i).dict;
            forall k :: k in d <==> k in m0 || k in Ids(bs, i)
    decreases i
  {
    if i > 0 {
      RunningBefore(cfg, m0, bs, i);
      DictKeys(cfg, m0, bs, i - 1);
      var prev := RunPrefix(cfg, m0, bs, i - 1);
      var b := bs[i - 1];
      RegisterKeys(prev.dict, b.d1, b.embed1);
      RegisterKeys(RegisterAll(prev.dict, b.d1, b.embed1), b.d2, b.embed2);
    }
  }

  // The return value.

  /** The epoch returns a value exactly when it ran through a non-empty
      loader. In regression mode that value is the correlation of every
      thresholded target with every output, the last overall score recorded;
      in binary mode it is the mean of the per-batch accuracies. */
  lemma EpochResult(cfg: Config, m0: map<DrugId, Embedding>, bs: seq<Batch>)
    requires AllWellFormed(bs)
    ensures var st := RunBatches(cfg, m0, bs); var o := EpochOutcome(cfg, m0, bs); var a := EpochAcc(cfg, bs);
            && (o.Ok? <==> st.status.Running? && |bs| > 0)
            && (o.Ok? && !cfg.binary ==>
                  && o.headline == LastScore(Pearson(Targets(bs, |bs|), Outputs(bs, |bs|)))
                  && |a.metrics.total| == |bs|
                  && o.headline.score == a.metrics.total[|bs| - 1])
            && (o.Ok? && cfg.binary ==> o.headline == MeanScore(BinaryTotals(bs, |bs|)))
  {
    var st := RunBatches(cfg, m0, bs);
    SplitsOfClassify(cfg, bs);
    var ss := Splits(cfg, bs);
    Counters(cfg, bs, ss, |bs|);
    if st.status.Running? {
      RunningIff(cfg, m0, bs, |bs|);
      if cfg.binary {
        forall j | 0 <= j < |bs| ensures |bs[j].d1| > 0 {
          assert Accepted(cfg, bs[j]);
        }
        BinaryTotalsMatch(cfg, bs, ss, |bs|);
      } else {
        RegressionLists(cfg, bs, ss, |bs|);
      }
    }
  }
}
