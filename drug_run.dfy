/**
 One epoch of `run_drug`: the loop over the loader's batches and its
 bookkeeping.

 The model is a black box: what it returns for a batch (the predictions, the
 two embedding lists and the loss value) is carried in the batch itself. The
 gradient step, the clock and the progress output are not modelled; what is
 kept of the progress line is the decision to write one (the step numbers at
 which a line is written). Correlations and accuracies stay symbolic: a
 `Score` records exactly which lists, or which match count and length, the
 source divides or correlates, without computing the floating-point value.

 The loop is specified as functions of the batches: `RunPrefix` gives the
 dictionary and whether the loop has stopped, `AccPrefix` the loop's locals
 when every batch so far was accepted, and `EpochOutcome` the return value.
 `RunDrug` runs the loop and is proved to agree with them.
 */
module DrugRun {
  import opened Drugs
  import opened Subgroups
  import opened Thresholds
  import opened KeyRegistry

  /** One batch of the loader, with the model's outputs for it. */
  datatype Batch = Batch(
    d1: seq<DrugId>, d2: seq<DrugId>,
    scores: seq<real>,
    outputs: seq<real>,
    embed1: seq<Embedding>, embed2: seq<Embedding>,
    loss: real)

  /** The loader yields one id of each side and one score per pair, and the
      model one output per pair. */
  predicate WellFormed(b: Batch)
  {
    |b.d2| == |b.d1| && |b.scores| == |b.d1| && |b.outputs| == |b.d1|
  }

  ghost predicate AllWellFormed(bs: seq<Batch>)
  {
    forall j :: 0 <= j < |bs| ==> WellFormed(bs[j])
  }

  /** The arguments of one epoch: the binary flag, embedding capture, the
      batch size, the print interval, the dataset length and the two id sets. */
  datatype Config = Config(
    binary: bool, saveEmbed: bool,
    batchSize: nat, printStep: nat, length: nat,
    known: set<DrugId>, unknown: set<DrugId>)

  /** A metric value: the Pearson correlation of a target list with a
      prediction list, or an accuracy (matches over size), with `guarded`
      telling whether the denominator carries the `1e-16` guard. */
  datatype Score =
    | Pearson(targets: seq<real>, predictions: seq<real>)
    | Accuracy(matches: nat, size: nat, guarded: bool)

  /** A target list with its prediction list. */
  datatype Pairs = Pairs(tar: seq<real>, pred: seq<real>)

  /** `total_metrics[0..4]`: losses, overall, KK, KU and UU scores. */
  datatype Metrics = Metrics(loss: seq<real>, total: seq<Score>, kk: seq<Score>, ku: seq<Score>, uu: seq<Score>)

  /** Every local of the loop: the all/KK/KU/UU lists, the metric lists,
      `total_step`, and the steps at which a progress line is written. */
  datatype Accum = Accum(all: Pairs, kk: Pairs, ku: Pairs, uu: Pairs, metrics: Metrics, steps: nat, printed: seq<nat>)

  const Fresh: Accum :=
    Accum(Pairs([], []), Pairs([], []), Pairs([], []), Pairs([], []), Metrics([], [], [], [], []), 0, [])

  /** Why an epoch stops early. */
  datatype Failure =
    | PartitionMismatch(batch: nat)   // the assertion after the classification
    | KeyLengthMismatch(batch: nat)   // the assertion at the top of register_key
    | EmptyBinaryBatch(batch: nat)    // the accuracy divides by zero for an empty batch in binary mode
    | PrintStepZero(batch: nat)       // the step counter taken modulo a zero print interval
    | NoBatches                       // an empty loader: no score was ever computed

  datatype Status = Running | Failed(failure: Failure)

  /** The dictionary the loop updates in place, and whether the loop stopped. */
  datatype State = State(dict: map<DrugId, Embedding>, status: Status)

  /** The epoch's return value: the last overall correlation (regression) or the
      mean of the per-batch overall accuracies (binary). */
  datatype Headline = LastScore(score: Score) | MeanScore(scores: seq<Score>)

  datatype Outcome = Ok(headline: Headline) | Err(failure: Failure)

  ghost predicate Fits(s: Split, n: nat)
  {
    InRange(s.kk, n) && InRange(s.ku, n) && InRange(s.uu, n)
  }

  function Group(a: Accum, t: Tag): Pairs
  {
    match t
    case KK => a.kk
    case KU => a.ku
    case UU => a.uu
  }

  function Scores(m: Metrics, t: Tag): seq<Score>
  {
    match t
    case KK => m.kk
    case KU => m.ku
    case UU => m.uu
  }

  /** The targets and predictions at the positions listed in idx, in that order. */
  function Sub(tar: seq<real>, pred: seq<real>, idx: seq<nat>): Pairs
    requires InRange(idx, |tar|) && InRange(idx, |pred|)
  {
    Pairs(Gather(tar, idx), Gather(pred, idx))
  }

  function Extend(p: Pairs, q: Pairs): Pairs
  {
    Pairs(p.tar + q.tar, p.pred + q.pred)
  }

  /** The score of one list pair: a correlation in regression mode, an
      accuracy in binary mode. */
  function ScoreOf(g: Pairs, binary: bool, guarded: bool): Score
    requires binary ==> |g.tar| == |g.pred|
  {
    if binary then Accuracy(MatchCount(g.tar, g.pred), |g.tar|, guarded) else Pearson(g.tar, g.pred)
  }

  /** Lines 89-112 for one batch: the lists grow (regression) or are
      replaced by this batch's (binary). */
  function Collect(a: Accum, b: Batch, s: Split, binary: bool): Accum
    requires WellFormed(b) && Fits(s, |b.d1|)
  {
    var tmpTar := Above(b.scores, 0.0);
    if !binary then
      a.(all := Extend(a.all, Pairs(tmpTar, b.outputs)),
         kk := Extend(a.kk, Sub(tmpTar, b.outputs, s.kk)),
         ku := Extend(a.ku, Sub(tmpTar, b.outputs, s.ku)),
         uu := Extend(a.uu, Sub(tmpTar, b.outputs, s.uu)))
    else
      var tmpPred := Above(b.outputs, 0.5);
      a.(all := Pairs(tmpTar, tmpPred),
         kk := Sub(tmpTar, tmpPred, s.kk),
         ku := Sub(tmpTar, tmpPred, s.ku),
         uu := Sub(tmpTar, tmpPred, s.uu))
  }

  /** Lines 114-125: an overall score is recorded for every batch, a subgroup
      score only when that subgroup is non-empty in this batch. */
  function Record(a: Accum, s: Split, binary: bool): Accum
    requires binary ==> |a.all.tar| == |a.all.pred| && |a.kk.tar| == |a.kk.pred|
    requires binary ==> |a.ku.tar| == |a.ku.pred| && |a.uu.tar| == |a.uu.pred|
  {
    var m := a.metrics;
    a.(metrics := Metrics(
      m.loss,
      m.total + [ScoreOf(a.all, binary, false)],
      m.kk + (if |s.kk| != 0 then [ScoreOf(a.kk, binary, true)] else []),
      m.ku + (if |s.ku| != 0 then [ScoreOf(a.ku, binary, true)] else []),
      m.uu + (if |s.uu| != 0 then [ScoreOf(a.uu, binary, true)] else [])))
  }

  function Accumulate(a: Accum, b: Batch, s: Split, binary: bool): Accum
    requires WellFormed(b) && Fits(s, |b.d1|)
  {
    Record(Collect(a, b, s, binary), s, binary)
  }

  /** `d_idx`: the batch size times the batches before this one, plus this one's length. */
  function DIdx(steps: nat, batchSize: nat, n: nat): nat
    requires steps >= 1
  {
    (steps - 1) * batchSize + n
  }

  /** The loop's locals after a batch that raises nothing (lines 80-125 and
      138), given the batch's KK/KU/UU index lists s: the loss is appended,
      the step counter grows, the lists and metrics are updated, and the step
      number is noted when a progress line is written. A zero print interval
      raises before this is used. */
  function Advance(cfg: Config, a: Accum, b: Batch, s: Split): Accum
    requires WellFormed(b) && Fits(s, |b.d1|)
  {
    var a1 := a.(metrics := a.metrics.(loss := a.metrics.loss + [b.loss]), steps := a.steps + 1);
    var a2 := Accumulate(a1, b, s, cfg.binary);
    var report := cfg.printStep > 0 && (a2.steps % cfg.printStep == 0 || DIdx(a2.steps, cfg.batchSize, |b.d1|) == cfg.length);
    a2.(printed := a2.printed + (if report then [a2.steps] else []))
  }

  /** The checks and dictionary updates of one iteration of the batch loop,
      for batch number j. When a batch raises, the loop's locals are lost and
      only the dictionary, which the caller owns, keeps what was registered
      before the error. None of these checks looks at the locals, and the
      locals' update (`Advance`) does not look at the dictionary, so the two
      are specified apart. */
  function StepBatch(cfg: Config, st: State, b: Batch, j: nat): State
    requires WellFormed(b)
  {
    if !CountsMatch(Classify(b.d1, b.d2, cfg.known, cfg.unknown), |b.d1|) then st.(status := Failed(PartitionMismatch(j)))
    else if cfg.saveEmbed && |b.d1| != |b.embed1| then st.(status := Failed(KeyLengthMismatch(j)))
    else
      var m1 := if cfg.saveEmbed then RegisterAll(st.dict, b.d1, b.embed1) else st.dict;
      if cfg.saveEmbed && |b.d2| != |b.embed2| then State(m1, Failed(KeyLengthMismatch(j)))
      else
        var m2 := if cfg.saveEmbed then RegisterAll(m1, b.d2, b.embed2) else m1;
        if cfg.binary && |b.d1| == 0 then State(m2, Failed(EmptyBinaryBatch(j)))
        else if cfg.printStep == 0 then State(m2, Failed(PrintStepZero(j)))
        else State(m2, Running)
  }

  /** The classification of every batch. It depends on nothing the loop
      changes, so computing it up front changes nothing. */
  function Splits(cfg: Config, bs: seq<Batch>): seq<Split>
  {
    seq(|bs|, j requires 0 <= j < |bs| => Classify(bs[j].d1, bs[j].d2, cfg.known, cfg.unknown))
  }

  /** One index-list triple per batch, each within its batch. */
  ghost predicate SplitsFit(bs: seq<Batch>, ss: seq<Split>)
  {
    |ss| == |bs| && forall j :: 0 <= j < |bs| ==> Fits(ss[j], |bs[j].d1|)
  }

  lemma SplitsOfClassify(cfg: Config, bs: seq<Batch>)
    ensures SplitsFit(bs, Splits(cfg, bs))
  {
    forall j | 0 <= j < |bs| ensures Fits(Splits(cfg, bs)[j], |bs[j].d1|) {
      ClassifyBounds(bs[j].d1, bs[j].d2, cfg.known, cfg.unknown);
    }
  }

  /** The dictionary and status after the first i batches of bs, from the
      dictionary m0; a failure stops the loop. */
  function RunPrefix(cfg: Config, m0: map<DrugId, Embedding>, bs: seq<Batch>, i: nat): State
    requires AllWellFormed(bs) && i <= |bs|
    decreases i
  {
    if i == 0 then State(m0, Running)
    else
      var prev := RunPrefix(cfg, m0, bs, i - 1);
      if prev.status.Failed? then prev else StepBatch(cfg, prev, bs[i - 1], i - 1)
  }

  /** The loop's locals after the first i batches have all been accepted,
      with index lists ss. */
  function AccPrefix(cfg: Config, bs: seq<Batch>, ss: seq<Split>, i: nat): Accum
    requires AllWellFormed(bs) && SplitsFit(bs, ss) && i <= |bs|
    decreases i, 1
  {
    if i == 0 then Fresh else AccStep(cfg, bs, ss, i)
  }

  /** The locals after batch number i - 1, from those before it. */
  function AccStep(cfg: Config, bs: seq<Batch>, ss: seq<Split>, i: nat): Accum
    requires AllWellFormed(bs) && SplitsFit(bs, ss) && 0 < i <= |bs|
    decreases i, 0
  {
    Advance(cfg, AccPrefix(cfg, bs, ss, i - 1), bs[i - 1], ss[i - 1])
  }

  /** The dictionary and status after the whole epoch. */
  function RunBatches(cfg: Config, m0: map<DrugId, Embedding>, bs: seq<Batch>): State
    requires AllWellFormed(bs)
  {
    RunPrefix(cfg, m0, bs, |bs|)
  }

  /** The loop's locals after the first k batches, if all of them are accepted. */
  function AccAfter(cfg: Config, bs: seq<Batch>, k: nat): Accum
    requires AllWellFormed(bs) && k <= |bs|
  {
    SplitsOfClassify(cfg, bs);
    AccPrefix(cfg, bs, Splits(cfg, bs), k)
  }

  /** The loop's locals after the whole epoch, if it runs to the end. */
  function EpochAcc(cfg: Config, bs: seq<Batch>): Accum
    requires AllWellFormed(bs)
  {
    AccAfter(cfg, bs, |bs|)
  }

  /** What a loop that ran to the end with locals acc returns. */
  function Result(cfg: Config, acc: Accum): Outcome
  {
    if acc.steps == 0 then Err(NoBatches)
    else if !cfg.binary then Ok(LastScore(Pearson(acc.all.tar, acc.all.pred)))
    else Ok(MeanScore(acc.metrics.total))
  }

  /** What the epoch returns, or why it fails. */
  function EpochOutcome(cfg: Config, m0: map<DrugId, Embedding>, bs: seq<Batch>): Outcome
    requires AllWellFormed(bs)
  {
    var st := RunBatches(cfg, m0, bs);
    if st.status.Failed? then Err(st.status.failure) else Result(cfg, EpochAcc(cfg, bs))
  }

  /** Once an epoch has failed, later batches change nothing. */
  lemma {:induction false} StaysFailed(cfg: Config, m0: map<DrugId, Embedding>, bs: seq<Batch>, k: nat, i: nat)
    requires AllWellFormed(bs) && k <= i <= |bs|
    requires RunPrefix(cfg, m0, bs, k).status.Failed?
    ensures RunPrefix(cfg, m0, bs, i) == RunPrefix(cfg, m0, bs, k)
    decreases i
  {
    if k < i {
      StaysFailed(cfg, m0, bs, k, i - 1);
    }
  }

  /** Lines 89-112 of one batch, as the source writes them: `+=` on the lists
      in regression mode, replacement in binary mode. */
  method CollectBatch(a: Accum, b: Batch, s: Split, binary: bool) returns (acc: Accum)
    requires WellFormed(b) && Fits(s, |b.d1|)
    ensures acc == Collect(a, b, s, binary)
  {
    acc := a;
    var tmpTar := Above(b.scores, 0.0);
    if !binary {
      acc := acc.(all := Pairs(acc.all.tar + tmpTar, acc.all.pred + b.outputs));
      acc := acc.(kk := Pairs(acc.kk.tar + Gather(tmpTar, s.kk), acc.kk.pred + Gather(b.outputs, s.kk)));
      acc := acc.(ku := Pairs(acc.ku.tar + Gather(tmpTar, s.ku), acc.ku.pred + Gather(b.outputs, s.ku)));
      acc := acc.(uu := Pairs(acc.uu.tar + Gather(tmpTar, s.uu), acc.uu.pred + Gather(b.outputs, s.uu)));
    } else {
      var tmpPred := Above(b.outputs, 0.5);
      acc := acc.(all := Pairs(tmpTar, tmpPred));
      acc := acc.(kk := Pairs(Gather(tmpTar, s.kk), Gather(tmpPred, s.kk)));
      acc := acc.(ku := Pairs(Gather(tmpTar, s.ku), Gather(tmpPred, s.ku)));
      acc := acc.(uu := Pairs(Gather(tmpTar, s.uu), Gather(tmpPred, s.uu)));
    }
  }

  /** Lines 114-125 of one batch: the four scores, then the appends to the
      metric lists. */
  method RecordBatch(a: Accum, s: Split, binary: bool) returns (acc: Accum)
    requires binary ==> |a.all.tar| == |a.all.pred| && |a.kk.tar| == |a.kk.pred|
    requires binary ==> |a.ku.tar| == |a.ku.pred| && |a.uu.tar| == |a.uu.pred|
    ensures acc == Record(a, s, binary)
  {
    acc := a;
    var corref := ScoreOf(acc.all, binary, false);
    var correfKK := ScoreOf(acc.kk, binary, true);
    var correfKU := ScoreOf(acc.ku, binary, true);
    var correfUU := ScoreOf(acc.uu, binary, true);

    acc := acc.(metrics := acc.metrics.(total := acc.metrics.total + [corref]));
    if |s.kk| != 0 {
      acc := acc.(metrics := acc.metrics.(kk := acc.metrics.kk + [correfKK]));
    }
    if |s.ku| != 0 {
      acc := acc.(metrics := acc.metrics.(ku := acc.metrics.ku + [correfKU]));
    }
    if |s.uu| != 0 {
      acc := acc.(metrics := acc.metrics.(uu := acc.metrics.uu + [correfUU]));
    }
  }

  /** The body of the batch loop for batch number j. The locals it returns
      matter only while the epoch is running. */
  method ProcessBatch(cfg: Config, a: Accum, b: Batch, j: nat, key2vec: KeyToVec) returns (acc: Accum, status: Status)
    requires WellFormed(b)
    modifies key2vec
    ensures var st := StepBatch(cfg, State(old(key2vec.entries), Running), b, j);
            key2vec.entries == st.dict && status == st.status
    ensures Fits(Classify(b.d1, b.d2, cfg.known, cfg.unknown), |b.d1|)
    ensures status.Running? ==> acc == Advance(cfg, a, b, Classify(b.d1, b.d2, cfg.known, cfg.unknown))
    ensures status.Failed? ==> !status.failure.NoBatches? && status.failure.batch == j
  {
    acc := a;
    // the classification and its length assertion (lines 49-55)
    var s := Classify(b.d1, b.d2, cfg.known, cfg.unknown);
    ClassifyBounds(b.d1, b.d2, cfg.known, cfg.unknown);
    if |s.kk| + |s.ku| + |s.uu| != |b.d1| {
      return acc, Failed(PartitionMismatch(j));
    }

    if cfg.saveEmbed {
      var ok := key2vec.RegisterKey(b.d1, b.embed1);
      if !ok {
        return acc, Failed(KeyLengthMismatch(j));
      }
      ok := key2vec.RegisterKey(b.d2, b.embed2);
      if !ok {
        return acc, Failed(KeyLengthMismatch(j));
      }
    }
    acc, status := UpdateLocals(cfg, acc, b, s, j);
  }

  /** The part of the loop body after the model call (lines 80-138): the
      loss, the step counter, the metric lists and the progress decision. */
  method UpdateLocals(cfg: Config, a: Accum, b: Batch, s: Split, j: nat) returns (acc: Accum, status: Status)
    requires WellFormed(b) && Fits(s, |b.d1|)
    ensures status == if cfg.binary && |b.d1| == 0 then Failed(EmptyBinaryBatch(j))
                      else if cfg.printStep == 0 then Failed(PrintStepZero(j))
                      else Running
    ensures status.Running? ==> acc == Advance(cfg, a, b, s)
  {
    acc := a.(metrics := a.metrics.(loss := a.metrics.loss + [b.loss]), steps := a.steps + 1);
    var dIdx := (acc.steps - 1) * cfg.batchSize + |b.d1|;
    acc := CollectBatch(acc, b, s, cfg.binary);
    if cfg.binary && |acc.all.tar| == 0 {
      return acc, Failed(EmptyBinaryBatch(j));
    }
    acc := RecordBatch(acc, s, cfg.binary);

    // the progress-line decision (line 138)
    if cfg.printStep == 0 {
      return acc, Failed(PrintStepZero(j));
    }
    if acc.steps % cfg.printStep == 0 || dIdx == cfg.length {
      acc := acc.(printed := acc.printed + [acc.steps]);
    }
    return acc, Running;
  }

  /** `run_drug` for one epoch over a given sequence of batches. `printed`
      lists the steps at which a progress line is written, up to the batch
      that raises if one does. */
  method RunDrug(cfg: Config, batches: seq<Batch>, key2vec: KeyToVec) returns (outcome: Outcome, printed: seq<nat>)
    requires AllWellFormed(batches)
    modifies key2vec
    ensures key2vec.entries == RunBatches(cfg, old(key2vec.entries), batches).dict
    ensures outcome == EpochOutcome(cfg, old(key2vec.entries), batches)
    ensures RunBatches(cfg, old(key2vec.entries), batches).status.Running? ==>
              printed == EpochAcc(cfg, batches).printed
    ensures outcome.Err? && !outcome.failure.NoBatches? ==>
              outcome.failure.batch < |batches| && printed == AccAfter(cfg, batches, outcome.failure.batch).printed
  {
    ghost var m0 := key2vec.entries;
    ghost var ss := Splits(cfg, batches);
    SplitsOfClassify(cfg, batches);
    var acc := Fresh;
    var i := 0;
    while i < |batches|
      invariant 0 <= i <= |batches|
      invariant RunPrefix(cfg, m0, batches, i) == State(key2vec.entries, Running)
      invariant acc == AccPrefix(cfg, batches, ss, i)
    {
      var next, status := ProcessBatch(cfg, acc, batches[i], i, key2vec);
      if status.Failed? {
        StaysFailed(cfg, m0, batches, i + 1, |batches|);
        return Err(status.failure), acc.printed;
      }
      acc := next;
      i := i + 1;
    }
    printed := acc.printed;
    if acc.steps == 0 {
      return Err(NoBatches), printed;
    }
    if !cfg.binary {
      return Ok(LastScore(Pearson(acc.all.tar, acc.all.pred))), printed;
    }
    return Ok(MeanScore(acc.metrics.total)), printed;
  }
}
