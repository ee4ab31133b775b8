/**
 * The sequence bookkeeping of a conformer RNN-T model and its training
 * step: the length mask, the encoder output lengths, the prediction
 * network's loop over its LSTM layers, the joint network, the targets
 * with a leading blank, and the frame counter of the prior computation.
 * The torch modules themselves (feature extraction, conformer, LSTM,
 * linear layers, the RNN-T loss) are function parameters.
 */
module RnntSteps {
  import opened Common

  /** One feature or encoding vector. */
  type Vec = seq<real>

  // ---------------------------------------------------------------------
  // mask_tensor and the encoder output lengths
  // ---------------------------------------------------------------------

  /**
   * `mask_tensor(tensor, seq_len)` for a tensor whose time axis has `t`
   * positions: row `b` marks the positions before `seq_len[b]`.
   */
  function MaskTensor(t: nat, seqLen: seq<int>): (m: seq<seq<bool>>)
    ensures |m| == |seqLen| && forall b :: 0 <= b < |m| ==> |m[b]| == t
  {
    seq(|seqLen|, b requires 0 <= b < |seqLen| => MaskRow(t, seqLen[b]))
  }

  /** One row of the mask: `arange(t) < len`. */
  function MaskRow(t: nat, len: int): (row: seq<bool>)
    ensures |row| == t
  {
    seq(t, i requires 0 <= i < t => i < len)
  }

  /** `len` clamped to `0..t`: the number of positions a row of `t` can mark. */
  function Clamp(len: int, t: nat): nat
  {
    if len <= 0 then 0 else if len >= t then t else len
  }

  /** `torch.sum(mask, dim=1)`: the number of true entries per row. */
  function RowCounts(mask: seq<seq<bool>>): (c: seq<int>)
    ensures |c| == |mask|
  {
    seq(|mask|, b requires 0 <= b < |mask| => CountTrue(mask[b]))
  }

  /** A mask row has `min(len, t)` true entries (none for a non-positive length). */
  lemma {:induction false} MaskRowCount(t: nat, len: int)
    ensures CountTrue(MaskRow(t, len)) == Clamp(len, t)
    decreases t
  {
    if t > 0 {
      assert MaskRow(t, len)[..t - 1] == MaskRow(t - 1, len);
      MaskRowCount(t - 1, len);
    }
  }

  /**
   * Entry `[b][i]` of the mask is true exactly when `i < seq_len[b]`; the
   * true entries of each row form a prefix, and there are
   * `min(seq_len[b], t)` of them.
   */
  lemma MaskTensorRows(t: nat, seqLen: seq<int>, b: nat)
    requires b < |seqLen|
    ensures var row := MaskTensor(t, seqLen)[b];
            && (forall i :: 0 <= i < t ==> (row[i] <==> i < seqLen[b]))
            && (forall i, j :: 0 <= i <= j < t && row[j] ==> row[i])
            && CountTrue(row) == Clamp(seqLen[b], t)
  {
    MaskRowCount(t, seqLen[b]);
  }

  /** The row counts of a mask built by `mask_tensor` from lengths are those lengths, clamped to the time axis. */
  lemma RowCountsOfMask(t: nat, seqLen: seq<int>)
    ensures var c := RowCounts(MaskTensor(t, seqLen));
            forall b :: 0 <= b < |seqLen| ==> c[b] == Clamp(seqLen[b], t)
  {
    forall b | 0 <= b < |seqLen|
      ensures RowCounts(MaskTensor(t, seqLen))[b] == Clamp(seqLen[b], t)
    {
      MaskRowCount(t, seqLen[b]);
    }
  }

  // ---------------------------------------------------------------------
  // Predictor.forward
  // ---------------------------------------------------------------------

  /** The per-layer state an LSTM returns (hidden and cell state). */
  datatype LstmState = LstmState(h: seq<Vec>, c: seq<Vec>)

  /**
   * The torch modules of the prediction network: the input stage
   * (transpose, embedding, dropout, layer norm), each LSTM layer, the
   * dropout after it, and the output stage (linear, layer norm, transpose).
   */
  datatype PredictorNet<!H> = PredictorNet(
    numLayers: nat,
    embed: seq<seq<int>> -> H,
    lstm: (nat, H, Option<LstmState>) -> (H, LstmState),
    dropout: H -> H,
    project: H -> H)

  /**
   * The first `k` LSTM layers: layer `i` starts from `state[i]` when a
   * state is given (an `IndexError` when the list is too short), its
   * output goes through dropout, and its final state is collected.
   */
  function LstmStack<H>(net: PredictorNet<H>, x: H, state: Option<seq<LstmState>>, k: nat): Result<(H, seq<LstmState>)>
    decreases k
  {
    if k == 0 then Ok((x, []))
    else match LstmStack(net, x, state, k - 1)
      case Err(e) => Err(e)
      case Ok(prev) =>
        if state.Some? && k - 1 >= |state.value| then Err(IndexError)
        else
          var init := if state.None? then None else Some(state.value[k - 1]);
          var (y, s) := net.lstm(k - 1, prev.0, init);
          Ok((net.dropout(y), prev.1 + [s]))
  }

  /** `Predictor.forward(input, lengths, state)`: output, lengths, per-layer states. */
  function PredictorSpec<H>(net: PredictorNet<H>, input: seq<seq<int>>, lengths: seq<int>, state: Option<seq<LstmState>>)
    : Result<(H, seq<int>, seq<LstmState>)>
  {
    match LstmStack(net, net.embed(input), state, net.numLayers)
    case Err(e) => Err(e)
    case Ok((x, states)) => Ok((net.project(x), lengths, states))
  }

  /**
   * The LSTM stack fails exactly when a state list shorter than the
   * layer count is given; otherwise it yields one state per layer, layer
   * `i`'s state being what layer `i` returned.
   */
  lemma {:induction false} LstmStackStates<H>(net: PredictorNet<H>, x: H, state: Option<seq<LstmState>>, k: nat)
    ensures LstmStack(net, x, state, k).Ok? <==> state.None? || k <= |state.value|
    ensures LstmStack(net, x, state, k).Ok? ==> |LstmStack(net, x, state, k).value.1| == k
    decreases k
  {
    if k > 0 {
      LstmStackStates(net, x, state, k - 1);
    }
  }

  /**
   * The prediction network passes its lengths through unchanged and
   * returns one state per LSTM layer; without an initial state it cannot
   * fail.
   */
  lemma PredictorPassThrough<H>(net: PredictorNet<H>, input: seq<seq<int>>, lengths: seq<int>, state: Option<seq<LstmState>>)
    ensures var r := PredictorSpec(net, input, lengths, state);
            && (r.Ok? <==> state.None? || net.numLayers <= |state.value|)
            && (r.Ok? ==> r.value.1 == lengths && |r.value.2| == net.numLayers)
  {
    LstmStackStates(net, net.embed(input), state, net.numLayers);
  }

  /** `Predictor.forward`: the loop over the LSTM layers, appending each layer's state. */
  method PredictorForward<H>(net: PredictorNet<H>, input: seq<seq<int>>, lengths: seq<int>, state: Option<seq<LstmState>>)
    returns (r: Result<(H, seq<int>, seq<LstmState>)>)
    ensures r == PredictorSpec(net, input, lengths, state)
  {
    var x := net.embed(input);
    var states: seq<LstmState> := [];
    var i := 0;
    while i < net.numLayers
      invariant 0 <= i <= net.numLayers
      invariant LstmStack(net, net.embed(input), state, i) == Ok((x, states))
    {
      if state.Some? && i >= |state.value| {
        LstmStackFails(net, net.embed(input), state, i + 1, net.numLayers);
        return Err(IndexError);
      }
      var init := if state.None? then None else Some(state.value[i]);
      var (y, s) := net.lstm(i, x, init);
      x := net.dropout(y);
      states := states + [s];
      i := i + 1;
    }
    r := Ok((net.project(x), lengths, states));
  }

  /** A failed LSTM stack stays failed with more layers. */
  lemma {:induction false} LstmStackFails<H>(net: PredictorNet<H>, x: H, state: Option<seq<LstmState>>, k: nat, m: nat)
    requires k <= m && LstmStack(net, x, state, k).Err?
    ensures LstmStack(net, x, state, m) == LstmStack(net, x, state, k)
    decreases m
  {
    if m > k {
      LstmStackFails(net, x, state, k, m - 1);
    }
  }

  // ---------------------------------------------------------------------
  // Joiner
  // ---------------------------------------------------------------------

  datatype Activation = Relu | Tanh

  /** A constructed joint network: its linear layer's sizes, activation and dropout. */
  datatype Joiner = Joiner(inputDim: int, outputDim: int, activation: Activation, dropout: real)

  /** `Joiner.__init__`: only `relu` and `tanh` are accepted. */
  function NewJoiner(inputDim: int, outputDim: int, activation: string, dropout: real): (r: Result<Joiner>)
    ensures r.Ok? <==> activation == "relu" || activation == "tanh"
    ensures r.Ok? ==> r.value.inputDim == inputDim && r.value.outputDim == outputDim && r.value.dropout == dropout
    ensures r.Ok? ==> (r.value.activation == Relu <==> activation == "relu")
    ensures r.Err? ==> r.error == ValueError("Unsupported activation " + activation)
  {
    if activation == "relu" then Ok(Joiner(inputDim, outputDim, Relu, dropout))
    else if activation == "tanh" then Ok(Joiner(inputDim, outputDim, Tanh, dropout))
    else Err(ValueError("Unsupported activation " + activation))
  }

  /** The model's sizes: the label inventory without blank, and the joint dimension. */
  datatype RnntConfig = RnntConfig(labelTargetSize: nat, joinerDim: int, joinerActivation: string)

  /**
   * The joint network the model builds: it maps the joint dimension to
   * the labels plus blank, and is built without a dropout argument.
   */
  function ModelJoiner(cfg: RnntConfig): (r: Result<Joiner>)
    ensures r.Ok? <==> cfg.joinerActivation in {"relu", "tanh"}
    ensures r.Ok? ==> r.value.outputDim == cfg.labelTargetSize + 1 && r.value.inputDim == cfg.joinerDim
    ensures r.Ok? ==> r.value.dropout == 0.0
  {
    NewJoiner(cfg.joinerDim, cfg.labelTargetSize + 1, cfg.joinerActivation, 0.0)
  }

  /**
   * `Joiner.forward` without dropout: entry `[b][t][u]` is the output
   * projection (`self.linear`) of the activation of source frame `t` plus
   * target position `u` of sequence `b`; the lengths pass through. Batch
   * sizes that differ do not broadcast.
   */
  function JoinerForward(j: Joiner, add: (Vec, Vec) -> Vec, act: (Activation, Vec) -> Vec, linear: Vec -> Vec,
                         src: seq<seq<Vec>>, srcLen: seq<int>, tgt: seq<seq<Vec>>, tgtLen: seq<int>)
    : (r: Result<(seq<seq<seq<Vec>>>, seq<int>, seq<int>)>)
    ensures r.Ok? <==> |src| == |tgt|
    ensures r.Ok? ==> r.value.1 == srcLen && r.value.2 == tgtLen
    ensures r.Ok? ==> var out := r.value.0;
                      && |out| == |src|
                      && forall b :: 0 <= b < |src| ==>
                           && |out[b]| == |src[b]|
                           && forall t :: 0 <= t < |src[b]| ==>
                                && |out[b][t]| == |tgt[b]|
                                && forall u :: 0 <= u < |tgt[b]| ==> out[b][t][u] == linear(act(j.activation, add(src[b][t], tgt[b][u])))
  {
    if |src| != |tgt| then Err(RuntimeError("the batch sizes do not match"))
    else
      Ok((seq(|src|, b requires 0 <= b < |src| =>
            seq(|src[b]|, t requires 0 <= t < |src[b]| =>
              seq(|tgt[b]|, u requires 0 <= u < |tgt[b]| => linear(act(j.activation, add(src[b][t], tgt[b][u])))))),
          srcLen, tgtLen))
  }

  // ---------------------------------------------------------------------
  // Model.forward
  // ---------------------------------------------------------------------

  /** Feature extraction output: frames, the length of the time axis and the per-sequence lengths. */
  datatype Features = Features(frames: seq<seq<Vec>>, time: nat, lens: seq<int>)

  /**
   * The model's torch modules: feature extraction (with SpecAugment when
   * training), the conformer encoder followed by its output projection
   * (which returns the frames and the down-sampled mask), the prediction
   * network, and the joint network with its vector operations (the sum,
   * the activation and the output projection).
   */
  datatype RnntModel = RnntModel(
    cfg: RnntConfig,
    features: (seq<seq<real>>, seq<int>) -> Features,
    encoder: (seq<seq<Vec>>, seq<seq<bool>>) -> (seq<seq<Vec>>, seq<seq<bool>>),
    predictor: PredictorNet<seq<seq<Vec>>>,
    joiner: Joiner,
    add: (Vec, Vec) -> Vec,
    act: (Activation, Vec) -> Vec,
    linear: Vec -> Vec)

  /**
   * `Model.forward`: the encoder sees the length mask of the features,
   * its output lengths are the row counts of the mask it returns, and
   * the joint network's logits come back with those lengths.
   */
  function ModelForward(m: RnntModel, audio: seq<seq<real>>, audioLen: seq<int>, labels: seq<seq<int>>, labelsLen: seq<int>)
    : Result<(seq<seq<seq<Vec>>>, seq<int>)>
  {
    var f := m.features(audio, audioLen);
    var (enc, outMask) := m.encoder(f.frames, MaskTensor(f.time, f.lens));
    match PredictorSpec(m.predictor, labels, labelsLen, None)
    case Err(e) => Err(e)
    case Ok(p) =>
      match JoinerForward(m.joiner, m.add, m.act, m.linear, enc, RowCounts(outMask), p.0, p.1)
      case Err(e) => Err(e)
      case Ok(j) => Ok((j.0, j.1))
  }

  /**
   * The lengths `Model.forward` returns are the per-sequence counts of
   * the encoder's output mask. The second conjunct describes only a
   * non-subsampling encoder, one that hands back the mask it is given:
   * for it the lengths are the feature lengths clamped to the time axis.
   * The VGG frontend subsamples, so for the source's encoder only the
   * first conjunct applies.
   */
  lemma ModelForwardLengths(m: RnntModel, audio: seq<seq<real>>, audioLen: seq<int>, labels: seq<seq<int>>, labelsLen: seq<int>)
    requires ModelForward(m, audio, audioLen, labels, labelsLen).Ok?
    ensures var f := m.features(audio, audioLen);
            var mask := MaskTensor(f.time, f.lens);
            var lens := ModelForward(m, audio, audioLen, labels, labelsLen).value.1;
            && lens == RowCounts(m.encoder(f.frames, mask).1)
            && (m.encoder(f.frames, mask).1 == mask ==> forall b :: 0 <= b < |f.lens| ==> lens[b] == Clamp(f.lens[b], f.time))
  {
    var f := m.features(audio, audioLen);
    PredictorPassThrough(m.predictor, labels, labelsLen, None);
    RowCountsOfMask(f.time, f.lens);
  }

  // ---------------------------------------------------------------------
  // train_step
  // ---------------------------------------------------------------------

  /** Every row of `labels` has `n` entries (a `[B, N]` tensor). */
  predicate Rectangular(labels: seq<seq<int>>, n: nat)
  {
    forall b :: 0 <= b < |labels| ==> |labels[b]| == n
  }

  /** The targets with a leading blank, row by row. */
  function Prepended(labels: seq<seq<int>>, blank: int): (p: seq<seq<int>>)
    ensures |p| == |labels|
  {
    seq(|labels|, b requires 0 <= b < |labels| => [blank] + labels[b])
  }

  /**
   * The blank-prepended targets are one column wider; column 0 holds
   * the blank and column `j + 1` the label in column `j`.
   */
  lemma PrependedShape(labels: seq<seq<int>>, n: nat, blank: int)
    requires Rectangular(labels, n)
    ensures Rectangular(Prepended(labels, blank), n + 1)
    ensures forall b :: 0 <= b < |labels| ==> Prepended(labels, blank)[b][0] == blank && Prepended(labels, blank)[b][1..] == labels[b]
  {
    forall b | 0 <= b < |labels|
      ensures Prepended(labels, blank)[b][1..] == labels[b]
    {
      assert ([blank] + labels[b])[1..] == labels[b];
    }
  }

  /** The rows of a two-dimensional array. */
  function Rows(t: array2<int>): (rows: seq<seq<int>>)
    reads t
    ensures |rows| == t.Length0 && Rectangular(rows, t.Length1)
  {
    seq(t.Length0, b requires 0 <= b < t.Length0 reads t => seq(t.Length1, j requires 0 <= j < t.Length1 reads t => t[b, j]))
  }

  /**
   * `labels.new_empty([B, N + 1])`, then `[:, 1:] = labels` and
   * `[:, 0] = blank`.
   */
  method PrependBlank(labels: seq<seq<int>>, n: nat, blank: int) returns (t: array2<int>)
    requires Rectangular(labels, n)
    ensures fresh(t) && t.Length0 == |labels| && t.Length1 == n + 1
    ensures Rows(t) == Prepended(labels, blank)
  {
    t := new int[|labels|, n + 1];
    var b := 0;
    while b < |labels|
      invariant 0 <= b <= |labels|
      invariant forall c, j :: 0 <= c < b && 0 <= j < n ==> t[c, j + 1] == labels[c][j]
    {
      var j := 0;
      while j < n
        invariant 0 <= j <= n
        invariant forall c, k :: 0 <= c < b && 0 <= k < n ==> t[c, k + 1] == labels[c][k]
        invariant forall k :: 0 <= k < j ==> t[b, k + 1] == labels[b][k]
      {
        t[b, j + 1] := labels[b][j];
        j := j + 1;
      }
      b := b + 1;
    }
    b := 0;
    while b < |labels|
      invariant 0 <= b <= |labels|
      invariant forall c, j :: 0 <= c < |labels| && 0 <= j < n ==> t[c, j + 1] == labels[c][j]
      invariant forall c :: 0 <= c < b ==> t[c, 0] == blank
    {
      t[b, 0] := blank;
      b := b + 1;
    }
    forall b | 0 <= b < |labels|
      ensures Rows(t)[b] == Prepended(labels, blank)[b]
    {
      assert forall j :: 0 <= j < n + 1 ==> Rows(t)[b][j] == ([blank] + labels[b])[j];
    }
  }

  /** `labels_len + 1`. */
  function PrependedLengths(lens: seq<int>): (r: seq<int>)
    ensures |r| == |lens| && forall b :: 0 <= b < |lens| ==> r[b] == lens[b] + 1
  {
    seq(|lens|, b requires 0 <= b < |lens| => lens[b] + 1)
  }

  /** One `run_ctx.mark_as_loss` call with the RNN-T loss's arguments. */
  datatype LossMark = LossMark(name: string, logits: seq<seq<seq<Vec>>>, logitLengths: seq<int>,
                               targets: seq<seq<int>>, targetLengths: seq<int>, invNormFactor: int)

  /** `train_step`: the model sees the blank-prepended targets, the loss the original ones. */
  function TrainStepSpec(m: RnntModel, audio: seq<seq<real>>, audioLen: seq<int>, labels: seq<seq<int>>, labelsLen: seq<int>)
    : Result<LossMark>
  {
    match ModelForward(m, audio, audioLen, Prepended(labels, m.cfg.labelTargetSize), PrependedLengths(labelsLen))
    case Err(e) => Err(e)
    case Ok((logits, lens)) => Ok(LossMark("rnnt", logits, lens, labels, labelsLen, Sum(labelsLen)))
  }

  /**
   * The RNN-T loss is named `rnnt` and computed against the original
   * labels and lengths, normalised by the total label count; its logit
   * lengths are what the model returns for the blank-prepended targets
   * (whose blank is the last index, `label_target_size`): the row counts
   * of the encoder's output mask.
   */
  lemma TrainStepLoss(m: RnntModel, audio: seq<seq<real>>, audioLen: seq<int>, labels: seq<seq<int>>, labelsLen: seq<int>)
    requires TrainStepSpec(m, audio, audioLen, labels, labelsLen).Ok?
    ensures var mark := TrainStepSpec(m, audio, audioLen, labels, labelsLen).value;
            var fwd := ModelForward(m, audio, audioLen, Prepended(labels, m.cfg.labelTargetSize), PrependedLengths(labelsLen));
            && mark.name == "rnnt"
            && mark.targets == labels && mark.targetLengths == labelsLen
            && mark.invNormFactor == Sum(labelsLen)
            && fwd.Ok? && mark.logits == fwd.value.0 && mark.logitLengths == fwd.value.1
            && var f := m.features(audio, audioLen);
               mark.logitLengths == RowCounts(m.encoder(f.frames, MaskTensor(f.time, f.lens)).1)
  {
    ModelForwardLengths(m, audio, audioLen, Prepended(labels, m.cfg.labelTargetSize), PrependedLengths(labelsLen));
  }

  /** `train_step`: fills the prepended targets in place, runs the model and marks the loss. */
  method TrainStep(m: RnntModel, audio: seq<seq<real>>, audioLen: seq<int>, labels: seq<seq<int>>, n: nat, labelsLen: seq<int>)
    returns (r: Result<LossMark>)
    requires Rectangular(labels, n)
    ensures r == TrainStepSpec(m, audio, audioLen, labels, labelsLen)
  {
    var prepended := PrependBlank(labels, n, m.cfg.labelTargetSize);
    var targets := Rows(prepended);
    var lens := PrependedLengths(labelsLen);
    var out := ModelForward(m, audio, audioLen, targets, lens);
    if out.Err? {
      return Err(out.error);
    }
    r := Ok(LossMark("rnnt", out.value.0, out.value.1, labels, labelsLen, Sum(labelsLen)));
  }

  // ---------------------------------------------------------------------
  // prior_init_hook / prior_step
  // ---------------------------------------------------------------------

  /** Sum of all lengths over several batches. */
  function TotalFrames(batches: seq<seq<int>>): int
    decreases |batches|
  {
    if batches == [] then 0 else TotalFrames(batches[..|batches| - 1]) + Sum(batches[|batches| - 1])
  }

  /** Element-wise sum of two vectors of one length. */
  function AddVec(a: Vec, b: Vec): (c: Vec)
    requires |a| == |b|
    ensures |c| == |a|
  {
    seq(|a|, i requires 0 <= i < |a| => a[i] + b[i])
  }

  /** Element-wise sum of vectors of length `v`. */
  function TotalProbs(batches: seq<Vec>, v: nat): (s: Vec)
    requires forall k :: 0 <= k < |batches| ==> |batches[k]| == v
    ensures |s| == v
    decreases |batches|
  {
    if batches == [] then seq(v, _ => 0.0)
    else AddVec(TotalProbs(batches[..|batches| - 1], v), batches[|batches| - 1])
  }

  /** Entry `i` of the total is the sum of entry `i` of each batch. */
  lemma {:induction false} TotalProbsAt(batches: seq<Vec>, v: nat, i: nat)
    requires forall k :: 0 <= k < |batches| ==> |batches[k]| == v
    requires i < v
    ensures TotalProbs(batches, v)[i] == SumReal(seq(|batches|, k requires 0 <= k < |batches| => batches[k][i]))
    decreases |batches|
  {
    if batches != [] {
      var pre := batches[..|batches| - 1];
      TotalProbsAt(pre, v, i);
      assert seq(|batches|, k requires 0 <= k < |batches| => batches[k][i])[..|pre|]
             == seq(|pre|, k requires 0 <= k < |pre| => pre[k][i]);
    }
  }

  /**
   * The forward context of the prior computation: `sum_frames`, and
   * `sum_probs` (None until the first step). The batches seen so far are
   * ghost state that states what the two counters hold.
   */
  class PriorContext {
    var sumFrames: int
    var sumProbs: Option<Vec>
    ghost var lensSeen: seq<seq<int>>
    ghost var probsSeen: seq<Vec>
    const numLabels: nat

    ghost predicate Valid()
      reads this
    {
      && |lensSeen| == |probsSeen|
      && (forall k :: 0 <= k < |probsSeen| ==> |probsSeen[k]| == numLabels)
      && sumFrames == TotalFrames(lensSeen)
      && (sumProbs.None? <==> probsSeen == [])
      && (sumProbs.Some? ==> sumProbs.value == TotalProbs(probsSeen, numLabels))
    }

    /** `prior_init_hook`: no frames, no probabilities. */
    constructor(numLabels: nat)
      ensures Valid() && this.numLabels == numLabels
      ensures sumFrames == 0 && sumProbs.None? && lensSeen == [] && probsSeen == []
    {
      this.numLabels := numLabels;
      sumFrames := 0;
      sumProbs := None;
      lensSeen := [];
      probsSeen := [];
    }

    /**
     * The counter update of `prior_step` for one batch: `sum_frames` grows
     * by the batch's total length; `sum_probs` is set on the first step and
     * accumulated afterwards (`probs` is the batch's probability mass
     * per label, summed over sequences and frames).
     */
    method Step(lens: seq<int>, probs: Vec)
      requires Valid() && |probs| == numLabels
      modifies this
      ensures Valid()
      ensures lensSeen == old(lensSeen) + [lens] && probsSeen == old(probsSeen) + [probs]
      ensures sumFrames == old(sumFrames) + Sum(lens)
      ensures sumProbs == Some(if old(sumProbs).None? then probs else AddVec(old(sumProbs).value, probs))
    {
      sumFrames := sumFrames + Sum(lens);
      if sumProbs.None? {
        sumProbs := Some(probs);
      } else {
        sumProbs := Some(AddVec(sumProbs.value, probs));
      }
      ghost var seen := probsSeen;
      lensSeen := lensSeen + [lens];
      probsSeen := probsSeen + [probs];
      assert lensSeen[..|lensSeen| - 1] == old(lensSeen);
      assert probsSeen[..|probsSeen| - 1] == seen;
      if seen == [] {
        assert TotalProbs([], numLabels) == seq(numLabels, _ => 0.0);
        assert AddVec(seq(numLabels, _ => 0.0), probs) == probs;
      }
    }
  }

  /** After any sequence of steps the frame counter is the total length of all batches seen. */
  lemma {:induction false} TotalFramesAppend(batches: seq<seq<int>>, more: seq<seq<int>>)
    ensures TotalFrames(batches + more) == TotalFrames(batches) + TotalFrames(more)
    decreases |more|
  {
    if more == [] {
      assert batches + more == batches;
    } else {
      assert (batches + more)[..|batches + more| - 1] == batches + more[..|more| - 1];
      TotalFramesAppend(batches, more[..|more| - 1]);
    }
  }
}
