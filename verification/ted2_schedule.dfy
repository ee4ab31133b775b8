/**
 * The decision rules of the TED-LIUM 2 attention baseline's experiment
 * script: which epochs are recognised, how the LM / prior scale grid is
 * enumerated and filtered, which batch and time requirements a search
 * gets, which checkpoint it uses, how runs are named, how the mini-LSTM
 * (or FFN) ILM estimator is wired, and the learning-rate schedules.
 *
 * The global checkpoint registries (`train_job_avg_ckpt`,
 * `train_job_best_epoch`) and the LM option tables are fields of the
 * `Experiments` class; the searches and trainings the script schedules
 * are returned as values instead of being registered as jobs.
 */
module Ted2Schedule {
  import opened Common
  import opened PyValues

  /** `os.path.basename(__file__)` without `.py`. */
  const PrefixName: string := "ted2_att_baseline"

  const Bpe10k: int := 10000
  const Bpe5k: int := 5000

  /** A training job: its name and `out_checkpoints`. */
  datatype TrainJob = TrainJob(name: string, outCheckpoints: map<int, Ckpt>)

  // ---------------------------------------------------------------------
  // Recognition epochs
  // ---------------------------------------------------------------------

  /** `int(num_epochs / 80)`: the quotient truncated toward zero. */
  function TruncDiv80(n: int): int
  {
    if n >= 0 then n / 80 else -((-n) / 80)
  }

  /**
   * The default epochs to recognise: 40, every multiple of 80 up to the
   * last epoch, and the last epoch itself when it is not a multiple of 80.
   */
  function DefaultRecogEpochs(numEpochs: int): (r: seq<int>)
  {
    var k := if TruncDiv80(numEpochs) > 0 then TruncDiv80(numEpochs) else 0;
    [40] + seq(k, i requires 0 <= i < k => 80 * (i + 1)) + (if numEpochs % 80 != 0 then [numEpochs] else [])
  }

  /** Explicit `recog_epochs` are used as given. */
  function RecogEpochs(recogEpochs: Option<seq<int>>, numEpochs: int): seq<int>
  {
    match recogEpochs
    case Some(es) => es
    case None => DefaultRecogEpochs(numEpochs)
  }

  /**
   * For a positive number of epochs the default schedule holds exactly 40,
   * the positive multiples of 80 not beyond the last epoch, and the last
   * epoch; it has 1 + n/80 entries plus one for a last epoch off the
   * 80-grid, and it ends with the last epoch.
   */
  lemma DefaultRecogEpochsMembers(numEpochs: int, e: int)
    requires numEpochs > 0
    ensures var r := DefaultRecogEpochs(numEpochs);
            && (e in r <==> e == 40 || (e % 80 == 0 && 0 < e <= numEpochs) || e == numEpochs)
            && |r| == 1 + numEpochs / 80 + (if numEpochs % 80 != 0 then 1 else 0)
            && r[|r| - 1] == numEpochs
  {
    var k := numEpochs / 80;
    var mid := seq(k, i requires 0 <= i < k => 80 * (i + 1));
    var r := DefaultRecogEpochs(numEpochs);
    assert r == [40] + mid + (if numEpochs % 80 != 0 then [numEpochs] else []);
    if e % 80 == 0 && 0 < e <= numEpochs {
      assert mid[e / 80 - 1] == e;
      assert r[e / 80] == e;
    }
    if e in mid {
      var i :| 0 <= i < k && mid[i] == e;
    }
    if numEpochs % 80 == 0 {
      assert mid[k - 1] == numEpochs;
    }
  }

  /**
   * With more than 40 epochs the default schedule is strictly increasing
   * (with exactly 40 it recognises epoch 40 twice).
   */
  lemma DefaultRecogEpochsIncreasing(numEpochs: int, i: int, j: int)
    requires numEpochs > 40
    requires 0 <= i < j < |DefaultRecogEpochs(numEpochs)|
    ensures DefaultRecogEpochs(numEpochs)[i] < DefaultRecogEpochs(numEpochs)[j]
  {
    var k := numEpochs / 80;
    var r := DefaultRecogEpochs(numEpochs);
    assert r[0] == 40;
    assert forall u :: 1 <= u <= k ==> r[u] == 80 * u;
    if j == k + 1 {
      assert r[j] == numEpochs;
      assert k * 80 < numEpochs;
    }
  }

  lemma DefaultRecogEpochsFortyTwice()
    ensures DefaultRecogEpochs(40) == [40, 40]
  {
  }

  // ---------------------------------------------------------------------
  // Learning-rate schedules
  // ---------------------------------------------------------------------

  /** `numpy.linspace(a, b, n)` with its end point included. */
  function Linspace(a: real, b: real, n: nat): (r: seq<real>)
    ensures |r| == n
  {
    if n == 0 then []
    else if n == 1 then [a]
    else seq(n, i requires 0 <= i < n => a + (b - a) * (i as real) / ((n - 1) as real))
  }

  lemma LinspaceEnds(a: real, b: real, n: nat)
    requires n >= 1
    ensures Linspace(a, b, n)[0] == a
    ensures n >= 2 ==> Linspace(a, b, n)[n - 1] == b
  {
    if n >= 2 {
      var d := (n - 1) as real;
      assert (b - a) * d / d == b - a;
    }
  }

  /** `int(0.45 * ep)`, read as exact arithmetic. */
  function CycleEpochs(ep: nat): (c: nat)
    ensures 2 * c <= ep
  {
    (45 * ep) / 100
  }

  /** The epoch-wise one-cycle schedule of `get_base_v1_args`. */
  function OclrList(lr: real, ep: nat): seq<real>
  {
    var c := CycleEpochs(ep);
    Linspace(lr / 10.0, lr, c) + Linspace(lr, lr / 10.0, c) + Linspace(lr / 10.0, 0.000001, ep - 2 * c)
  }

  /**
   * The one-cycle schedule has one rate per epoch: it rises from lr/10 to
   * the peak lr, holds the peak for a second epoch, falls back to lr/10
   * and then anneals to 1e-6.
   */
  lemma OclrListShape(lr: real, ep: nat)
    ensures |OclrList(lr, ep)| == ep
    ensures var c := CycleEpochs(ep);
            && (c >= 1 ==> OclrList(lr, ep)[0] == lr / 10.0)
            && (c >= 2 ==> OclrList(lr, ep)[c - 1] == lr && OclrList(lr, ep)[c] == lr
                           && OclrList(lr, ep)[2 * c - 1] == lr / 10.0)
            && (ep - 2 * c >= 2 ==> OclrList(lr, ep)[ep - 1] == 0.000001)
  {
    var c := CycleEpochs(ep);
    var up := Linspace(lr / 10.0, lr, c);
    var down := Linspace(lr, lr / 10.0, c);
    var tail := Linspace(lr / 10.0, 0.000001, ep - 2 * c);
    if c >= 1 {
      LinspaceEnds(lr / 10.0, lr, c);
      LinspaceEnds(lr, lr / 10.0, c);
    }
    if ep - 2 * c >= 1 {
      LinspaceEnds(lr / 10.0, 0.000001, ep - 2 * c);
    }
    assert OclrList(lr, ep) == up + down + tail;
  }

  /** The retraining schedule: lr held for 8 epochs, then annealed to 1e-6 over 192. */
  function RetrainLrList(lr: real): seq<real>
  {
    seq(8, _ => lr) + Linspace(lr, 0.000001, 200 - 8)
  }

  lemma RetrainLrListShape(lr: real)
    ensures |RetrainLrList(lr)| == 200
    ensures forall i :: 0 <= i <= 8 ==> RetrainLrList(lr)[i] == lr
    ensures RetrainLrList(lr)[199] == 0.000001
  {
    LinspaceEnds(lr, 0.000001, 192);
  }

  /** The list value stored under `learning_rates_list`. */
  function RealList(xs: seq<real>): (v: Val)
    ensures v.VList? && |v.items| == |xs|
    ensures forall i :: 0 <= i < |xs| ==> v.items[i] == VReal(xs[i])
  {
    VList(seq(|xs|, i requires 0 <= i < |xs| => VReal(xs[i])))
  }

  /** The experiment name `get_base_v1_args` returns. */
  function BaseV1Name(lr: real, ep: nat, encDrop: real, pretrainReps: int, fmt: Fmt): string
  {
    "base_bpe1000_peakLR" + fmt.showReal(lr) + "_ep" + NatToString(ep) + "_globalNorm_epochOCLR_pre"
    + IntToString(pretrainReps) + "_fixZoneout_encDrop" + fmt.showReal(encDrop) + "_woDepthConvPre"
  }

  /** The keys `get_base_v1_args` writes, besides the popped `oclr_opts`. */
  const BaseV1Keys: set<string> :=
    {"learning_rates_list", "global_stats", "pretrain_reps", "pretrain_opts", "encoder_args", "decoder_args"}

  /**
   * `get_base_v1_args`: a copy of the OCLR arguments without `oclr_opts`,
   * with the epoch-wise one-cycle schedule, global feature statistics,
   * pretraining repetitions, `conv_kernel_size` ignored when pretraining
   * reduces dimensions, the encoder dropouts and the decoder's zoneout
   * output set; every other key is copied unchanged (`BaseV1ArgsKeys`,
   * `BaseV1ArgsValues`).  It fails when `oclr_opts` or `pretrain_opts` is
   * missing, when `pretrain_opts` is not a dict, or when either args
   * object is missing or not an object.
   */
  function BaseV1Args(oclrArgs: Dict, lr: real, ep: nat, encDrop: real, pretrainReps: int,
                      globalMean: Val, globalStd: Val, fmt: Fmt): (r: Result<(Dict, string)>)
    ensures r.Ok? <==> && "oclr_opts" in oclrArgs
                       && "pretrain_opts" in oclrArgs && oclrArgs["pretrain_opts"].VDict?
                       && "encoder_args" in oclrArgs && oclrArgs["encoder_args"].VObj?
                       && "decoder_args" in oclrArgs && oclrArgs["decoder_args"].VObj?
    ensures "oclr_opts" !in oclrArgs ==> r == Err(KeyError("oclr_opts"))
    ensures "oclr_opts" in oclrArgs && "pretrain_opts" !in oclrArgs ==> r == Err(KeyError("pretrain_opts"))
    ensures "oclr_opts" in oclrArgs && "pretrain_opts" in oclrArgs && !oclrArgs["pretrain_opts"].VDict? ==>
              r.Err? && r.error.TypeError?
    ensures r.Ok? ==> r.value.1 == BaseV1Name(lr, ep, encDrop, pretrainReps, fmt)
  {
    if "oclr_opts" !in oclrArgs then Err(KeyError("oclr_opts"))
    else
      var a1 := (oclrArgs - {"oclr_opts"})["learning_rates_list" := RealList(OclrList(lr, ep))]
                ["global_stats" := VDict(map["mean" := globalMean, "stddev" := globalStd])]
                ["pretrain_reps" := VInt(pretrainReps)];
      if "pretrain_opts" !in a1 then Err(KeyError("pretrain_opts"))
      else if !a1["pretrain_opts"].VDict? then Err(TypeError("object does not support item assignment"))
      else
        var a2 := a1["pretrain_opts" := VDict(a1["pretrain_opts"].entries["ignored_keys_for_reduce_dim" :=
                                                                            VList([VStr("conv_kernel_size")])])];
        match SetAttr(a2, "encoder_args", "dropout", VReal(encDrop))
        case Err(e) => Err(e)
        case Ok(a3) =>
          var a4 := SetAttr(a3, "encoder_args", "dropout_in", VReal(encDrop)).value;
          var a5 := SetAttr(a4, "encoder_args", "att_dropout", VReal(encDrop)).value;
          match SetAttr(a5, "decoder_args", "use_zoneout_output", VBool(true))
          case Err(e) => Err(e)
          case Ok(a6) => Ok((a6, BaseV1Name(lr, ep, encDrop, pretrainReps, fmt)))
  }

  /** The keys of the base arguments: `oclr_opts` popped, three keys added, every untouched key copied. */
  lemma BaseV1ArgsKeys(oclrArgs: Dict, lr: real, ep: nat, encDrop: real, pretrainReps: int,
                       globalMean: Val, globalStd: Val, fmt: Fmt)
    requires BaseV1Args(oclrArgs, lr, ep, encDrop, pretrainReps, globalMean, globalStd, fmt).Ok?
    ensures var a := BaseV1Args(oclrArgs, lr, ep, encDrop, pretrainReps, globalMean, globalStd, fmt).value.0;
            && a.Keys == oclrArgs.Keys - {"oclr_opts"} + {"learning_rates_list", "global_stats", "pretrain_reps"}
            && "oclr_opts" !in a
            && forall k :: k in oclrArgs && k != "oclr_opts" && k !in BaseV1Keys ==> k in a && a[k] == oclrArgs[k]
  {
  }

  /** The values the base arguments set. */
  lemma BaseV1ArgsValues(oclrArgs: Dict, lr: real, ep: nat, encDrop: real, pretrainReps: int,
                         globalMean: Val, globalStd: Val, fmt: Fmt)
    requires BaseV1Args(oclrArgs, lr, ep, encDrop, pretrainReps, globalMean, globalStd, fmt).Ok?
    ensures "pretrain_opts" in oclrArgs && oclrArgs["pretrain_opts"].VDict?
    ensures "encoder_args" in oclrArgs && oclrArgs["encoder_args"].VObj?
    ensures "decoder_args" in oclrArgs && oclrArgs["decoder_args"].VObj?
    ensures var a := BaseV1Args(oclrArgs, lr, ep, encDrop, pretrainReps, globalMean, globalStd, fmt).value.0;
            && "learning_rates_list" in a && a["learning_rates_list"] == RealList(OclrList(lr, ep))
            && "global_stats" in a && a["global_stats"] == VDict(map["mean" := globalMean, "stddev" := globalStd])
            && "pretrain_reps" in a && a["pretrain_reps"] == VInt(pretrainReps)
            && "pretrain_opts" in a
            && a["pretrain_opts"] == VDict(oclrArgs["pretrain_opts"].entries["ignored_keys_for_reduce_dim" :=
                                                                               VList([VStr("conv_kernel_size")])])
            && "encoder_args" in a
            && a["encoder_args"] == VObj(oclrArgs["encoder_args"].cls,
                                         oclrArgs["encoder_args"].attrs["dropout" := VReal(encDrop)]
                                           ["dropout_in" := VReal(encDrop)]["att_dropout" := VReal(encDrop)])
            && "decoder_args" in a
            && a["decoder_args"] == VObj(oclrArgs["decoder_args"].cls,
                                         oclrArgs["decoder_args"].attrs["use_zoneout_output" := VBool(true)])
  {
  }

  // ---------------------------------------------------------------------
  // LM fusion: scale grid, requirements, checkpoint, run arguments
  // ---------------------------------------------------------------------

  /** A scale argument: a single float or a list of floats. */
  datatype Scales = Scalar(x: real) | ScaleList(xs: seq<real>)

  /** `test_set_names`: a single name, a list of names, or some other value. */
  datatype TestSets = OneTestSet(name: string) | TestSetList(names: seq<string>) | NotAList

  /** `epoch`: a string (`"avg"`, `"best"`, ...) or an int. */
  datatype EpochArg = EpochStr(s: string) | EpochInt(n: int)

  /** The keyword arguments `run_lm_fusion` reads from `**kwargs`. */
  datatype FusionKwargs = FusionKwargs(batchSize: Option<Val>, decoderArgs: Option<Dict>,
                                       ilmTrainOpts: Option<Dict>, timeRqmt: Option<Val>)

  datatype FusionRequest = FusionRequest(
    lmType: string, expName: string, epoch: EpochArg, testSets: TestSets, lmScales: Scales,
    trainJob: TrainJob, bpeSize: int, args: Dict, beamSize: int, priorScales: Option<Scales>,
    priorType: Option<string>, miniLstmCkpt: Option<Ckpt>, lengthNorm: bool,
    priorTypeName: Option<string>, coverageScale: Option<real>, coverageThreshold: Option<real>,
    kwargs: FusionKwargs)

  /** One point of the grid: an LM scale and, with prior scales given, a prior scale. */
  type ScalePair = (real, Option<real>)

  /** One call of `run_single_search`. */
  datatype Run = Run(name: string, args: Dict, checkpoint: Ckpt, testSet: string, timeRqmt: Val)

  /** `if isinstance(lm_scales, float): lm_scales = [lm_scales]`. */
  function AsList(s: Scales): seq<real>
  {
    match s
    case Scalar(x) => [x]
    case ScaleList(xs) => xs
  }

  /**
   * The prior scales that open the product grid: none when they are
   * absent, a zero float or an empty list (all falsy).
   */
  function PriorList(p: Option<Scales>): seq<real>
  {
    match p
    case None => []
    case Some(Scalar(x)) => if x != 0.0 then [x] else []
    case Some(ScaleList(xs)) => xs
  }

  /** `itertools.product(xs, ys)`: the pairs in row-major order. */
  function Product<A, B>(xs: seq<A>, ys: seq<B>): (r: seq<(A, B)>)
    decreases |xs|
  {
    if xs == [] then [] else seq(|ys|, j requires 0 <= j < |ys| => (xs[0], ys[j])) + Product(xs[1..], ys)
  }

  lemma {:induction false} ProductLength<A, B>(xs: seq<A>, ys: seq<B>)
    ensures |Product(xs, ys)| == |xs| * |ys|
    decreases |xs|
  {
    if xs != [] {
      ProductLength(xs[1..], ys);
      assert |xs| * |ys| == |ys| + (|xs| - 1) * |ys|;
    }
  }

  /** Row `i`, column `j` of an `k` by `n` grid lies inside it and one row past row `i - 1`. */
  lemma RowMajorIndex(i: nat, j: nat, k: nat, n: nat)
    requires i < k && j < n
    ensures i * n + j < k * n
    ensures i > 0 ==> i * n + j == n + ((i - 1) * n + j)
  {
    assert (i + 1) * n == i * n + n;
    assert (i + 1) * n <= k * n;
    if i > 0 {
      assert i * n == (i - 1) * n + n;
    }
  }

  /** Pair (i, j) of a product sits at index i * |ys| + j. */
  lemma {:induction false} ProductAt<A, B>(xs: seq<A>, ys: seq<B>, i: nat, j: nat)
    requires i < |xs| && j < |ys|
    ensures i * |ys| + j < |Product(xs, ys)|
    ensures Product(xs, ys)[i * |ys| + j] == (xs[i], ys[j])
    decreases i
  {
    ProductLength(xs, ys);
    RowMajorIndex(i, j, |xs|, |ys|);
    if i > 0 {
      ProductLength(xs[1..], ys);
      ProductAt(xs[1..], ys, i - 1, j);
      assert xs[1..][i - 1] == xs[i];
    }
  }


  /** Row i of a product: its pairs sit at indices i * |ys| to (i + 1) * |ys|. */
  lemma ProductRow<A, B>(xs: seq<A>, ys: seq<B>, i: nat)
    requires i < |xs|
    ensures (i + 1) * |ys| <= |Product(xs, ys)|
    ensures forall j :: 0 <= j < |ys| ==> Product(xs, ys)[i * |ys| + j] == (xs[i], ys[j])
  {
    ProductLength(xs, ys);
    assert (i + 1) * |ys| <= |xs| * |ys|;
    forall j | 0 <= j < |ys|
      ensures Product(xs, ys)[i * |ys| + j] == (xs[i], ys[j])
    {
      ProductAt(xs, ys, i, j);
    }
  }
  /** The prior column of the grid: `(None,)` when there are no prior scales. */
  function PriorColumn(priors: seq<real>): (ps: seq<Option<real>>)
    ensures priors == [] ==> ps == [None]
    ensures priors != [] ==> |ps| == |priors| && forall j :: 0 <= j < |priors| ==> ps[j] == Some(priors[j])
  {
    if priors == [] then [None] else seq(|priors|, j requires 0 <= j < |priors| => Some(priors[j]))
  }

  /**
   * The scale grid: one entry per LM scale without prior scales,
   * otherwise LM scale x prior scale.
   */
  function Grid(lms: seq<real>, priors: seq<real>): seq<ScalePair>
  {
    Product(lms, PriorColumn(priors))
  }

  /** A prior scale is used when it is given and non-zero. */
  predicate HasPrior(p: ScalePair)
  {
    p.1.Some? && p.1.value != 0.0
  }

  /** Pairs whose prior scale exceeds their LM scale are skipped. */
  predicate Skipped(p: ScalePair)
  {
    HasPrior(p) && p.1.value > p.0
  }

  /**
   * The grid holds every LM scale once per prior scale (once when there
   * are none), at the position `itertools.product` gives it.
   */
  lemma GridIndex(lms: seq<real>, priors: seq<real>, i: nat, j: nat)
    requires i < |lms| && j < |PriorColumn(priors)|
    ensures |Grid(lms, priors)| == |lms| * (if priors == [] then 1 else |priors|)
    ensures priors == [] ==> Grid(lms, priors)[i] == (lms[i], None)
    ensures priors != [] ==> i * |priors| + j < |Grid(lms, priors)|
                             && Grid(lms, priors)[i * |priors| + j] == (lms[i], Some(priors[j]))
  {
    ProductLength(lms, PriorColumn(priors));
    ProductAt(lms, PriorColumn(priors), i, j);
    if priors == [] {
      assert i * 1 + j == i;
    }
  }

  /** A pair is run exactly when it has no usable prior or its prior is at most its LM scale. */
  lemma SkipRule(p: ScalePair)
    ensures !Skipped(p) <==> p.1.None? || p.1.value == 0.0 || p.1.value <= p.0
  {
  }

  /** `time_rqmt` before the `kwargs` override: 1.0, or 2 / 3 for a Transformer LM. */
  function DefaultTimeRqmt(lmType: string, beam: int): Val
  {
    if lmType == "trafo" then (if beam > 50 then VInt(3) else VInt(2)) else VReal(1.0)
  }

  /** `True` when the `batch_size` keyword is given and truthy. */
  predicate BatchOverride(req: FusionRequest)
  {
    req.kwargs.batchSize.Some? && Truthy(req.kwargs.batchSize.value)
  }

  /**
   * The batch size and beam entries of the search arguments: batch size by
   * LM type and beam, the beam, and a `batch_size` keyword overriding both.
   */
  function SizedArgs(req: FusionRequest): (a: Dict)
    ensures "beam_size" in a && a["beam_size"] == VInt(req.beamSize)
    ensures BatchOverride(req) ==> "batch_size" in a && a["batch_size"] == req.kwargs.batchSize.value
    ensures !BatchOverride(req) ==>
              (req.lmType == "trafo" ==>
                 "batch_size" in a && a["batch_size"] == VInt(if req.beamSize <= 32 then 4000 * 160 else 2000 * 160))
              && (req.lmType == "lstm" && req.beamSize > 128 ==>
                    "batch_size" in a && a["batch_size"] == VInt(4000 * 160))
              && (req.lmType == "lstm" && req.beamSize <= 128 ==>
                    ("batch_size" in a <==> "batch_size" in req.args)
                    && ("batch_size" in req.args ==> a["batch_size"] == req.args["batch_size"]))
    ensures forall k :: k in req.args && k != "batch_size" && k != "beam_size" ==> k in a && a[k] == req.args[k]
  {
    var a0 := req.args;
    var a1 := if req.lmType == "lstm" && req.beamSize > 128 then a0["batch_size" := VInt(4000 * 160)] else a0;
    var a2 := if req.lmType == "trafo" then a1["batch_size" := VInt(if req.beamSize <= 32 then 4000 * 160 else 2000 * 160)]
              else a1;
    var a3 := a2["beam_size" := VInt(req.beamSize)];
    if BatchOverride(req) then a3["batch_size" := req.kwargs.batchSize.value] else a3
  }

  /**
   * The search arguments before the scale loop: the sized arguments, with
   * length normalisation switched off on request and the decoder overrides.
   */
  function SearchSetup(req: FusionRequest): (r: Result<Dict>)
    ensures r.Ok? ==> forall k :: k in SizedArgs(req) && k != "decoder_args" ==> k in r.value && r.value[k] == SizedArgs(req)[k]
    ensures r.Ok? && !req.lengthNorm && (req.kwargs.decoderArgs.None? || "length_normalization" !in req.kwargs.decoderArgs.value) ==>
              "decoder_args" in r.value && r.value["decoder_args"].VObj?
              && "length_normalization" in r.value["decoder_args"].attrs
              && r.value["decoder_args"].attrs["length_normalization"] == VBool(false)
  {
    var a4 := SizedArgs(req);
    var r5 := if !req.lengthNorm then SetAttr(a4, "decoder_args", "length_normalization", VBool(false)) else Ok(a4);
    match r5
    case Err(e) => Err(e)
    case Ok(a5) =>
      match req.kwargs.decoderArgs
      case None => Ok(a5)
      case Some(kw) => SetAttrs(a5, "decoder_args", kw)
  }

  /** The checkpoint a fusion search uses: the averaged or best one by name, else the epoch's. */
  function FusionCheckpoint(req: FusionRequest, avg: map<string, Ckpt>, best: map<string, Ckpt>): (r: Result<Ckpt>)
    ensures req.epoch == EpochStr("avg") ==> r == (if req.expName in avg then Ok(avg[req.expName]) else Err(KeyError(req.expName)))
    ensures req.epoch == EpochStr("best") ==> r == (if req.expName in best then Ok(best[req.expName]) else Err(KeyError(req.expName)))
    ensures req.epoch.EpochStr? && req.epoch.s != "avg" && req.epoch.s != "best" ==> r.Err? && r.error.AssertionError?
    ensures req.epoch.EpochInt? ==> (r.Ok? <==> req.epoch.n in req.trainJob.outCheckpoints)
    ensures req.epoch.EpochInt? && r.Ok? ==> r.value == req.trainJob.outCheckpoints[req.epoch.n]
  {
    match req.epoch
    case EpochStr(s) =>
      if s == "avg" then (if req.expName in avg then Ok(avg[req.expName]) else Err(KeyError(req.expName)))
      else if s == "best" then (if req.expName in best then Ok(best[req.expName]) else Err(KeyError(req.expName)))
      else Err(AssertionError("epoch must be either a defined integer or a string in {avg, best}."))
    case EpochInt(n) =>
      if n in req.trainJob.outCheckpoints then Ok(req.trainJob.outCheckpoints[n]) else Err(KeyError(IntToString(n)))
  }

  /** `prior_type` as the value stored in the ILM options. */
  function PriorTypeVal(t: Option<string>): Val
  {
    match t
    case None => VNone
    case Some(s) => VStr(s)
  }

  /** The ILM (prior) options and checkpoint preloading one prior scale adds. */
  function PriorArgs(req: FusionRequest, sa: Dict, ckpt: Ckpt, prior: real): (r: Result<Dict>)
    ensures r.Ok? ==> "prior_lm_opts" in r.value && r.value["prior_lm_opts"].VDict?
    ensures r.Ok? ==> var ilm := r.value["prior_lm_opts"].entries;
                      var kw := if req.kwargs.ilmTrainOpts.Some? then req.kwargs.ilmTrainOpts.value else map[];
                      "scale" in ilm && ilm["scale"] == (if "scale" in kw then kw["scale"] else VReal(prior))
    ensures r.Ok? ==> "preload_from_files" in r.value && r.value["preload_from_files"].VDict?
                      && "prior_lm" in r.value["preload_from_files"].entries
    ensures r.Ok? ==> "ext_lm_opts" in sa ==> "ext_lm_opts" in r.value && r.value["ext_lm_opts"] == sa["ext_lm_opts"]
    ensures (req.priorType == Some("mini_lstm") || req.priorType == Some("ffn")) && req.miniLstmCkpt.None? ==> r.Err?
  {
    match GetAttr(sa, "encoder_args", "enc_key_dim")
    case Err(e) => Err(e)
    case Ok(ctxDim) =>
      var ilm0 := map["scale" := VReal(prior), "type" := PriorTypeVal(req.priorType), "ctx_dim" := ctxDim];
      if "decoder_args" !in sa then Err(KeyError("decoder_args"))
      else
        var dec := sa["decoder_args"];
        var withLayers := HasAttr(dec, "num_layers");
        var ilm1 := if withLayers then ilm0["num_dec_layers" := dec.attrs["num_layers"]] else ilm0;
        var sa1 := if withLayers then
                     sa["decoder_args" := VObj(dec.cls, dec.attrs["create_ilm_decoder" := VBool(true)]
                                                                 ["ilm_type" := PriorTypeVal(req.priorType)])]
                   else sa;
        var ilm2 := if req.kwargs.ilmTrainOpts.Some? then ilm1 + req.kwargs.ilmTrainOpts.value else ilm1;
        var preload := map["prior_lm" := VDict(map["filename" := VCkpt(ckpt), "prefix" := VStr("prior_")])];
        if req.priorType == Some("mini_lstm") || req.priorType == Some("ffn") then
          match req.miniLstmCkpt
          case None => Err(AssertionError("Mini-LSTM checkpoint not set."))
          case Some(m) =>
            var preload2 := preload["mini_lstm" := VDict(map["filename" := VCkpt(m), "prefix" := VStr("mini_")])];
            Ok(sa1["prior_lm_opts" := VDict(ilm2)]["preload_from_files" := VDict(preload2)])
        else Ok(sa1["prior_lm_opts" := VDict(ilm2)]["preload_from_files" := VDict(preload)])
  }

  /** Both coverage settings are given and non-zero. */
  predicate WithCoverage(req: FusionRequest)
  {
    req.coverageScale.Some? && req.coverageScale.value != 0.0
    && req.coverageThreshold.Some? && req.coverageThreshold.value != 0.0
  }

  /**
   * The search arguments of one grid point, computed from `sa`: the LM
   * options with this LM scale, the ILM options when a prior is used, and
   * the coverage settings (only for an RNN decoder).
   */
  function PairArgs(req: FusionRequest, sa: Dict, extLm: Dict, ckpt: Ckpt, p: ScalePair): Result<Dict>
  {
    var sa1 := sa["ext_lm_opts" := VDict(extLm["lm_scale" := VReal(p.0)])];
    var r2 := if HasPrior(p) then PriorArgs(req, sa1, ckpt, p.1.value) else Ok(sa1);
    match r2
    case Err(e) => Err(e)
    case Ok(sa2) =>
      if !WithCoverage(req) then Ok(sa2)
      else if "decoder_args" !in sa2 then Err(KeyError("decoder_args"))
      else if !(sa2["decoder_args"].VObj? && sa2["decoder_args"].cls == "RNNDecoderArgs") then Err(AssertionError(""))
      else
        var dec := sa2["decoder_args"];
        Ok(sa2["decoder_args" := VObj(dec.cls, dec.attrs["coverage_scale" := VReal(req.coverageScale.value)]
                                                        ["coverage_threshold" := VReal(req.coverageThreshold.value)])])
  }

  /**
   * The arguments of a grid point carry the LM options with that point's
   * LM scale, and they carry ILM options exactly when the point uses a
   * prior (or the arguments they start from already did).
   */
  lemma PairArgsPrior(req: FusionRequest, sa: Dict, extLm: Dict, ckpt: Ckpt, p: ScalePair)
    requires PairArgs(req, sa, extLm, ckpt, p).Ok?
    ensures var a := PairArgs(req, sa, extLm, ckpt, p).value;
            && "ext_lm_opts" in a && a["ext_lm_opts"] == VDict(extLm["lm_scale" := VReal(p.0)])
            && ("prior_lm_opts" in a <==> HasPrior(p) || "prior_lm_opts" in sa)
            && (HasPrior(p) ==> a["prior_lm_opts"].VDict? && "scale" in a["prior_lm_opts"].entries)
  {
    var sa1 := sa["ext_lm_opts" := VDict(extLm["lm_scale" := VReal(p.0)])];
    if HasPrior(p) {
      var r2 := PriorArgs(req, sa1, ckpt, p.1.value);
      assert r2.Ok?;
    }
  }

  /** The part of the run name that describes the scales, beam and options. */
  function LmDesc(req: FusionRequest, p: ScalePair, fmt: Fmt): string
  {
    var typeName := if req.priorTypeName.Some? then req.priorTypeName.value
                    else Render(PriorTypeVal(req.priorType), fmt);
    "lm-scale-" + fmt.showReal(p.0)
    + (if HasPrior(p) then "-prior-" + fmt.showReal(p.1.value) + "-" + typeName else "")
    + "-beam-" + IntToString(req.beamSize)
    + (if !req.lengthNorm then "-woLenNorm" else "")
    + (if WithCoverage(req)
       then "_coverage-thre" + fmt.showReal(req.coverageThreshold.value) + "-scale" + fmt.showReal(req.coverageScale.value)
       else "")
  }

  function EpochText(e: EpochArg): string
  {
    match e
    case EpochStr(s) => s
    case EpochInt(n) => IntToString(n)
  }

  function RunName(req: FusionRequest, p: ScalePair, testSet: string, fmt: Fmt): string
  {
    req.expName + "/recog-" + req.lmType + "-lm/ep-" + EpochText(req.epoch) + "/" + LmDesc(req, p, fmt) + "/" + testSet
  }

  /** The test sets `get_test_dataset_tuples` provides. */
  const TestSetNames: set<string> := {"dev", "test"}

  /** Everything fixed before the scale loop. */
  datatype FusionSetup = FusionSetup(tests: seq<string>, grid: seq<ScalePair>, ckpt: Ckpt, extLm: Dict,
                                     base: Dict, time: Val)

  /** What a (partial) run of the scale loop produced. */
  datatype FusionOutcome = FusionOutcome(runs: seq<Run>, err: Option<PyError>, lastLm: Option<real>)

  /** The run of one (test set, grid point), from the arguments it starts from. */
  function Visit(req: FusionRequest, su: FusionSetup, fmt: Fmt, o: FusionOutcome, sa: Dict,
                 item: (string, ScalePair)): FusionOutcome
  {
    var (test, p) := item;
    if Skipped(p) then o
    else match PairArgs(req, sa, su.extLm, su.ckpt, p)
      case Err(e) => FusionOutcome(o.runs, Some(e), Some(p.0))
      case Ok(a) =>
        if test !in TestSetNames then FusionOutcome(o.runs, Some(KeyError(test)), Some(p.0))
        else FusionOutcome(o.runs + [Run(RunName(req, p, test, fmt), a, su.ckpt, test, su.time)], None, Some(p.0))
  }

  /**
   * The scale loop over `items`, each grid point's arguments computed
   * from the arguments before the loop; it stops at the first error.
   */
  function Loop(req: FusionRequest, su: FusionSetup, fmt: Fmt, items: seq<(string, ScalePair)>): FusionOutcome
    decreases |items|
  {
    if items == [] then FusionOutcome([], None, None)
    else
      var o := Loop(req, su, fmt, items[..|items| - 1]);
      if o.err.Some? then o else Visit(req, su, fmt, o, su.base, items[|items| - 1])
  }

  /** The grid points that are run, in order, with their test set. */
  function Kept(items: seq<(string, ScalePair)>): seq<(string, ScalePair)>
    decreases |items|
  {
    if items == [] then []
    else Kept(items[..|items| - 1]) + (if Skipped(items[|items| - 1].1) then [] else [items[|items| - 1]])
  }

  /** Pre-loop setup of `run_lm_fusion`, in the order its checks run. */
  function Setup(req: FusionRequest, avg: map<string, Ckpt>, best: map<string, Ckpt>,
                 lstmOpts: map<int, Dict>, trafoOpts: map<int, Dict>): (r: Result<FusionSetup>)
    ensures r.Ok? ==> req.lmType in {"lstm", "trafo"}
    ensures r.Ok? ==> r.value.grid == Grid(AsList(req.lmScales), PriorList(req.priorScales))
    ensures r.Ok? ==> FusionCheckpoint(req, avg, best) == Ok(r.value.ckpt)
    ensures r.Ok? ==> var table := if req.lmType == "lstm" then lstmOpts else trafoOpts;
                      req.bpeSize in table && r.value.extLm == table[req.bpeSize]
    ensures r.Ok? ==> r.value.time == (if req.kwargs.timeRqmt.Some? then req.kwargs.timeRqmt.value
                                       else DefaultTimeRqmt(req.lmType, req.beamSize))
    ensures req.lmType !in {"lstm", "trafo"} ==> r == Err(AssertionError("lm type should be lstm or trafo"))
    ensures r.Ok? <==> && req.lmType in {"lstm", "trafo"} && !req.testSets.NotAList?
                       && FusionCheckpoint(req, avg, best).Ok?
                       && req.bpeSize in (if req.lmType == "lstm" then lstmOpts else trafoOpts)
                       && SearchSetup(req).Ok?
    ensures req.lmType in {"lstm", "trafo"} && req.testSets.NotAList? ==> r.Err? && r.error.AssertionError?
    ensures r.Ok? ==> r.value.tests == match req.testSets
                                      case OneTestSet(t) => [t]
                                      case TestSetList(ts) => ts
                                      case NotAList => []
    ensures r.Ok? ==> r.value.base == SearchSetup(req).value
  {
    if req.lmType !in {"lstm", "trafo"} then Err(AssertionError("lm type should be lstm or trafo"))
    else
      var tests := match req.testSets
        case OneTestSet(t) => Some([t])
        case TestSetList(ts) => Some(ts)
        case NotAList => None;
      if tests.None? then Err(AssertionError(""))
      else match FusionCheckpoint(req, avg, best)
        case Err(e) => Err(e)
        case Ok(ckpt) =>
          var table := if req.lmType == "lstm" then lstmOpts else trafoOpts;
          if req.bpeSize !in table then Err(KeyError(IntToString(req.bpeSize)))
          else match SearchSetup(req)
            case Err(e) => Err(e)
            case Ok(base) =>
              var time := if req.kwargs.timeRqmt.Some? then req.kwargs.timeRqmt.value
                          else DefaultTimeRqmt(req.lmType, req.beamSize);
              Ok(FusionSetup(tests.value, Grid(AsList(req.lmScales), PriorList(req.priorScales)), ckpt,
                             table[req.bpeSize], base, time))
  }

  /** One more step of the scale loop. */
  lemma LoopNext(req: FusionRequest, su: FusionSetup, fmt: Fmt, items: seq<(string, ScalePair)>, k: nat)
    requires k < |items| && Loop(req, su, fmt, items[..k]).err.None?
    ensures Loop(req, su, fmt, items[..k + 1]) == Visit(req, su, fmt, Loop(req, su, fmt, items[..k]), su.base, items[k])
  {
    assert items[..k + 1][..k] == items[..k];
  }

  lemma LoopStart(req: FusionRequest, su: FusionSetup, fmt: Fmt, items: seq<(string, ScalePair)>)
    ensures Loop(req, su, fmt, items[..0]) == FusionOutcome([], None, None)
  {
  }

  /** Once the scale loop has failed, further items change nothing. */
  lemma {:induction false} LoopStops(req: FusionRequest, su: FusionSetup, fmt: Fmt, items: seq<(string, ScalePair)>, k: nat)
    requires k <= |items| && Loop(req, su, fmt, items[..k]).err.Some?
    ensures Loop(req, su, fmt, items) == Loop(req, su, fmt, items[..k])
    decreases |items|
  {
    if k < |items| {
      assert items[..|items| - 1][..k] == items[..k];
      LoopStops(req, su, fmt, items[..|items| - 1], k);
    } else {
      assert items[..k] == items;
    }
  }

  /**
   * The scale loop runs the kept grid points in order, each with the
   * arguments computed for it from the arguments before the loop and the
   * name describing its scales; without an error every kept point is run.
   */
  lemma {:induction false} LoopRunsKept(req: FusionRequest, su: FusionSetup, fmt: Fmt, items: seq<(string, ScalePair)>)
    ensures var o := Loop(req, su, fmt, items);
            && |o.runs| <= |Kept(items)|
            && (o.err.None? ==> |o.runs| == |Kept(items)|)
            && forall k :: 0 <= k < |o.runs| ==>
                 var (test, p) := Kept(items)[k];
                 && PairArgs(req, su.base, su.extLm, su.ckpt, p) == Ok(o.runs[k].args)
                 && o.runs[k] == Run(RunName(req, p, test, fmt), o.runs[k].args, su.ckpt, test, su.time)
                 && test in TestSetNames
    decreases |items|
  {
    if items != [] {
      var pre := items[..|items| - 1];
      LoopRunsKept(req, su, fmt, pre);
      assert Kept(items) == Kept(pre) + (if Skipped(items[|items| - 1].1) then [] else [items[|items| - 1]]);
    }
  }

  /**
   * The loop as written threads the search arguments from one grid point
   * to the next: each point's arguments are computed from the previous
   * point's, so ILM options set for a prior stay in place for later points
   * without one.
   */
  function ThreadedArgs(req: FusionRequest, base: Dict, extLm: Dict, ckpt: Ckpt, ps: seq<ScalePair>): Result<Dict>
    decreases |ps|
  {
    if ps == [] then Ok(base)
    else match ThreadedArgs(req, base, extLm, ckpt, ps[..|ps| - 1])
      case Err(e) => Err(e)
      case Ok(sa) => if Skipped(ps[|ps| - 1]) then Ok(sa) else PairArgs(req, sa, extLm, ckpt, ps[|ps| - 1])
  }

  /** A request with an LSTM LM, LM scales 0.3 and 0.4 and prior scales 0.0 and 0.2. */
  function StalePriorRequest(): FusionRequest
  {
    FusionRequest("lstm", "base", EpochStr("avg"), OneTestSet("dev"), ScaleList([0.3, 0.4]),
                  TrainJob("train", map[]), 10000, StalePriorArgs(), 12, Some(ScaleList([0.0, 0.2])),
                  Some("mini_lstm"), Some(CkptFile("mini")), true, None, None, None,
                  FusionKwargs(None, None, None, None))
  }

  function StalePriorArgs(): Dict
  {
    map["encoder_args" := VObj("ConformerEncoderArgs", map["enc_key_dim" := VInt(256)]),
        "decoder_args" := VObj("RNNDecoderArgs", map[])]
  }

  /**
   * With grid points (0.3, 0.2) then (0.4, 0.0), the threaded arguments of
   * the second point still hold the ILM options of the first although
   * 0.0 means "no prior" and the run is named without one; arguments
   * computed afresh for that point hold none.
   */
  lemma StalePriorOptions()
    ensures var req := StalePriorRequest();
            var ps := [(0.3, Some(0.2)), (0.4, Some(0.0))];
            var extLm := map["name" := VStr("lstm")];
            && !Skipped(ps[0]) && !Skipped(ps[1]) && !HasPrior(ps[1])
            && ThreadedArgs(req, StalePriorArgs(), extLm, CkptFile("avg"), ps).Ok?
            && "prior_lm_opts" in ThreadedArgs(req, StalePriorArgs(), extLm, CkptFile("avg"), ps).value
            && PairArgs(req, StalePriorArgs(), extLm, CkptFile("avg"), ps[1]).Ok?
            && "prior_lm_opts" !in PairArgs(req, StalePriorArgs(), extLm, CkptFile("avg"), ps[1]).value
  {
    var req := StalePriorRequest();
    var ps: seq<ScalePair> := [(0.3, Some(0.2)), (0.4, Some(0.0))];
    var extLm := map["name" := VStr("lstm")];
    var c := CkptFile("avg");
    assert ps[..1] == [ps[0]] && ps[..1][..0] == [];
    var first := PairArgs(req, StalePriorArgs(), extLm, c, ps[0]);
    assert first.Ok? && "prior_lm_opts" in first.value;
    assert ThreadedArgs(req, StalePriorArgs(), extLm, c, ps[..1]) == first;
    PairArgsPrior(req, first.value, extLm, c, ps[1]);
    PairArgsPrior(req, StalePriorArgs(), extLm, c, ps[1]);
  }

  // ---------------------------------------------------------------------
  // The experiment registry and the scheduling closures
  // ---------------------------------------------------------------------

  /** One call of `search`: output prefix, checkpoint, and whether sclite scores it. */
  datatype Search = Search(prefix: string, checkpoint: Ckpt, useSclite: bool)

  datatype SearchOutcome = SearchOutcome(searches: seq<Search>, err: Option<PyError>)

  /** The per-epoch searches, stopping at the first epoch without a checkpoint. */
  function EpochSearches(prefix: string, epochs: seq<int>, job: TrainJob): SearchOutcome
    decreases |epochs|
  {
    if epochs == [] then SearchOutcome([], None)
    else
      var o := EpochSearches(prefix, epochs[..|epochs| - 1], job);
      var ep := epochs[|epochs| - 1];
      if o.err.Some? then o
      else if ep !in job.outCheckpoints then SearchOutcome(o.searches, Some(KeyError(IntToString(ep))))
      else SearchOutcome(o.searches + [Search(prefix + "/recogs/ep-" + IntToString(ep), job.outCheckpoints[ep], false)], None)
  }

  /**
   * Every listed epoch is searched with its own checkpoint, in order; the
   * searches fail exactly when some listed epoch has no checkpoint.
   */
  lemma {:induction false} EpochSearchesSpec(prefix: string, epochs: seq<int>, job: TrainJob)
    ensures var o := EpochSearches(prefix, epochs, job);
            && (o.err.None? <==> forall e :: e in epochs ==> e in job.outCheckpoints)
            && (o.err.None? ==> |o.searches| == |epochs|)
            && |o.searches| <= |epochs|
            && forall i :: 0 <= i < |o.searches| ==>
                 epochs[i] in job.outCheckpoints
                 && o.searches[i] == Search(prefix + "/recogs/ep-" + IntToString(epochs[i]), job.outCheckpoints[epochs[i]], false)
    decreases |epochs|
  {
    if epochs != [] {
      var pre := epochs[..|epochs| - 1];
      EpochSearchesSpec(prefix, pre, job);
      assert forall e :: e in epochs <==> e in pre || e == epochs[|epochs| - 1];
    }
  }

  /** The prefix of the averaged-checkpoint search, before `/average_{n}`. */
  function AveragePrefix(prefix: string, sa: Dict, fmt: Fmt): Result<string>
  {
    var beam := if "beam_size" in sa then sa["beam_size"] else VInt(12);
    var p1 := if !NumEq(beam, 12) then prefix + "_beam-" + Render(beam, fmt) else prefix;
    match GetAttr(sa, "decoder_args", "coverage_scale")
    case Err(e) => Err(e)
    case Ok(scale) =>
      if !Truthy(scale) then Ok(p1)
      else match GetAttr(sa, "decoder_args", "coverage_threshold")
        case Err(e) => Err(e)
        case Ok(th) => Ok(p1 + "_coverage-thre" + Render(th, fmt) + "-scale" + Render(scale, fmt))
  }

  /**
   * The averaged-checkpoint prefix carries `_beam-{b}` exactly when the
   * beam is not 12 (a coverage suffix, when set, follows it).
   */
  lemma AveragePrefixBeam(prefix: string, sa: Dict, fmt: Fmt)
    requires AveragePrefix(prefix, sa, fmt).Ok?
    ensures var beam := if "beam_size" in sa then sa["beam_size"] else VInt(12);
            var ap := AveragePrefix(prefix, sa, fmt).value;
            var marked := prefix + "_beam-" + Render(beam, fmt);
            var covered := prefix + "_coverage-thre";
            && (!NumEq(beam, 12) ==> |marked| <= |ap| && ap[..|marked|] == marked)
            && (NumEq(beam, 12) ==> ap == prefix || (|covered| <= |ap| && ap[..|covered|] == covered))
  {
    var beam := if "beam_size" in sa then sa["beam_size"] else VInt(12);
    var ap := AveragePrefix(prefix, sa, fmt).value;
    var scale := GetAttr(sa, "decoder_args", "coverage_scale").value;
    if NumEq(beam, 12) && Truthy(scale) {
      var th := GetAttr(sa, "decoder_args", "coverage_threshold").value;
      var covered := prefix + "_coverage-thre";
      assert ap == covered + Render(th, fmt) + "-scale" + Render(scale, fmt);
    }
    if !NumEq(beam, 12) {
      var marked := prefix + "_beam-" + Render(beam, fmt);
      if Truthy(scale) {
        var th := GetAttr(sa, "decoder_args", "coverage_threshold").value;
        assert ap == marked + ("_coverage-thre" + Render(th, fmt) + "-scale" + Render(scale, fmt));
      }
    }
  }

  /** The searches `run_search` schedules. */
  function SearchPlan(expName: string, trainArgs: Dict, job: TrainJob, numEpochs: int, searchArgs: Option<Dict>,
                      recogEpochs: Option<seq<int>>, numAvg: int, runOnlyAvg: bool, fmt: Fmt): SearchOutcome
  {
    var prefix := Join(PrefixName, expName);
    var sa := if searchArgs.Some? then searchArgs.value else trainArgs;
    var first :=
      if runOnlyAvg then SearchOutcome([], None)
      else
        var o := EpochSearches(prefix, RecogEpochs(recogEpochs, numEpochs), job);
        if o.err.Some? then o
        else if numEpochs !in job.outCheckpoints then SearchOutcome(o.searches, Some(KeyError(IntToString(numEpochs))))
        else SearchOutcome(o.searches + [Search(prefix + "/default_last", job.outCheckpoints[numEpochs], false),
                                         Search(prefix + "/default_best", BestCkpt(job.name), true)], None);
    if first.err.Some? then first
    else match AveragePrefix(prefix, sa, fmt)
      case Err(e) => SearchOutcome(first.searches, Some(e))
      case Ok(ap) => SearchOutcome(first.searches + [Search(ap + "/average_" + IntToString(numAvg), AveragedCkpt(job.name, numAvg), true)], None)
  }

  /**
   * Without an error `run_search` schedules one search per recognition
   * epoch, the last and the best epoch (all unless only the average is
   * wanted), and ends with the one search of the averaged checkpoint,
   * whose prefix is marked with the beam exactly when it is not 12.
   */
  lemma SearchPlanShape(expName: string, trainArgs: Dict, job: TrainJob, numEpochs: int, searchArgs: Option<Dict>,
                        recogEpochs: Option<seq<int>>, numAvg: int, runOnlyAvg: bool, fmt: Fmt)
    ensures var o := SearchPlan(expName, trainArgs, job, numEpochs, searchArgs, recogEpochs, numAvg, runOnlyAvg, fmt);
            var epochs := RecogEpochs(recogEpochs, numEpochs);
            var sa := if searchArgs.Some? then searchArgs.value else trainArgs;
            var beam := if "beam_size" in sa then sa["beam_size"] else VInt(12);
            o.err.None? ==>
              && |o.searches| == (if runOnlyAvg then 1 else |epochs| + 3)
              && o.searches[|o.searches| - 1].checkpoint == AveragedCkpt(job.name, numAvg)
              && AveragePrefix(Join(PrefixName, expName), sa, fmt).Ok?
              && o.searches[|o.searches| - 1].prefix
                 == AveragePrefix(Join(PrefixName, expName), sa, fmt).value + "/average_" + IntToString(numAvg)
              && (!runOnlyAvg ==> o.searches[|o.searches| - 2] == Search(Join(PrefixName, expName) + "/default_best", BestCkpt(job.name), true)
                                  && numEpochs in job.outCheckpoints
                                  && o.searches[|o.searches| - 3] == Search(Join(PrefixName, expName) + "/default_last", job.outCheckpoints[numEpochs], false))
  {
    var epochs := RecogEpochs(recogEpochs, numEpochs);
    EpochSearchesSpec(Join(PrefixName, expName), epochs, job);
  }

  /**
   * The script's module-level tables: the averaged and best checkpoints
   * registered per experiment name, and the LM option tables by BPE size
   * (whose entries `run_lm_fusion` updates in place).
   */
  class Experiments {
    var avgCkpt: map<string, Ckpt>
    var bestEpoch: map<string, Ckpt>
    var lstmLmOpts: map<int, Dict>
    var trafoLmOpts: map<int, Dict>

    /** The tables as the script defines them: LSTM LM for BPE 10k, Transformer LMs for 10k and 5k. */
    constructor(lstm10k: Dict, trafo10k: Dict, trafo5k: Dict)
      ensures avgCkpt == map[] && bestEpoch == map[]
      ensures lstmLmOpts == map[Bpe10k := lstm10k]
      ensures trafoLmOpts == map[Bpe10k := trafo10k, Bpe5k := trafo5k]
    {
      avgCkpt := map[];
      bestEpoch := map[];
      lstmLmOpts := map[Bpe10k := lstm10k];
      trafoLmOpts := map[Bpe10k := trafo10k, Bpe5k := trafo5k];
    }

    /**
     * `run_search`: registers the averaged checkpoint (only for 4
     * averaged epochs) and the best checkpoint under the experiment name,
     * then schedules the recognition searches.
     */
    method RunSearch(expName: string, trainArgs: Dict, job: TrainJob, numEpochs: int, searchArgs: Option<Dict>,
                     recogEpochs: Option<seq<int>>, numAvg: int, runOnlyAvg: bool, fmt: Fmt)
      returns (searches: seq<Search>, err: Option<PyError>)
      modifies this
      ensures avgCkpt == if numAvg == 4 then old(avgCkpt)[expName := AveragedCkpt(job.name, numAvg)] else old(avgCkpt)
      ensures bestEpoch == old(bestEpoch)[expName := BestCkpt(job.name)]
      ensures lstmLmOpts == old(lstmLmOpts) && trafoLmOpts == old(trafoLmOpts)
      ensures SearchOutcome(searches, err)
              == SearchPlan(expName, trainArgs, job, numEpochs, searchArgs, recogEpochs, numAvg, runOnlyAvg, fmt)
    {
      hide EpochSearches, AveragePrefix, RecogEpochs;
      var prefix := Join(PrefixName, expName);
      var sa := if searchArgs.Some? then searchArgs.value else trainArgs;
      if numAvg == 4 {
        avgCkpt := avgCkpt[expName := AveragedCkpt(job.name, numAvg)];
      }
      bestEpoch := bestEpoch[expName := BestCkpt(job.name)];
      searches, err := [], None;
      if !runOnlyAvg {
        searches, err := ScheduleEpochs(prefix, RecogEpochs(recogEpochs, numEpochs), job);
        if err.Some? {
          return;
        }
        if numEpochs !in job.outCheckpoints {
          err := Some(KeyError(IntToString(numEpochs)));
          return;
        }
        searches := searches + [Search(prefix + "/default_last", job.outCheckpoints[numEpochs], false),
                                Search(prefix + "/default_best", BestCkpt(job.name), true)];
      }
      var ap := AveragePrefix(prefix, sa, fmt);
      if ap.Err? {
        err := Some(ap.error);
        return;
      }
      searches := searches + [Search(ap.value + "/average_" + IntToString(numAvg), AveragedCkpt(job.name, numAvg), true)];
    }

    /**
     * `run_lm_fusion` with the ILM options of each grid point computed
     * afresh: after the checks and the argument setup it visits every
     * test set and grid point, skips points whose prior exceeds the LM
     * scale, and schedules one search per remaining point. The LM option
     * table entry it uses keeps the last LM scale it was given.
     */
    method RunLmFusion(req: FusionRequest, fmt: Fmt) returns (runs: seq<Run>, err: Option<PyError>)
      modifies this
      ensures avgCkpt == old(avgCkpt) && bestEpoch == old(bestEpoch)
      ensures match Setup(req, old(avgCkpt), old(bestEpoch), old(lstmLmOpts), old(trafoLmOpts))
              case Err(e) =>
                runs == [] && err == Some(e) && lstmLmOpts == old(lstmLmOpts) && trafoLmOpts == old(trafoLmOpts)
              case Ok(su) =>
                var o := Loop(req, su, fmt, Product(su.tests, su.grid));
                var updated := if o.lastLm.Some? then su.extLm["lm_scale" := VReal(o.lastLm.value)] else su.extLm;
                && runs == o.runs && err == o.err
                && (req.lmType == "lstm" ==>
                      lstmLmOpts == old(lstmLmOpts)[req.bpeSize := updated] && trafoLmOpts == old(trafoLmOpts))
                && (req.lmType == "trafo" ==>
                      trafoLmOpts == old(trafoLmOpts)[req.bpeSize := updated] && lstmLmOpts == old(lstmLmOpts))
    {
      hide Setup, Loop, Product;
      var setup := Setup(req, avgCkpt, bestEpoch, lstmLmOpts, trafoLmOpts);
      if setup.Err? {
        return [], Some(setup.error);
      }
      var last;
      runs, err, last := ScaleLoop(req, setup.value, fmt);
      if last.None? {
        var table := if req.lmType == "lstm" then lstmLmOpts else trafoLmOpts;
        assert table[req.bpeSize := setup.value.extLm] == table;
      }
    }

    /**
     * The scale loop of `run_lm_fusion`: visits every (test set, grid
     * point) pair in order, stopping at the first error, and stores each
     * LM scale it uses in the LM option table entry.
     */
    method ScaleLoop(req: FusionRequest, su: FusionSetup, fmt: Fmt) returns (runs: seq<Run>, err: Option<PyError>, last: Option<real>)
      modifies this
      ensures avgCkpt == old(avgCkpt) && bestEpoch == old(bestEpoch)
      ensures Loop(req, su, fmt, Product(su.tests, su.grid)) == FusionOutcome(runs, err, last)
      ensures TablesAfter(req, su, old(lstmLmOpts), old(trafoLmOpts), last)
    {
      hide Product, Loop;
      ghost var items := Product(su.tests, su.grid);
      ghost var lstm0, trafo0 := lstmLmOpts, trafoLmOpts;
      ProductLength(su.tests, su.grid);
      var n := |su.grid|;
      runs, err, last := [], None, None;
      LoopStart(req, su, fmt, items);
      var i := 0;
      while i < |su.tests|
        invariant 0 <= i <= |su.tests| && i * n <= |items|
        invariant err.None? && Loop(req, su, fmt, items[..i * n]) == FusionOutcome(runs, None, last)
        invariant TablesAfter(req, su, lstm0, trafo0, last)
        invariant avgCkpt == old(avgCkpt) && bestEpoch == old(bestEpoch)
      {
        ProductRow(su.tests, su.grid, i);
        assert (i + 1) * n == i * n + n;
        runs, err, last := VisitRow(req, su, fmt, su.tests[i], items, i * n, runs, last, lstm0, trafo0);
        if err.Some? {
          return;
        }
        i := i + 1;
      }
      assert items[..i * n] == items;
    }

    /**
     * The inner loop of `run_lm_fusion` for one test set: the grid points
     * in order, each skipped or run, stopping at the first error.
     */
    method VisitRow(req: FusionRequest, su: FusionSetup, fmt: Fmt, test: string, ghost items: seq<(string, ScalePair)>,
                    ghost k0: nat, runs0: seq<Run>, last0: Option<real>, ghost lstm0: map<int, Dict>, ghost trafo0: map<int, Dict>)
      returns (runs: seq<Run>, err: Option<PyError>, last: Option<real>)
      requires k0 + |su.grid| <= |items|
      requires forall j :: 0 <= j < |su.grid| ==> items[k0 + j] == (test, su.grid[j])
      requires Loop(req, su, fmt, items[..k0]) == FusionOutcome(runs0, None, last0)
      requires TablesAfter(req, su, lstm0, trafo0, last0)
      modifies this
      ensures avgCkpt == old(avgCkpt) && bestEpoch == old(bestEpoch)
      ensures TablesAfter(req, su, lstm0, trafo0, last)
      ensures err.None? ==> Loop(req, su, fmt, items[..k0 + |su.grid|]) == FusionOutcome(runs, None, last)
      ensures err.Some? ==> Loop(req, su, fmt, items) == FusionOutcome(runs, err, last)
    {
      hide Loop, Visit, TablesAfter;
      runs, err, last := runs0, None, last0;
      var j := 0;
      while j < |su.grid|
        invariant 0 <= j <= |su.grid|
        invariant err.None? && Loop(req, su, fmt, items[..k0 + j]) == FusionOutcome(runs, None, last)
        invariant TablesAfter(req, su, lstm0, trafo0, last)
        invariant avgCkpt == old(avgCkpt) && bestEpoch == old(bestEpoch)
      {
        LoopNext(req, su, fmt, items, k0 + j);
        runs, err, last := RunPoint(req, su, fmt, test, su.grid[j], runs, last, lstm0, trafo0);
        if err.Some? {
          LoopStops(req, su, fmt, items, k0 + j + 1);
          return;
        }
        j := j + 1;
      }
    }

    /**
     * One grid point of `run_lm_fusion`: skipped when its prior exceeds
     * its LM scale, otherwise the LM scale is stored in the LM option
     * table entry and the search is scheduled.
     */
    method RunPoint(req: FusionRequest, su: FusionSetup, fmt: Fmt, test: string, p: ScalePair, runs0: seq<Run>,
                    last0: Option<real>, ghost lstm0: map<int, Dict>, ghost trafo0: map<int, Dict>)
      returns (runs: seq<Run>, err: Option<PyError>, last: Option<real>)
      requires TablesAfter(req, su, lstm0, trafo0, last0)
      modifies this
      ensures avgCkpt == old(avgCkpt) && bestEpoch == old(bestEpoch)
      ensures TablesAfter(req, su, lstm0, trafo0, last)
      ensures FusionOutcome(runs, err, last) == Visit(req, su, fmt, FusionOutcome(runs0, None, last0), su.base, (test, p))
    {
      hide PairArgs, RunName;
      runs, err, last := runs0, None, last0;
      if Skipped(p) {
        return;
      }
      last := Some(p.0);
      SetLmScale(req, su, p.0);
      var a := PairArgs(req, su.base, su.extLm, su.ckpt, p);
      if a.Err? {
        err := Some(a.error);
        return;
      }
      if test !in TestSetNames {
        err := Some(KeyError(test));
        return;
      }
      runs := runs + [Run(RunName(req, p, test, fmt), a.value, su.ckpt, test, su.time)];
    }

    /**
     * The LM option tables once the last LM scale given to the loop was
     * `last`: unchanged while no grid point was run.
     */
    ghost predicate TablesAfter(req: FusionRequest, su: FusionSetup, lstm0: map<int, Dict>, trafo0: map<int, Dict>,
                                last: Option<real>)
      reads this
    {
      match last
      case None => lstmLmOpts == lstm0 && trafoLmOpts == trafo0
      case Some(lm) =>
        var updated := su.extLm["lm_scale" := VReal(lm)];
        && (req.lmType == "lstm" ==> lstmLmOpts == lstm0[req.bpeSize := updated] && trafoLmOpts == trafo0)
        && (req.lmType == "trafo" ==> trafoLmOpts == trafo0[req.bpeSize := updated] && lstmLmOpts == lstm0)
    }

    /** `ext_lm_opts["lm_scale"] = lm_scale` on the table entry in use. */
    method SetLmScale(req: FusionRequest, su: FusionSetup, lm: real)
      modifies this
      ensures req.lmType == "lstm" ==>
                lstmLmOpts == old(lstmLmOpts)[req.bpeSize := su.extLm["lm_scale" := VReal(lm)]] && trafoLmOpts == old(trafoLmOpts)
      ensures req.lmType == "trafo" ==>
                trafoLmOpts == old(trafoLmOpts)[req.bpeSize := su.extLm["lm_scale" := VReal(lm)]] && lstmLmOpts == old(lstmLmOpts)
      ensures req.lmType !in {"lstm", "trafo"} ==> lstmLmOpts == old(lstmLmOpts) && trafoLmOpts == old(trafoLmOpts)
      ensures avgCkpt == old(avgCkpt) && bestEpoch == old(bestEpoch)
    {
      if req.lmType == "lstm" {
        lstmLmOpts := lstmLmOpts[req.bpeSize := su.extLm["lm_scale" := VReal(lm)]];
      } else if req.lmType == "trafo" {
        trafoLmOpts := trafoLmOpts[req.bpeSize := su.extLm["lm_scale" := VReal(lm)]];
      }
    }
  }

  /** The per-epoch search loop of `run_search`. */
  method ScheduleEpochs(prefix: string, epochs: seq<int>, job: TrainJob) returns (searches: seq<Search>, err: Option<PyError>)
    ensures SearchOutcome(searches, err) == EpochSearches(prefix, epochs, job)
  {
    searches, err := [], None;
    var k := 0;
    while k < |epochs|
      invariant 0 <= k <= |epochs|
      invariant EpochSearches(prefix, epochs[..k], job) == SearchOutcome(searches, None)
    {
      var ep := epochs[k];
      EpochSearchesNext(prefix, epochs, job, k);
      if ep !in job.outCheckpoints {
        err := Some(KeyError(IntToString(ep)));
        EpochSearchesStop(prefix, epochs, job, k + 1);
        return;
      }
      searches := searches + [Search(prefix + "/recogs/ep-" + IntToString(ep), job.outCheckpoints[ep], false)];
      k := k + 1;
    }
    assert epochs[..k] == epochs;
  }

  /** One more epoch of the per-epoch search loop, from a state without error. */
  lemma EpochSearchesNext(prefix: string, epochs: seq<int>, job: TrainJob, k: nat)
    requires k < |epochs| && EpochSearches(prefix, epochs[..k], job).err.None?
    ensures var o := EpochSearches(prefix, epochs[..k], job);
            var ep := epochs[k];
            EpochSearches(prefix, epochs[..k + 1], job) ==
              if ep !in job.outCheckpoints then SearchOutcome(o.searches, Some(KeyError(IntToString(ep))))
              else SearchOutcome(o.searches + [Search(prefix + "/recogs/ep-" + IntToString(ep), job.outCheckpoints[ep], false)], None)
  {
    assert epochs[..k + 1][..k] == epochs[..k];
  }

  /** Once the per-epoch searches have failed, later epochs change nothing. */
  lemma {:induction false} EpochSearchesStop(prefix: string, epochs: seq<int>, job: TrainJob, k: nat)
    requires k <= |epochs| && EpochSearches(prefix, epochs[..k], job).err.Some?
    ensures EpochSearches(prefix, epochs, job) == EpochSearches(prefix, epochs[..k], job)
    decreases |epochs|
  {
    if k < |epochs| {
      assert epochs[..|epochs| - 1][..k] == epochs[..k];
      EpochSearchesStop(prefix, epochs[..|epochs| - 1], job, k);
    } else {
      assert epochs[..k] == epochs;
    }
  }

  // ---------------------------------------------------------------------
  // train_mini_lstm: the ILM estimator (mini-LSTM or FFN) on top of a model
  // ---------------------------------------------------------------------

  /**
   * The parameter-freeze strings the ILM helpers produce (their contents
   * are not part of this model); the FFN one depends on the layer count.
   */
  datatype FreezeStrings = FreezeStrings(miniLstm: string, miniLstmWDrop: string, ffnWDrop: int -> string)

  /** `ffn_opts`: `num_ffn_layers`, `ffn_dims` and `activations`. */
  datatype FfnOpts = FfnOpts(numLayers: int, dims: seq<Val>, activations: Option<seq<Val>>)

  datatype MiniLstmRequest = MiniLstmRequest(
    expName: string, checkpoint: Ckpt, args: Dict, lr: real, l2: real, name: string,
    wDrop: bool, useDecState: bool, useFfn: bool, ffnOpts: Option<FfnOpts>, kwargs: Dict)

  /** What the training job is built from: output prefix, arguments and the decoder unit. */
  datatype MiniLstmPlan = MiniLstmPlan(prefix: string, args: Dict, unit: Dict)

  /** `"%02i" % n`. */
  function Pad2(n: nat): (s: string)
    ensures |s| >= 2
  {
    if n < 10 then "0" + NatToString(n) else NatToString(n)
  }

  lemma Pad2Injective(a: nat, b: nat)
    requires Pad2(a) == Pad2(b)
    ensures a == b
  {
    NatToStringLeadingZero(a);
    NatToStringLeadingZero(b);
    if a < 10 && b < 10 {
      assert NatToString(a) == Pad2(a)[1..] == Pad2(b)[1..] == NatToString(b);
    }
    NatToStringInjective(a, b);
  }

  /** The name of FFN layer `l` (counting from 0): `ffn_01`, `ffn_02`, ... */
  function FfnName(l: nat): string
  {
    "ffn_" + Pad2(l + 1)
  }

  lemma FfnNameInjective(a: nat, b: nat)
    requires FfnName(a) == FfnName(b)
    ensures a == b
  {
    hide Pad2;
    var x, y := Pad2(a + 1), Pad2(b + 1);
    assert ("ffn_" + x)[4..] == x && ("ffn_" + y)[4..] == y;
    Pad2Injective(a + 1, b + 1);
  }

  /** The number of FFN layers `range(num_ffn_layers)` creates. */
  function NumFfn(opts: FfnOpts): nat
  {
    if opts.numLayers < 0 then 0 else opts.numLayers
  }

  /** A linear layer dict as the mini-LSTM setup writes it. */
  function LinearLayer(nOut: Val, l2: real, from: string, activation: Val): Val
  {
    VDict(map["class" := VStr("linear"), "n_out" := nOut, "L2" := VReal(l2), "from" := VStr(from),
              "activation" := activation])
  }

  /** FFN layer `l` reading `from`: the `l`-th dimension and activation (None past the list). */
  function FfnLayer(opts: FfnOpts, l2: real, l: nat, from: string): (r: Result<Val>)
    ensures r.Ok? <==> l < |opts.dims|
  {
    if l >= |opts.dims| then Err(IndexError)
    else
      var act := if opts.activations.Some? && l < |opts.activations.value| then opts.activations.value[l] else VNone;
      Ok(LinearLayer(opts.dims[l], l2, from, act))
  }

  /** The input of the chained FFN layer `l`: the previous layer, or `inp` for the first. */
  function FfnSource(inp: string, l: nat): string
  {
    if l == 0 then inp else FfnName(l - 1)
  }

  /** What `att` reads after `k` FFN layers: the last one, or `inp` when there are none. */
  function FfnTop(inp: string, k: nat): string
  {
    FfnSource(inp, k)
  }

  /** The decoder unit after the first `k` chained FFN layers. */
  function FfnStack(unit: Dict, opts: FfnOpts, l2: real, inp: string, k: nat): Result<Dict>
    decreases k
  {
    if k == 0 then Ok(unit)
    else match FfnStack(unit, opts, l2, inp, k - 1)
      case Err(e) => Err(e)
      case Ok(u) =>
        match FfnLayer(opts, l2, k - 1, FfnSource(inp, k - 1))
        case Err(e) => Err(e)
        case Ok(layer) => Ok(u[FfnName(k - 1) := layer])
  }

  /** The decoder unit after the first `k` FFN layers as the script wires them: each from `inp`. */
  function FfnStackAsWritten(unit: Dict, opts: FfnOpts, l2: real, inp: string, k: nat): Result<Dict>
    decreases k
  {
    if k == 0 then Ok(unit)
    else match FfnStackAsWritten(unit, opts, l2, inp, k - 1)
      case Err(e) => Err(e)
      case Ok(u) =>
        match FfnLayer(opts, l2, k - 1, inp)
        case Err(e) => Err(e)
        case Ok(layer) => Ok(u[FfnName(k - 1) := layer])
  }

  /** A linear layer reads the layer it is given. */
  lemma LinearLayerFrom(nOut: Val, l2: real, from: string, activation: Val)
    ensures LinearLayer(nOut, l2, from, activation).VDict?
    ensures "from" in LinearLayer(nOut, l2, from, activation).entries
    ensures LinearLayer(nOut, l2, from, activation).entries["from"] == VStr(from)
  {
  }

  /** An FFN layer reads the input it is given. */
  lemma FfnLayerFrom(opts: FfnOpts, l2: real, l: nat, from: string)
    requires FfnLayer(opts, l2, l, from).Ok?
    ensures var layer := FfnLayer(opts, l2, l, from).value;
            layer.VDict? && "from" in layer.entries && layer.entries["from"] == VStr(from)
  {
    var act := if opts.activations.Some? && l < |opts.activations.value| then opts.activations.value[l] else VNone;
    LinearLayerFrom(opts.dims[l], l2, from, act);
  }

  /** Distinct FFN layers have distinct names. */
  lemma FfnNamesDistinct(k: nat)
    ensures forall l :: 0 <= l < k ==> FfnName(l) != FfnName(k)
  {
    forall l | 0 <= l < k
      ensures FfnName(l) != FfnName(k)
    {
      if FfnName(l) == FfnName(k) {
        FfnNameInjective(l, k);
      }
    }
  }

  /** The chained stack fails exactly when a dimension is missing. */
  lemma {:induction false} FfnStackOk(unit: Dict, opts: FfnOpts, l2: real, inp: string, k: nat)
    ensures FfnStack(unit, opts, l2, inp, k).Ok? <==> k <= |opts.dims|
    decreases k
  {
    hide FfnName, FfnSource;
    if k > 0 {
      FfnStackOk(unit, opts, l2, inp, k - 1);
    }
  }

  /**
   * The chained stack holds layer `l` reading its predecessor (the first
   * reads `inp`) and keeps every other entry of the unit.
   */
  lemma {:induction false} FfnStackWiring(unit: Dict, opts: FfnOpts, l2: real, inp: string, k: nat)
    requires FfnStack(unit, opts, l2, inp, k).Ok?
    ensures var u := FfnStack(unit, opts, l2, inp, k).value;
            && (forall l :: 0 <= l < k ==> FfnName(l) in u && Ok(u[FfnName(l)]) == FfnLayer(opts, l2, l, FfnSource(inp, l)))
            && (forall key :: key in unit ==> key in u)
            && (forall key :: key in unit && (forall l :: 0 <= l < k ==> key != FfnName(l)) ==> u[key] == unit[key])
    decreases k
  {
    hide FfnName, FfnSource, FfnLayer;
    if k > 0 {
      FfnStackWiring(unit, opts, l2, inp, k - 1);
      FfnNamesDistinct(k - 1);
    }
  }

  /** In the chained stack every layer but the last feeds the next one. */
  lemma FfnStackChained(unit: Dict, opts: FfnOpts, l2: real, inp: string, k: nat, l: nat)
    requires k <= |opts.dims| && l + 1 < k
    ensures FfnStack(unit, opts, l2, inp, k).Ok?
    ensures var u := FfnStack(unit, opts, l2, inp, k).value;
            FfnName(l + 1) in u && u[FfnName(l + 1)].VDict? && "from" in u[FfnName(l + 1)].entries
            && u[FfnName(l + 1)].entries["from"] == VStr(FfnName(l))
  {
    hide FfnName, FfnLayer, FfnStack;
    FfnStackOk(unit, opts, l2, inp, k);
    FfnStackWiring(unit, opts, l2, inp, k);
    assert FfnSource(inp, l + 1) == FfnName(l);
    FfnLayerFrom(opts, l2, l + 1, FfnName(l));
  }

  /** As written, every created FFN layer reads `inp`. */
  lemma {:induction false} FfnAsWrittenReadsInp(unit: Dict, opts: FfnOpts, l2: real, inp: string, k: nat)
    ensures FfnStackAsWritten(unit, opts, l2, inp, k).Ok? <==> k <= |opts.dims|
    ensures FfnStackAsWritten(unit, opts, l2, inp, k).Ok? ==>
              var u := FfnStackAsWritten(unit, opts, l2, inp, k).value;
              forall l :: 0 <= l < k ==> FfnName(l) in u && Ok(u[FfnName(l)]) == FfnLayer(opts, l2, l, inp)
    decreases k
  {
    hide FfnName, FfnLayer;
    if k > 0 {
      FfnAsWrittenReadsInp(unit, opts, l2, inp, k - 1);
      FfnNamesDistinct(k - 1);
    }
  }

  /**
   * With two or more FFN layers (any `ffn_opts` with `num_ffn_layers` 2 and
   * two dimensions shows it), the layers as written leave `ffn_01` unread:
   * neither a later FFN layer nor `att` (which reads the last one) takes
   * it as input, whereas in the chained stack `ffn_02` reads it.
   */
  lemma FfnAsWrittenDeadLayer(unit: Dict, opts: FfnOpts, l2: real, inp: string)
    requires 2 <= NumFfn(opts) <= |opts.dims| && inp != FfnName(0)
    ensures var u := FfnStackAsWritten(unit, opts, l2, inp, NumFfn(opts));
            && u.Ok?
            && (forall l :: 0 <= l < NumFfn(opts) ==>
                  FfnName(l) in u.value && u.value[FfnName(l)].VDict? && "from" in u.value[FfnName(l)].entries
                  && u.value[FfnName(l)].entries["from"] != VStr(FfnName(0)))
            && FfnTop(inp, NumFfn(opts)) != FfnName(0)
    ensures var c := FfnStack(unit, opts, l2, inp, NumFfn(opts));
            && c.Ok? && FfnName(1) in c.value && c.value[FfnName(1)].VDict? && "from" in c.value[FfnName(1)].entries
            && c.value[FfnName(1)].entries["from"] == VStr(FfnName(0))
  {
    hide FfnName, FfnLayer, FfnStack, FfnStackAsWritten;
    var n := NumFfn(opts);
    FfnAsWrittenReadsInp(unit, opts, l2, inp, n);
    forall l | 0 <= l < n
      ensures var layer := FfnStackAsWritten(unit, opts, l2, inp, n).value[FfnName(l)];
              layer.VDict? && "from" in layer.entries && layer.entries["from"] == VStr(inp)
    {
      FfnLayerFrom(opts, l2, l, inp);
    }
    FfnStackChained(unit, opts, l2, inp, n, 0);
    FfnNamesDistinct(n - 1);
  }

  /** `params_freeze_str`; `ffn_opts[...]` on None raises `TypeError`. */
  function FreezeString(req: MiniLstmRequest, fs: FreezeStrings): (r: Result<string>)
    ensures !req.wDrop ==> r == Ok(fs.miniLstm)
    ensures req.wDrop && !req.useFfn ==> r == Ok(fs.miniLstmWDrop)
    ensures req.wDrop && req.useFfn ==>
              r == if req.ffnOpts.Some? then Ok(fs.ffnWDrop(req.ffnOpts.value.numLayers))
                   else Err(TypeError("'NoneType' object is not subscriptable"))
  {
    if !req.wDrop then Ok(fs.miniLstm)
    else if req.useFfn then
      (if req.ffnOpts.Some? then Ok(fs.ffnWDrop(req.ffnOpts.value.numLayers))
       else Err(TypeError("'NoneType' object is not subscriptable")))
    else Ok(fs.miniLstmWDrop)
  }

  /** The keys the mini-LSTM setup writes into (a copy of) the arguments. */
  const MiniLstmKeys: set<string> :=
    {"batch_size", "with_pretrain", "lr", "allow_lr_scheduling", "encoder_args", "keep_all_epochs", "extra_str",
     "preload_from_files"}

  /**
   * The arguments of the ILM training: a copy of the model's arguments
   * with a fixed batch size, no pretraining or LR scheduling, the given
   * LR, no CTC, all epochs kept, the freeze string and the model
   * checkpoint preloaded; the extra keyword arguments override all of it.
   */
  function MiniLstmArgs(req: MiniLstmRequest, freeze: string): (r: Result<Dict>)
    ensures r.Ok? <==> "encoder_args" in req.args && req.args["encoder_args"].VObj?
    ensures r.Ok? ==> forall k :: k in req.kwargs ==> k in r.value && r.value[k] == req.kwargs[k]
    ensures r.Ok? ==> forall k :: k in req.args && k !in req.kwargs && k !in MiniLstmKeys ==> k in r.value && r.value[k] == req.args[k]
    ensures r.Ok? && "encoder_args" !in req.kwargs ==>
              var enc := req.args["encoder_args"];
              "encoder_args" in r.value && r.value["encoder_args"] == VObj(enc.cls, enc.attrs["with_ctc" := VBool(false)])
    ensures r.Ok? && "lr" !in req.kwargs ==> "lr" in r.value && r.value["lr"] == VReal(req.lr)
    ensures r.Ok? && "batch_size" !in req.kwargs ==> "batch_size" in r.value && r.value["batch_size"] == VInt(20000 * 160)
    ensures r.Ok? && "extra_str" !in req.kwargs ==> "extra_str" in r.value && r.value["extra_str"] == VStr(freeze)
  {
    var a := req.args["batch_size" := VInt(20000 * 160)]["with_pretrain" := VBool(false)]["lr" := VReal(req.lr)]
                     ["allow_lr_scheduling" := VBool(false)];
    match SetAttr(a, "encoder_args", "with_ctc", VBool(false))
    case Err(e) => Err(e)
    case Ok(a2) =>
      var imports := map["init_for_train" := VBool(true), "ignore_missing" := VBool(true), "filename" := VCkpt(req.checkpoint)];
      Ok(a2["keep_all_epochs" := VBool(true)]["extra_str" := VStr(freeze)]["preload_from_files" := VDict(map["import" := VDict(imports)])]
         + req.kwargs)
  }

  /** The decoder input of the ILM estimator: the decoder state or the previous target embedding. */
  function MiniLstmInput(req: MiniLstmRequest): string
  {
    if req.useDecState then "s" else "prev:target_embed"
  }

  /** The `att_lstm` layer of the mini-LSTM variant. */
  function AttLstmLayer(inp: string): Val
  {
    VDict(map["class" := VStr("rec"), "unit" := VStr("nativelstm2"), "from" := VStr(inp), "n_out" := VInt(50)])
  }

  /**
   * `train_mini_lstm` with chained FFN layers: the freeze string, the
   * arguments, the output prefix, and the decoder unit extended by the
   * ILM estimator whose `att` output has the encoder's key dimension.
   */
  function MiniLstmSpec(req: MiniLstmRequest, fs: FreezeStrings, unit: Dict): Result<MiniLstmPlan>
  {
    match FreezeString(req, fs)
    case Err(e) => Err(e)
    case Ok(freeze) =>
      match MiniLstmArgs(req, freeze)
      case Err(e) => Err(e)
      case Ok(a) =>
        var prefix := Join(Join(PrefixName, req.expName), req.name);
        var inp := MiniLstmInput(req);
        if req.useFfn then
          if req.ffnOpts.None? then Err(TypeError("'NoneType' object is not subscriptable"))
          else
            var opts := req.ffnOpts.value;
            match FfnStack(unit, opts, req.l2, inp, NumFfn(opts))
            case Err(e) => Err(e)
            case Ok(u) =>
              match GetAttr(a, "encoder_args", "enc_key_dim")
              case Err(e) => Err(e)
              case Ok(dim) => Ok(MiniLstmPlan(prefix, a, u["att" := LinearLayer(dim, req.l2, FfnTop(inp, NumFfn(opts)), VNone)]))
        else
          var u := unit["att_lstm" := AttLstmLayer(inp)];
          match GetAttr(a, "encoder_args", "enc_key_dim")
          case Err(e) => Err(e)
          case Ok(dim) => Ok(MiniLstmPlan(prefix, a, u["att" := LinearLayer(dim, req.l2, "att_lstm", VNone)]))
  }

  /**
   * The ILM estimator's output layer `att` has the encoder's key
   * dimension and reads the estimator's last layer: `att_lstm` for the
   * mini-LSTM, which reads the decoder input; the last FFN layer (or the
   * decoder input when there are none) for the FFN variant.
   */
  lemma MiniLstmOutput(req: MiniLstmRequest, fs: FreezeStrings, unit: Dict)
    requires MiniLstmSpec(req, fs, unit).Ok?
    ensures var plan := MiniLstmSpec(req, fs, unit).value;
            var inp := MiniLstmInput(req);
            && GetAttr(plan.args, "encoder_args", "enc_key_dim").Ok?
            && var dim := GetAttr(plan.args, "encoder_args", "enc_key_dim").value;
            && plan.prefix == Join(Join(PrefixName, req.expName), req.name)
            && "att" in plan.unit
            && (!req.useFfn ==> plan.unit["att"] == LinearLayer(dim, req.l2, "att_lstm", VNone)
                                && "att_lstm" in plan.unit && plan.unit["att_lstm"].entries["from"] == VStr(inp))
            && (req.useFfn ==> req.ffnOpts.Some? && NumFfn(req.ffnOpts.value) <= |req.ffnOpts.value.dims|
                               && plan.unit["att"] == LinearLayer(dim, req.l2, FfnTop(inp, NumFfn(req.ffnOpts.value)), VNone))
  {
    hide FfnStack, LinearLayer, FreezeString;
    if req.useFfn {
      var opts := req.ffnOpts.value;
      FfnStackOk(unit, opts, req.l2, MiniLstmInput(req), NumFfn(opts));
    } else {
      var inp := MiniLstmInput(req);
      assert AttLstmLayer(inp).entries["from"] == VStr(inp);
    }
  }

  /**
   * `train_mini_lstm` up to the training job: builds the arguments and
   * adds the ILM estimator's layers to the decoder unit of the created
   * config (`unit`), the FFN layers one per loop step.
   */
  method TrainMiniLstm(req: MiniLstmRequest, fs: FreezeStrings, unit: Dict) returns (r: Result<MiniLstmPlan>)
    ensures r == MiniLstmSpec(req, fs, unit)
  {
    hide FreezeString, MiniLstmArgs, FfnLayer, LinearLayer, AttLstmLayer, GetAttr, Join, FfnName;
    var freeze := FreezeString(req, fs);
    if freeze.Err? {
      return Err(freeze.error);
    }
    var args := MiniLstmArgs(req, freeze.value);
    if args.Err? {
      return Err(args.error);
    }
    var prefix := Join(Join(PrefixName, req.expName), req.name);
    var inp := MiniLstmInput(req);
    var u := unit;
    var from := "att_lstm";
    if req.useFfn {
      if req.ffnOpts.None? {
        return Err(TypeError("'NoneType' object is not subscriptable"));
      }
      var opts := req.ffnOpts.value;
      from := inp;
      var l := 0;
      while l < opts.numLayers
        invariant 0 <= l && (l <= opts.numLayers || l == 0)
        invariant FfnStack(unit, opts, req.l2, inp, l) == Ok(u) && from == FfnTop(inp, l)
      {
        var layer := FfnLayer(opts, req.l2, l, from);
        if layer.Err? {
          FfnStackFails(unit, opts, req.l2, inp, l + 1, NumFfn(opts));
          return Err(layer.error);
        }
        u := u[FfnName(l) := layer.value];
        from := FfnName(l);
        l := l + 1;
      }
      assert l == NumFfn(opts);
    } else {
      u := u["att_lstm" := AttLstmLayer(inp)];
    }
    var dim := GetAttr(args.value, "encoder_args", "enc_key_dim");
    if dim.Err? {
      return Err(dim.error);
    }
    r := Ok(MiniLstmPlan(prefix, args.value, u["att" := LinearLayer(dim.value, req.l2, from, VNone)]));
  }

  /** A failed FFN stack stays failed with more layers. */
  lemma {:induction false} FfnStackFails(unit: Dict, opts: FfnOpts, l2: real, inp: string, k: nat, m: nat)
    requires k <= m && FfnStack(unit, opts, l2, inp, k).Err?
    ensures FfnStack(unit, opts, l2, inp, m) == FfnStack(unit, opts, l2, inp, k)
    decreases m
  {
    if m > k {
      FfnStackFails(unit, opts, l2, inp, k, m - 1);
    }
  }
}
