/**
 * The `CTCDecoder` builder: an object holding its configuration, the base
 * model's network, a network of its own and the recurrent unit it fills.
 * Its methods write the layer dicts of `CtcLayers` into those networks;
 * `CreateNetwork` picks the decoder variant from the flags.  The functions
 * `GreedyUnit`, `ExtLmUnit`, `AttUnit`, `LmAttUnit` and `BaseAdditions` are
 * what the methods end up writing, and the lemmas below say what those
 * networks compute.
 */
module CtcDecoder {
  import opened Common
  import opened ReturnnNet
  import opened CtcSemantics
  import opened CtcLayers
  import opened CtcUnit

  /** `ext_lm_opts["lm_subnet"]`: a network dict, or some other Python value. */
  datatype SubnetValue = SubnetDict(layers: map<string, Layer>) | NotADict

  /** The keys of `ext_lm_opts` the builder reads (`None` for a missing key). */
  datatype ExtLmOpts = ExtLmOpts(lmSubnet: Option<SubnetValue>, lmModel: Option<string>,
                                 loadOnInitOpts: Option<map<string, string>>)

  /** Where the LM subnet reads its label from once rewired. */
  const LmLabelSource := "base:prev_output_reinterpret"

  /** The LM layer whose `from` is rewired, by `lm_type`. */
  function LmEntryLayer(lmType: Option<string>): Option<string>
  {
    if lmType == Some("lstm") then Some("input")
    else if lmType == Some("trafo") then Some("target_embed_raw")
    else None
  }

  /** Python truthiness of `ext_lm_opts.get("lm_model", None)`. */
  predicate Truthy(s: Option<string>)
  {
    s.Some? && s.value != ""
  }

  /**
   * `ext_lm_subnet[entry]["from"] = "base:prev_output_reinterpret"`: the
   * entry layer now reads the previous label and nothing else changes.
   */
  function RewireLm(lmType: Option<string>, sub: SubnetValue): (r: Result<SubnetValue>)
    ensures LmEntryLayer(lmType).None? ==> r == Ok(sub)
    ensures LmEntryLayer(lmType).Some? ==>
              (r.Ok? <==> sub.SubnetDict? && LmEntryLayer(lmType).value in sub.layers)
    ensures r.Ok? && LmEntryLayer(lmType).Some? ==>
              var e := LmEntryLayer(lmType).value;
              && r.value.SubnetDict?
              && r.value.layers.Keys == sub.layers.Keys
              && r.value.layers[e].from == [LmLabelSource]
              && r.value.layers[e].kind == sub.layers[e].kind
              && (forall k :: k in sub.layers && k != e ==> r.value.layers[k] == sub.layers[k])
  {
    match LmEntryLayer(lmType)
    case None => Ok(sub)
    case Some(e) =>
      match sub
      case NotADict => Err(TypeError("object is not subscriptable"))
      case SubnetDict(layers) =>
        if e !in layers then Err(KeyError(e))
        else Ok(SubnetDict(layers[e := layers[e].(from := [LmLabelSource])]))
  }

  /**
   * What `get_lm_subnet_unit` returns: the `lm_output` subnetwork layer
   * around the rewired LM, loaded from `lm_model` when that is set, else
   * from `load_on_init_opts`, which must name a `filename`.
   */
  function LmSubnetUnit(lmType: Option<string>, opts: Option<ExtLmOpts>): (r: Result<Layer>)
    ensures r.Ok? ==> r.value.from == [] && r.value.kind.Subnetwork? && r.value.kind.loadOnInit.Some?
    ensures r.Ok? <==>
              && opts.Some? && opts.value.lmSubnet.Some?
              && RewireLm(lmType, opts.value.lmSubnet.value).Ok?
              && RewireLm(lmType, opts.value.lmSubnet.value).value.SubnetDict?
              && (Truthy(opts.value.lmModel) ||
                  (opts.value.loadOnInitOpts.Some? && "filename" in opts.value.loadOnInitOpts.value))
    ensures r.Ok? ==>
              r.value.kind.net == RewireLm(lmType, opts.value.lmSubnet.value).value.layers
    ensures r.Ok? ==>
              r.value.kind.loadOnInit.value ==
                if Truthy(opts.value.lmModel) then Checkpoint(opts.value.lmModel.value)
                else LoadOpts(opts.value.loadOnInitOpts.value)
    ensures opts.None? ==> r.Err? && r.error.TypeError?
    ensures opts.Some? && opts.value.lmSubnet.None? ==> r == Err(KeyError("lm_subnet"))
  {
    match opts
    case None => Err(TypeError("'NoneType' object is not subscriptable"))
    case Some(o) =>
      match o.lmSubnet
      case None => Err(KeyError("lm_subnet"))
      case Some(sub) =>
        match RewireLm(lmType, sub)
        case Err(e) => Err(e)
        case Ok(rewired) =>
          if rewired.NotADict? then Err(AssertionError(""))
          else if Truthy(o.lmModel) then Ok(L(Subnetwork(rewired.layers, Some(Checkpoint(o.lmModel.value))), []))
          else if o.loadOnInitOpts.None? then
            Err(AssertionError("load_on_init opts or lm_model are missing for loading subnet."))
          else if "filename" !in o.loadOnInitOpts.value then
            Err(AssertionError("Checkpoint missing for loading subnet."))
          else Ok(L(Subnetwork(rewired.layers, Some(LoadOpts(o.loadOnInitOpts.value))), []))
  }

  /** `ext_lm_opts` after `get_lm_subnet_unit`: the subnet rewired in place once that step succeeded. */
  function OptsAfterLmUnit(lmType: Option<string>, opts: Option<ExtLmOpts>): Option<ExtLmOpts>
  {
    match opts
    case None => None
    case Some(o) =>
      match o.lmSubnet
      case None => opts
      case Some(sub) =>
        match RewireLm(lmType, sub)
        case Err(_) => opts
        case Ok(rewired) => Some(o.(lmSubnet := Some(rewired)))
  }

  // ---------------------------------------------------------------------
  // What the builder writes
  // ---------------------------------------------------------------------

  /**
   * A fused unit: CTC scores, masks, the models' own layers (`middle`) and
   * the score combination, in the order the builder writes them.
   */
  function FusedUnit(cfg: DecoderConfig, middle: Entries, att: Option<string>, lm: Option<string>): Entries
  {
    CtcScoreLayers(cfg) + MaskLayers() + middle + ScoreCombinationLayers(cfg, att, lm)
  }

  /** The update `add_greedy_with_ext_lm_decoder` writes after the masks. */
  function ExtLmMiddle(lmUnit: Layer): Entries
  {
    [("prev_output_reinterpret", L(Reinterpret(Some(10025)), ["prev:output"]))] + LmLayers(lmUnit)
  }

  /** The attention decoder dict followed by the LM update. */
  function LmAttMiddle(lmUnit: Layer): Entries
  {
    AttentionDecoderDict() + LmLayers(lmUnit)
  }

  /** The unit of the LM-fused greedy decoder. */
  function ExtLmUnit(cfg: DecoderConfig, lmUnit: Layer): Entries
  {
    FusedUnit(cfg, ExtLmMiddle(lmUnit), None, Some(LmLayer))
  }

  /** The unit of the attention-fused greedy decoder. */
  function AttUnit(cfg: DecoderConfig): Entries
  {
    FusedUnit(cfg, AttentionDecoderDict(), Some(AttLayer), None)
  }

  /** The unit of the decoder fusing both the attention decoder and the LM. */
  function LmAttUnit(cfg: DecoderConfig, lmUnit: Layer): Entries
  {
    FusedUnit(cfg, LmAttMiddle(lmUnit), Some(AttLayer), Some(LmLayer))
  }

  /** The unit `create_network` fills, by the two fusion flags. */
  function UnitEntries(cfg: DecoderConfig, lm: Result<Layer>): Entries
    requires cfg.addExtLm ==> lm.Ok?
  {
    if cfg.addExtLm && !cfg.addAttDec then ExtLmUnit(cfg, lm.value)
    else if cfg.addAttDec && !cfg.addExtLm then AttUnit(cfg)
    else if cfg.addAttDec && cfg.addExtLm then LmAttUnit(cfg, lm.value)
    else GreedyLayers(cfg)
  }

  /** The `ctc_source` in effect once `remove_eos_from_ctc_logits` ran (or did not). */
  function FinalCtcSource(cfg: DecoderConfig, src: string): string
  {
    if !cfg.removeEos then src
    else if cfg.addAttDec || cfg.addExtLm then "ctc_no_eos_postfix_in_time"
    else "ctc_no_eos"
  }

  /** `remove_eos_from_ctc_logits` on the base network. */
  function EosBaseLayers(cfg: DecoderConfig, src: string): Entries
  {
    EosRemapLayers(src)
    + When(cfg.addAttDec || cfg.addExtLm, [("ctc_no_eos_postfix_in_time", L(PostfixInTime, ["ctc_no_eos"]))])
  }

  const EncSeqLen: Entries := [("enc_seq_len", L(Length, ["encoder"]))]

  /** What `create_network` adds for the encoder: its length, or the attention inputs. */
  function EncoderLayers(cfg: DecoderConfig): Entries
    requires cfg.addAttDec ==> cfg.attNumHeads != 0
  {
    if cfg.addExtLm && !cfg.addAttDec then EncSeqLen
    else if cfg.addAttDec then EncOutputLayers(cfg)
    else []
  }

  /** Everything `create_network` adds to the base network when it succeeds. */
  function BaseAdditions(cfg: DecoderConfig, src: string): Entries
    requires cfg.addAttDec ==> cfg.attNumHeads != 0
  {
    When(cfg.removeEos, EosBaseLayers(cfg, src))
    + EncoderLayers(cfg)
    + FilterLayers(cfg.target, cfg.targetWBlank)
  }

  /** How `create_network` ends: the first exception raised, else the name of the decoder output. */
  function CreateOutcome(cfg: DecoderConfig, opts: Option<ExtLmOpts>): Result<string>
  {
    if cfg.addAttDec && cfg.attNumHeads == 0 then Err(ZeroDivisionError)
    else if cfg.addExtLm && LmSubnetUnit(cfg.lmType, opts).Err? then Err(LmSubnetUnit(cfg.lmType, opts).error)
    else Ok("output")
  }

  /** The recurrent layer `output` of the decoder's network around a unit. */
  function RecOutput(unit: map<string, Layer>, cfg: DecoderConfig, src: string): Layer
  {
    L(RecLayer(unit, cfg.targetWBlank), [src])
  }

  /** The layer the fused units' `output` choice reads. */
  function ScoreSource(cfg: DecoderConfig): string
  {
    if cfg.removeEos then "p_comb_sigma_prime_w_eos" else "p_comb_sigma_prime"
  }

  /** The updates of `add_score_combination`, one after the other, are its table. */
  lemma ScoreCombinationSteps(d: map<string, Layer>, cfg: DecoderConfig, att: Option<string>, lm: Option<string>)
    ensures Merge(Merge(Merge(Merge(Merge(Merge(Merge(d,
              When(cfg.addAttDec, AttScoreLayers(cfg, att))),
              When(cfg.addExtLm, LmScoreLayers(cfg, lm))),
              When(cfg.useTsDiscount, TsDiscountLayers())),
              CombinationLayers(cfg)), PrefixTermLayers(cfg)), ScoreOutputLayers(cfg)),
              When(cfg.removeEos, EosForcingLayers(cfg, att, lm)))
            == Merge(d, ScoreCombinationLayers(cfg, att, lm))
  {
    hide AttScoreLayers, LmScoreLayers, TsDiscountLayers, CombinationLayers, PrefixTermLayers,
      ScoreOutputLayers, EosForcingLayers;
    var a := When(cfg.addAttDec, AttScoreLayers(cfg, att));
    var b := When(cfg.addExtLm, LmScoreLayers(cfg, lm));
    var c := When(cfg.useTsDiscount, TsDiscountLayers());
    var e := When(cfg.removeEos, EosForcingLayers(cfg, att, lm));
    MergeAppend(d, a, b);
    MergeAppend(d, a + b, c);
    MergeAppend(d, a + b + c, CombinationLayers(cfg));
    MergeAppend(d, a + b + c + CombinationLayers(cfg), PrefixTermLayers(cfg));
    MergeAppend(d, a + b + c + CombinationLayers(cfg) + PrefixTermLayers(cfg), ScoreOutputLayers(cfg));
    MergeAppend(d, a + b + c + CombinationLayers(cfg) + PrefixTermLayers(cfg) + ScoreOutputLayers(cfg), e);
  }

  /** The four updates of a fused decoder are its unit. */
  lemma FusedSteps(d: map<string, Layer>, cfg: DecoderConfig, middle: Entries, att: Option<string>, lm: Option<string>)
    ensures Merge(Merge(Merge(Merge(d, CtcScoreLayers(cfg)), MaskLayers()), middle), ScoreCombinationLayers(cfg, att, lm))
            == Merge(d, FusedUnit(cfg, middle, att, lm))
  {
    MergeAppend4(d, CtcScoreLayers(cfg), MaskLayers(), middle, ScoreCombinationLayers(cfg, att, lm));
  }

  // ---------------------------------------------------------------------
  // The builder object
  // ---------------------------------------------------------------------

  /** The slices and sums of `remove_eos_from_ctc_logits`, written into `net` one by one. */
  method AddEosRemapLayers(net: Network, src: string)
    modifies net
    ensures net.layers == Merge(old(net.layers), EosRemapLayers(src))
  {
    ghost var m0 := net.layers;
    ghost var es := EosRemapLayers(src);
    net.Set("ctc_no_eos_no_blank_slice", L(Slice(1, 10025), [src]));
    MergeNext(m0, es, 0);
    net.Set("ctc_eos_slice", L(Slice(0, 1), [src]));
    MergeNext(m0, es, 1);
    net.Set("ctc_blank_slice", L(Slice(10025, 10026), [src]));
    MergeNext(m0, es, 2);
    net.Set("zeros", L(EvalLayerExpr(TimesZero), ["ctc_eos_slice"]));
    MergeNext(m0, es, 3);
    net.Update([("ctc_blank_plus_eos", L(Combine(Add), ["ctc_blank_slice", "ctc_eos_slice"])),
                ("ctc_no_eos", L(Concat, ["zeros", "ctc_no_eos_no_blank_slice", "ctc_blank_plus_eos"]))]);
    MergeAppend(m0, es[..4], es[4..]);
    assert es[..4] + es[4..] == es;
  }

  class Decoder {
    const cfg: DecoderConfig
    /** `self.base_model.network`. */
    const baseNetwork: Network
    /** `self.network`, which receives the recurrent layer. */
    const network: Network
    /** `self.subnet_unit`, the recurrent unit. */
    const subnetUnit: Network
    var ctcSource: string
    var extLmOpts: Option<ExtLmOpts>
    var decOutput: Option<string>
    var decisionLayerName: Option<string>

    /** The three networks are distinct objects. */
    predicate Valid()
      reads this
    {
      baseNetwork != network && baseNetwork != subnetUnit && network != subnetUnit
    }

    constructor (baseNet: Network, config: DecoderConfig, lmOpts: Option<ExtLmOpts>)
      ensures Valid() && cfg == config && baseNetwork == baseNet
      ensures ctcSource == config.ctcSource && extLmOpts == lmOpts
      ensures fresh(network) && fresh(subnetUnit) && network.layers == map[] && subnetUnit.layers == map[]
      ensures decOutput == None && decisionLayerName == None
    {
      cfg := config;
      baseNetwork := baseNet;
      ctcSource := config.ctcSource;
      extLmOpts := lmOpts;
      network := new Network();
      subnetUnit := new Network();
      decOutput := None;
      decisionLayerName := None;
    }

    method AddNormLayer(unit: Network, name: string) returns (r: string)
      modifies unit
      ensures unit.layers == Merge(old(unit.layers), NormLayers(name))
      ensures r == NormLayers(name)[1].0 && r in unit.layers
    {
      unit.Update(NormLayers(name));
      r := name + "_renorm";
    }

    method AddMasks(unit: Network)
      modifies unit
      ensures unit.layers == Merge(old(unit.layers), MaskLayers())
    {
      unit.Update(MaskLayers());
    }

    method AddCtcScores(unit: Network)
      modifies unit
      ensures unit.layers == Merge(old(unit.layers), CtcScoreLayers(cfg))
    {
      ghost var m0 := unit.layers;
      ghost var logScores: Entries;
      if cfg.ctcPriorCorrection {
        var p := PriorLayers(cfg.priorScale);
        var c := [("ctc_log_scores", L(Copy, ["ctc_log_scores_w_prior_renorm"]))];
        unit.Update(p);
        var _ := AddNormLayer(unit, "ctc_log_scores_w_prior");
        unit.Update(c);
        logScores := p + NormLayers("ctc_log_scores_w_prior") + c;
        MergeAppend(m0, p, NormLayers("ctc_log_scores_w_prior"));
        MergeAppend(m0, p + NormLayers("ctc_log_scores_w_prior"), c);
      } else {
        unit.Update([("ctc_log_scores", L(Act(SafeLog), ["data:source"]))]);
        logScores := [("ctc_log_scores", L(Act(SafeLog), ["data:source"]))];
      }
      unit.Update(BlankLayers());
      MergeAppend(m0, logScores, BlankLayers());
    }

    /** The first part of `add_score_combination`: the scaled scores of the fused models and `combine_list`. */
    method AddModelScores(unit: Network, att: Option<string>, lm: Option<string>) returns (combineList: seq<string>)
      modifies unit
      ensures combineList == CombineList(cfg)
      ensures unit.layers == Merge(Merge(Merge(old(unit.layers),
                               When(cfg.addAttDec, AttScoreLayers(cfg, att))),
                               When(cfg.addExtLm, LmScoreLayers(cfg, lm))),
                               When(cfg.useTsDiscount, TsDiscountLayers()))
    {
      combineList := [];
      if cfg.ctcScale > 0.0 {
        combineList := combineList + ["scaled_ctc_log_scores"];
      }
      unit.UpdateIf(cfg.addAttDec, AttScoreLayers(cfg, att));
      if cfg.addAttDec {
        combineList := combineList + ["scaled_att_log_scores"];
      }
      unit.UpdateIf(cfg.addExtLm, LmScoreLayers(cfg, lm));
      if cfg.addExtLm {
        combineList := combineList + ["scaled_lm_log_scores"];
      }
      unit.UpdateIf(cfg.useTsDiscount, TsDiscountLayers());
    }

    method AddScoreCombination(unit: Network, att: Option<string>, lm: Option<string>)
      modifies unit
      ensures unit.layers == Merge(old(unit.layers), ScoreCombinationLayers(cfg, att, lm))
    {
      hide AttScoreLayers, LmScoreLayers, TsDiscountLayers, CombinationLayersWith, PrefixTermLayers,
        ScoreOutputLayers, EosForcingLayers;
      ghost var m0 := unit.layers;
      var combineList := AddModelScores(unit, att, lm);
      unit.Update(CombinationLayersWith(cfg, combineList));
      unit.Update(PrefixTermLayers(cfg));
      unit.Update(ScoreOutputLayers(cfg));
      unit.UpdateIf(cfg.removeEos, EosForcingLayers(cfg, att, lm));
      ScoreCombinationSteps(m0, cfg, att, lm);
    }

    /** `add_subnet_rec_layer("output", unit=..., source=self.ctc_source)` on `self.network`. */
    method AddRecOutput(unit: Network) returns (name: string)
      requires unit != network
      modifies network
      ensures network.layers == old(network.layers)["output" := RecOutput(unit.layers, cfg, ctcSource)]
      ensures name == "output"
    {
      network.Set("output", RecOutput(unit.Get(), cfg, ctcSource));
      name := "output";
    }

    method AddGreedyDecoder(unit: Network) returns (decOut: string)
      requires unit != network
      modifies unit, network
      ensures unit.layers == Merge(old(unit.layers), GreedyLayers(cfg))
      ensures network.layers == old(network.layers)["output" := RecOutput(unit.layers, cfg, ctcSource)]
      ensures decOut == "output"
    {
      ghost var m0 := unit.layers;
      var source := "data:source";
      var inputType: Option<InputType> := None;
      if cfg.blankProbScale > 0.0 {
        unit.Update(BlankPenaltyLayers(cfg));
        source := "ctc_w_blank_scale";
        inputType := Some(LogProb);
      } else if cfg.ctcPriorCorrection {
        unit.Update(GreedyPriorLayers(cfg));
        source := "ctc_log_scores_w_prior";
      }
      ghost var scores: Entries := if cfg.blankProbScale > 0.0 then BlankPenaltyLayers(cfg)
                                   else if cfg.ctcPriorCorrection then GreedyPriorLayers(cfg)
                                   else [];
      var beam := if cfg.lengthNormalization then 1 else 2;
      unit.Set("output", Layer(Choice(cfg.targetWBlank, beam, inputType, None), [source], Some(IntS(0))));
      MergeSnoc(m0, scores, "output", GreedyChoice(cfg));
      decOut := AddRecOutput(unit);
    }

    method GetLmSubnetUnit() returns (r: Result<Layer>)
      modifies this
      ensures r == LmSubnetUnit(cfg.lmType, old(extLmOpts))
      ensures extLmOpts == OptsAfterLmUnit(cfg.lmType, old(extLmOpts))
      ensures ctcSource == old(ctcSource) && decOutput == old(decOutput)
      ensures decisionLayerName == old(decisionLayerName)
    {
      if extLmOpts.None? {
        return Err(TypeError("'NoneType' object is not subscriptable"));
      }
      var opts := extLmOpts.value;
      if opts.lmSubnet.None? {
        return Err(KeyError("lm_subnet"));
      }
      var sub := opts.lmSubnet.value;
      var entry := LmEntryLayer(cfg.lmType);
      if entry.Some? {
        if sub.NotADict? {
          return Err(TypeError("object is not subscriptable"));
        }
        if entry.value !in sub.layers {
          return Err(KeyError(entry.value));
        }
        sub := SubnetDict(sub.layers[entry.value := sub.layers[entry.value].(from := [LmLabelSource])]);
        extLmOpts := Some(opts.(lmSubnet := Some(sub)));
      }
      if sub.NotADict? {
        return Err(AssertionError(""));
      }
      var loadOnInit: LoadOnInit;
      if Truthy(opts.lmModel) {
        loadOnInit := Checkpoint(opts.lmModel.value);
      } else {
        if opts.loadOnInitOpts.None? {
          return Err(AssertionError("load_on_init opts or lm_model are missing for loading subnet."));
        }
        if "filename" !in opts.loadOnInitOpts.value {
          return Err(AssertionError("Checkpoint missing for loading subnet."));
        }
        loadOnInit := LoadOpts(opts.loadOnInitOpts.value);
      }
      var lmNetOut := new Network();
      lmNetOut.Set("lm_output", L(Subnetwork(sub.layers, Some(loadOnInit)), []));
      r := Ok(lmNetOut.Get()["lm_output"]);
    }

    method AddGreedyWithExtLmDecoder(unit: Network) returns (r: Result<string>)
      requires Valid() && unit != network
      modifies this, unit, network
      ensures extLmOpts == OptsAfterLmUnit(cfg.lmType, old(extLmOpts)) && ctcSource == old(ctcSource)
      ensures decOutput == old(decOutput) && decisionLayerName == old(decisionLayerName)
      ensures r.Ok? <==> LmSubnetUnit(cfg.lmType, old(extLmOpts)).Ok?
      ensures r.Err? ==> r.error == LmSubnetUnit(cfg.lmType, old(extLmOpts)).error
      ensures r.Err? ==> unit.layers == Merge(old(unit.layers), CtcScoreLayers(cfg) + MaskLayers())
      ensures r.Ok? ==>
                && r.value == "output"
                && unit.layers == Merge(old(unit.layers), ExtLmUnit(cfg, LmSubnetUnit(cfg.lmType, old(extLmOpts)).value))
                && network.layers == old(network.layers)["output" := RecOutput(unit.layers, cfg, ctcSource)]
    {
      hide CtcScoreLayers, MaskLayers, AttentionDecoderDict, LmLayers, ScoreCombinationLayers;
      ghost var m0 := unit.layers;
      AddCtcScores(unit);
      AddMasks(unit);
      MergeAppend(m0, CtcScoreLayers(cfg), MaskLayers());
      var lmUnit := GetLmSubnetUnit();
      if lmUnit.Err? {
        return Err(lmUnit.error);
      }
      unit.Update(ExtLmMiddle(lmUnit.value));
      AddScoreCombination(unit, None, Some(LmLayer));
      FusedSteps(m0, cfg, ExtLmMiddle(lmUnit.value), None, Some(LmLayer));
      var name := AddRecOutput(unit);
      r := Ok(name);
    }

    method AddGreedyDecoderWithAtt(unit: Network) returns (decOut: string)
      requires unit != network
      modifies unit, network
      ensures unit.layers == Merge(old(unit.layers), AttUnit(cfg))
      ensures network.layers == old(network.layers)["output" := RecOutput(unit.layers, cfg, ctcSource)]
      ensures decOut == "output"
    {
      hide CtcScoreLayers, MaskLayers, AttentionDecoderDict, LmLayers, ScoreCombinationLayers;
      ghost var m0 := unit.layers;
      AddCtcScores(unit);
      AddMasks(unit);
      unit.Update(AttentionDecoderDict());
      AddScoreCombination(unit, Some(AttLayer), None);
      FusedSteps(m0, cfg, AttentionDecoderDict(), Some(AttLayer), None);
      decOut := AddRecOutput(unit);
    }

    method AddGreedyDecoderWithLmAndAtt(unit: Network) returns (r: Result<string>)
      requires Valid() && unit != network
      modifies this, unit, network
      ensures extLmOpts == OptsAfterLmUnit(cfg.lmType, old(extLmOpts)) && ctcSource == old(ctcSource)
      ensures decOutput == old(decOutput) && decisionLayerName == old(decisionLayerName)
      ensures r.Ok? <==> LmSubnetUnit(cfg.lmType, old(extLmOpts)).Ok?
      ensures r.Err? ==> r.error == LmSubnetUnit(cfg.lmType, old(extLmOpts)).error
      ensures r.Err? ==>
                unit.layers == Merge(old(unit.layers), CtcScoreLayers(cfg) + MaskLayers() + AttentionDecoderDict())
      ensures r.Ok? ==>
                && r.value == "output"
                && unit.layers == Merge(old(unit.layers), LmAttUnit(cfg, LmSubnetUnit(cfg.lmType, old(extLmOpts)).value))
                && network.layers == old(network.layers)["output" := RecOutput(unit.layers, cfg, ctcSource)]
    {
      hide CtcScoreLayers, MaskLayers, AttentionDecoderDict, LmLayers, ScoreCombinationLayers;
      ghost var m0 := unit.layers;
      AddCtcScores(unit);
      AddMasks(unit);
      unit.Update(AttentionDecoderDict());
      MergeAppend3(m0, CtcScoreLayers(cfg), MaskLayers(), AttentionDecoderDict());
      ghost var m1 := Merge(Merge(m0, CtcScoreLayers(cfg)), MaskLayers());
      var lmUnit := GetLmSubnetUnit();
      if lmUnit.Err? {
        return Err(lmUnit.error);
      }
      unit.Update(LmLayers(lmUnit.value));
      AddScoreCombination(unit, Some(AttLayer), Some(LmLayer));
      MergeAppend(m1, AttentionDecoderDict(), LmLayers(lmUnit.value));
      FusedSteps(m0, cfg, LmAttMiddle(lmUnit.value), Some(AttLayer), Some(LmLayer));
      var name := AddRecOutput(unit);
      r := Ok(name);
    }

    method RemoveEosFromCtcLogits()
      requires Valid()
      modifies this, baseNetwork
      ensures baseNetwork.layers == Merge(old(baseNetwork.layers), EosBaseLayers(cfg, old(ctcSource)))
      ensures ctcSource == (if cfg.addAttDec || cfg.addExtLm then "ctc_no_eos_postfix_in_time" else "ctc_no_eos")
      ensures extLmOpts == old(extLmOpts) && decOutput == old(decOutput)
      ensures decisionLayerName == old(decisionLayerName)
    {
      ghost var m0 := baseNetwork.layers;
      var src := ctcSource;
      ghost var es := EosRemapLayers(src);
      AddEosRemapLayers(baseNetwork, src);
      ctcSource := "ctc_no_eos";
      ghost var post := When(cfg.addAttDec || cfg.addExtLm, [("ctc_no_eos_postfix_in_time", L(PostfixInTime, ["ctc_no_eos"]))]);
      if cfg.addAttDec || cfg.addExtLm {
        baseNetwork.Update([("ctc_no_eos_postfix_in_time", L(PostfixInTime, ["ctc_no_eos"]))]);
        ctcSource := "ctc_no_eos_postfix_in_time";
      }
      MergeAppend(m0, es, post);
    }

    /** Fails with a division by zero, after writing `enc_ctx`, when there are no attention heads. */
    method AddEncOutputForAtt() returns (r: Result<()>)
      modifies baseNetwork
      ensures r.Ok? <==> cfg.attNumHeads != 0
      ensures r.Err? ==> r.error == ZeroDivisionError
      ensures r.Err? ==> baseNetwork.layers == old(baseNetwork.layers)["enc_ctx" := L(Linear(cfg.encKeyDim, None, true), ["encoder"])]
      ensures r.Ok? ==> baseNetwork.layers == Merge(old(baseNetwork.layers), EncOutputLayers(cfg))
    {
      ghost var m0 := baseNetwork.layers;
      baseNetwork.Set("enc_ctx", L(Linear(cfg.encKeyDim, None, true), ["encoder"]));
      if cfg.attNumHeads == 0 {
        return Err(ZeroDivisionError);
      }
      ghost var es := EncOutputLayers(cfg);
      MergeNext(m0, es, 0);
      baseNetwork.Set("enc_value", L(SplitDims([cfg.attNumHeads, FloorDiv(cfg.encValueDim, cfg.attNumHeads)]), ["encoder"]));
      MergeNext(m0, es, 1);
      baseNetwork.Set("inv_fertility", L(Linear(cfg.attNumHeads, Some(Sigmoid), false), ["encoder"]));
      MergeNext(m0, es, 2);
      baseNetwork.Set("enc_seq_len", L(Length, ["encoder"]));
      MergeNext(m0, es, 3);
      assert es[..4] == es;
      r := Ok(());
    }

    method AddFilterBlankAndMergeLabelsLayers(net: Network)
      modifies net
      ensures net.layers == Merge(old(net.layers), FilterLayers(cfg.target, cfg.targetWBlank))
    {
      ghost var m0 := net.layers;
      ghost var es := FilterLayers(cfg.target, cfg.targetWBlank);
      net.Set("out_best_", L(Decide(cfg.targetWBlank), ["output"]));
      MergeNext(m0, es, 0);
      net.Set("out_best", L(Reinterpret(Some(10025)), ["out_best_"]));
      MergeNext(m0, es, 1);
      net.Set("shift_right", L(ShiftRight(-1), ["out_best"]));
      MergeNext(m0, es, 2);
      net.Set("out_best_time_reinterpret", L(Reinterpret(None), ["out_best"]));
      MergeNext(m0, es, 3);
      net.Set("unique_mask", L(Compare(NotEqual, None), ["out_best_time_reinterpret", "shift_right"]));
      MergeNext(m0, es, 4);
      net.Set("non_blank_mask", L(Compare(NotEqual, Some(10025)), ["out_best_time_reinterpret"]));
      MergeNext(m0, es, 5);
      net.Set("out_best_mask", L(Combine(LogicalAnd), ["unique_mask", "non_blank_mask"]));
      MergeNext(m0, es, 6);
      net.Set("out_best_wo_blank", L(MaskedComputation("out_best_mask", L(Copy, []), Some(cfg.target)),
                                     ["out_best_time_reinterpret"]));
      MergeNext(m0, es, 7);
      net.Set("edit_distance", L(CopyWithLoss("edit_distance", cfg.target), ["out_best_wo_blank"]));
      MergeNext(m0, es, 8);
      assert es[..9] == es;
    }

    /** The branch of `create_network` that picks the decoder variant by the fusion flags. */
    method AddDecoder() returns (r: Result<string>)
      requires Valid()
      modifies this, baseNetwork, network, subnetUnit
      ensures r == CreateOutcome(cfg, old(extLmOpts))
      ensures extLmOpts == if cfg.addExtLm && !(cfg.addAttDec && cfg.attNumHeads == 0)
                           then OptsAfterLmUnit(cfg.lmType, old(extLmOpts)) else old(extLmOpts)
      ensures ctcSource == old(ctcSource) && decisionLayerName == old(decisionLayerName)
      ensures r.Err? ==> decOutput == old(decOutput)
      ensures r.Ok? ==>
                && (cfg.addExtLm ==> LmSubnetUnit(cfg.lmType, old(extLmOpts)).Ok?)
                && (cfg.addAttDec ==> cfg.attNumHeads != 0)
                && baseNetwork.layers == Merge(old(baseNetwork.layers), EncoderLayers(cfg))
                && subnetUnit.layers == Merge(old(subnetUnit.layers), UnitEntries(cfg, LmSubnetUnit(cfg.lmType, old(extLmOpts))))
                && network.layers == old(network.layers)["output" := RecOutput(subnetUnit.layers, cfg, ctcSource)]
                && decOutput == Some("output")
    {
      hide ExtLmUnit, AttUnit, LmAttUnit, GreedyLayers, EncOutputLayers;
      if cfg.addExtLm && !cfg.addAttDec {
        baseNetwork.Set("enc_seq_len", L(Length, ["encoder"]));
        var res := AddGreedyWithExtLmDecoder(subnetUnit);
        if res.Err? {
          return Err(res.error);
        }
        decOutput := Some(res.value);
      } else if cfg.addAttDec && !cfg.addExtLm {
        var enc := AddEncOutputForAtt();
        if enc.Err? {
          return Err(enc.error);
        }
        var out := AddGreedyDecoderWithAtt(subnetUnit);
        decOutput := Some(out);
      } else if cfg.addAttDec && cfg.addExtLm {
        var enc := AddEncOutputForAtt();
        if enc.Err? {
          return Err(enc.error);
        }
        var res := AddGreedyDecoderWithLmAndAtt(subnetUnit);
        if res.Err? {
          return Err(res.error);
        }
        decOutput := Some(res.value);
      } else {
        var out := AddGreedyDecoder(subnetUnit);
        decOutput := Some(out);
      }
      r := Ok(decOutput.value);
    }

    /**
     * `create_network`: the EOS remap on the base network, the decoder
     * variant, then the filter layers that collapse the best path.
     */
    method CreateNetwork() returns (r: Result<string>)
      requires Valid()
      modifies this, baseNetwork, network, subnetUnit
      ensures r == CreateOutcome(cfg, old(extLmOpts))
      ensures extLmOpts == if cfg.addExtLm && !(cfg.addAttDec && cfg.attNumHeads == 0)
                           then OptsAfterLmUnit(cfg.lmType, old(extLmOpts)) else old(extLmOpts)
      ensures r.Err? ==> decisionLayerName == old(decisionLayerName) && decOutput == old(decOutput)
      ensures r.Ok? ==>
                && (cfg.addExtLm ==> LmSubnetUnit(cfg.lmType, old(extLmOpts)).Ok?)
                && (cfg.addAttDec ==> cfg.attNumHeads != 0)
                && ctcSource == FinalCtcSource(cfg, old(ctcSource))
                && baseNetwork.layers == Merge(old(baseNetwork.layers), BaseAdditions(cfg, old(ctcSource)))
                && subnetUnit.layers == Merge(old(subnetUnit.layers), UnitEntries(cfg, LmSubnetUnit(cfg.lmType, old(extLmOpts))))
                && network.layers == old(network.layers)["output" := RecOutput(subnetUnit.layers, cfg, ctcSource)]
                && decOutput == Some("output") && decisionLayerName == Some("out_best_wo_blank")
    {
      hide UnitEntries, EosBaseLayers, EncoderLayers, FilterLayers;
      ghost var b0 := baseNetwork.layers;
      ghost var eos := When(cfg.removeEos, EosBaseLayers(cfg, ctcSource));
      if cfg.removeEos {
        RemoveEosFromCtcLogits();
      }
      r := AddDecoder();
      if r.Err? {
        return;
      }
      AddFilterBlankAndMergeLabelsLayers(baseNetwork);
      MergeAppend3(b0, eos, EncoderLayers(cfg), FilterLayers(cfg.target, cfg.targetWBlank));
      decisionLayerName := Some("out_best_wo_blank");
    }
  }

  // ---------------------------------------------------------------------
  // What the built networks compute
  // ---------------------------------------------------------------------

  lemma MasksDistinct()
    ensures Distinct(MaskLayers())
  {
  }

  /** The models' own layers reuse no mask name. */
  lemma MiddlesAvoidMasks(lmUnit: Layer)
    ensures Avoids(MaskLayers(), ExtLmMiddle(lmUnit))
    ensures Avoids(MaskLayers(), AttentionDecoderDict())
    ensures Avoids(MaskLayers(), LmAttMiddle(lmUnit))
  {
    assert Avoids(MaskLayers(), AttentionDecoderDict());
    assert Avoids(MaskLayers(), LmLayers(lmUnit));
    AvoidsAppend(MaskLayers(), AttentionDecoderDict(), LmLayers(lmUnit));
  }

  lemma SmallScoreTablesAvoidMasks(cfg: DecoderConfig, att: Option<string>, lm: Option<string>)
    ensures Avoids(MaskLayers(), When(cfg.addAttDec, AttScoreLayers(cfg, att)))
    ensures Avoids(MaskLayers(), When(cfg.addExtLm, LmScoreLayers(cfg, lm)))
    ensures Avoids(MaskLayers(), When(cfg.useTsDiscount, TsDiscountLayers()))
    ensures Avoids(MaskLayers(), CombinationLayers(cfg))
  {
  }

  /** Facts about the prefix-term table the proofs below look up. */
  lemma PrefixTermFacts(cfg: DecoderConfig)
    ensures Avoids(MaskLayers(), PrefixTermLayers(cfg))
    ensures |PrefixTermLayers(cfg)| == 14
    ensures PrefixTermLayers(cfg)[1] == ("prev_output_reinterpret", L(Reinterpret(Some(10025)), ["prev:output"]))
    ensures PrefixTermLayers(cfg)[1].0 !in Names(PrefixTermLayers(cfg)[2..])
  {
  }

  /** Facts about the score-output table the proofs below look up. */
  lemma ScoreOutputFacts(cfg: DecoderConfig, att: Option<string>, lm: Option<string>)
    ensures Avoids(MaskLayers(), ScoreOutputLayers(cfg))
    ensures |ScoreOutputLayers(cfg)| == 5
    ensures ScoreOutputLayers(cfg)[4] ==
              ("output", Layer(Choice(cfg.targetWBlank, cfg.beamSize, Some(if cfg.logits then Logits else LogProb),
                                      Some(cfg.lengthNormalization)),
                               [ScoreSource(cfg)], Some(IntS(0))))
    ensures ScoreOutputLayers(cfg)[3].0 == "p_comb_sigma_prime"
    ensures ScoreOutputLayers(cfg)[3].0 !in Names(ScoreOutputLayers(cfg)[4..])
    ensures "prev_output_reinterpret" !in Names(ScoreOutputLayers(cfg))
  {
  }

  /** Facts about the EOS-forcing table the proofs below look up. */
  lemma EosForcingFacts(cfg: DecoderConfig, att: Option<string>, lm: Option<string>)
    ensures "output" !in Names(When(cfg.removeEos, EosForcingLayers(cfg, att, lm)))
    ensures "prev_output_reinterpret" !in Names(When(cfg.removeEos, EosForcingLayers(cfg, att, lm)))
    ensures |EosForcingLayers(cfg, att, lm)| == 10
    ensures EosForcingLayers(cfg, att, lm)[9].0 == "p_comb_sigma_prime_w_eos"
    ensures Avoids(MaskLayers(), When(cfg.removeEos, EosForcingLayers(cfg, att, lm)))
  {
  }

  lemma ScoreCombinationAvoidsMasks(cfg: DecoderConfig, att: Option<string>, lm: Option<string>)
    ensures Avoids(MaskLayers(), ScoreCombinationLayers(cfg, att, lm))
  {
    hide AttScoreLayers, LmScoreLayers, TsDiscountLayers, CombinationLayers, PrefixTermLayers,
      ScoreOutputLayers, EosForcingLayers, MaskLayers;
    var m := MaskLayers();
    SmallScoreTablesAvoidMasks(cfg, att, lm);
    PrefixTermFacts(cfg);
    ScoreOutputFacts(cfg, att, lm);
    EosForcingFacts(cfg, att, lm);
    var a := When(cfg.addAttDec, AttScoreLayers(cfg, att));
    AvoidsAppend(m, a, When(cfg.addExtLm, LmScoreLayers(cfg, lm)));
    a := a + When(cfg.addExtLm, LmScoreLayers(cfg, lm));
    AvoidsAppend(m, a, When(cfg.useTsDiscount, TsDiscountLayers()));
    a := a + When(cfg.useTsDiscount, TsDiscountLayers());
    AvoidsAppend(m, a, CombinationLayers(cfg));
    a := a + CombinationLayers(cfg);
    AvoidsAppend(m, a, PrefixTermLayers(cfg));
    a := a + PrefixTermLayers(cfg);
    AvoidsAppend(m, a, ScoreOutputLayers(cfg));
    a := a + ScoreOutputLayers(cfg);
    AvoidsAppend(m, a, When(cfg.removeEos, EosForcingLayers(cfg, att, lm)));
  }

  /**
   * The score combination leaves `output` the choice over the combined
   * score vector, which it writes too, and `prev_output_reinterpret` the
   * previous label read as a vocabulary index.
   */
  lemma ScoreCombinationOutput(u: map<string, Layer>, cfg: DecoderConfig, att: Option<string>, lm: Option<string>)
    ensures var net := Merge(u, ScoreCombinationLayers(cfg, att, lm));
            && "output" in net
            && net["output"] == Layer(Choice(cfg.targetWBlank, cfg.beamSize, Some(if cfg.logits then Logits else LogProb),
                                             Some(cfg.lengthNormalization)),
                                      [ScoreSource(cfg)], Some(IntS(0)))
            && ScoreSource(cfg) in net
            && "prev_output_reinterpret" in net
            && net["prev_output_reinterpret"] == L(Reinterpret(Some(10025)), ["prev:output"])
  {
    hide AttScoreLayers, LmScoreLayers, TsDiscountLayers, CombinationLayers, PrefixTermLayers,
      ScoreOutputLayers, EosForcingLayers;
    PrefixTermFacts(cfg);
    ScoreOutputFacts(cfg, att, lm);
    EosForcingFacts(cfg, att, lm);
    var p := When(cfg.addAttDec, AttScoreLayers(cfg, att)) + When(cfg.addExtLm, LmScoreLayers(cfg, lm))
             + When(cfg.useTsDiscount, TsDiscountLayers()) + CombinationLayers(cfg);
    var pt := PrefixTermLayers(cfg);
    var so := ScoreOutputLayers(cfg);
    var e := When(cfg.removeEos, EosForcingLayers(cfg, att, lm));
    var x := Merge(Merge(u, p), pt);
    var y := Merge(x, so);
    MergeAppend3(u, p, pt, so);
    MergeAppend(u, p + pt + so, e);
    assert Merge(u, ScoreCombinationLayers(cfg, att, lm)) == Merge(y, e);
    // `prev_output_reinterpret` is written by the prefix terms and by nothing after them
    MergeLast(Merge(u, p), pt, 1);
    MergeAvoids(x, so, "prev_output_reinterpret");
    MergeAvoids(y, e, "prev_output_reinterpret");
    // `output` is the last item of the score output layers
    MergeLast(x, so, 4);
    MergeAvoids(y, e, "output");
    if !cfg.removeEos {
      MergeLast(x, so, 3);
    }
  }

  /**
   * In every fused unit the mask layers keep their definitions (nothing
   * written after them reuses their names), `output` is the choice over
   * the combined scores and the LM reads the previous label.
   */
  lemma FusedUnitLayers(cfg: DecoderConfig, middle: Entries, att: Option<string>, lm: Option<string>, d: map<string, Layer>)
    requires Avoids(MaskLayers(), middle)
    ensures var net := Merge(d, FusedUnit(cfg, middle, att, lm));
            && Holds(MaskLayers(), net)
            && "output" in net && net["output"].kind.Choice? && net["output"].initial == Some(IntS(0))
            && net["output"].kind.beam == cfg.beamSize && net["output"].from == [ScoreSource(cfg)]
            && ScoreSource(cfg) in net
            && "prev_output_reinterpret" in net
            && net["prev_output_reinterpret"] == L(Reinterpret(Some(10025)), ["prev:output"])
  {
    MasksDistinct();
    hide CtcScoreLayers, MaskLayers, ScoreCombinationLayers;
    var c := CtcScoreLayers(cfg);
    var m := MaskLayers();
    var s := ScoreCombinationLayers(cfg, att, lm);
    MergeHoldsLast(d, c, m);
    MergeAppend(d, c + m, middle);
    HoldsAfter(m, Merge(d, c + m), middle);
    MergeAppend(d, c + m + middle, s);
    ScoreCombinationAvoidsMasks(cfg, att, lm);
    HoldsAfter(m, Merge(d, c + m + middle), s);
    ScoreCombinationOutput(Merge(d, c + m + middle), cfg, att, lm);
  }

  /**
   * The units of the fused decoders compute `curr_mask` and `prev_mask` as
   * the CTC emission masks of the decided labels. That the attention and LM
   * states advance only on those frames is `FusedAttSubnet` with
   * `AttStatesGated`, and `FusedLmInputs`. `MiddlesAvoidMasks` supplies the
   * requirement on the middle part for each of the three decoders.
   */
  lemma FusedUnitMasks(cfg: DecoderConfig, middle: Entries, att: Option<string>, lm: Option<string>,
                       d: map<string, Layer>, env: Env)
    requires Avoids(MaskLayers(), middle)
    requires InputsOutside(Merge(d, FusedUnit(cfg, middle, att, lm)), env)
    ensures var net := Merge(d, FusedUnit(cfg, middle, att, lm));
            && Frames(net, env, "curr_mask") == seq(|env.out|, t requires 0 <= t < |env.out| => Some(Bools([CurrMasks(env.out)[t]])))
            && Frames(net, env, "prev_mask") == seq(|env.out|, t requires 0 <= t < |env.out| => Some(Bools([PrevMasks(env.out)[t]])))
  {
    hide FusedUnit;
    FusedUnitLayers(cfg, middle, att, lm, d);
    MaskLayersComputeMasks(Merge(d, FusedUnit(cfg, middle, att, lm)), env);
  }

  // ---------------------------------------------------------------------
  // The score tables survive in the fused units
  // ---------------------------------------------------------------------

  /** A table whose names no part of the score combination reuses. */
  lemma AvoidsScoreCombination(es: Entries, cfg: DecoderConfig, att: Option<string>, lm: Option<string>)
    requires Avoids(es, When(cfg.addAttDec, AttScoreLayers(cfg, att)))
    requires Avoids(es, When(cfg.addExtLm, LmScoreLayers(cfg, lm)))
    requires Avoids(es, When(cfg.useTsDiscount, TsDiscountLayers()))
    requires Avoids(es, CombinationLayers(cfg)) && Avoids(es, PrefixTermLayers(cfg)) && Avoids(es, ScoreOutputLayers(cfg))
    requires Avoids(es, When(cfg.removeEos, EosForcingLayers(cfg, att, lm)))
    ensures Avoids(es, ScoreCombinationLayers(cfg, att, lm))
  {
    hide AttScoreLayers, LmScoreLayers, TsDiscountLayers, CombinationLayers, PrefixTermLayers,
      ScoreOutputLayers, EosForcingLayers;
    var a := When(cfg.addAttDec, AttScoreLayers(cfg, att));
    AvoidsAppend(es, a, When(cfg.addExtLm, LmScoreLayers(cfg, lm)));
    a := a + When(cfg.addExtLm, LmScoreLayers(cfg, lm));
    AvoidsAppend(es, a, When(cfg.useTsDiscount, TsDiscountLayers()));
    a := a + When(cfg.useTsDiscount, TsDiscountLayers());
    AvoidsAppend(es, a, CombinationLayers(cfg));
    a := a + CombinationLayers(cfg);
    AvoidsAppend(es, a, PrefixTermLayers(cfg));
    a := a + PrefixTermLayers(cfg);
    AvoidsAppend(es, a, ScoreOutputLayers(cfg));
    a := a + ScoreOutputLayers(cfg);
    AvoidsAppend(es, a, When(cfg.removeEos, EosForcingLayers(cfg, att, lm)));
  }

  /** The names of `add_ctc_scores` are distinct and not written again by the masks. */
  lemma CtcTableApart(cfg: DecoderConfig)
    ensures Distinct(CtcScoreLayers(cfg)) && Avoids(CtcScoreLayers(cfg), MaskLayers())
  {
  }

  /** ... nor by the attention decoder dict or the LM entries ... */
  lemma CtcTableBeforeModels(cfg: DecoderConfig, lmUnit: Layer)
    ensures Avoids(CtcScoreLayers(cfg), AttentionDecoderDict())
    ensures Avoids(CtcScoreLayers(cfg), ExtLmMiddle(lmUnit))
    ensures Avoids(CtcScoreLayers(cfg), LmAttMiddle(lmUnit))
  {
    var c := CtcScoreLayers(cfg);
    assert Avoids(c, LmLayers(lmUnit));
    AvoidsAppend(c, AttentionDecoderDict(), LmLayers(lmUnit));
  }

  /** ... nor by the model score tables ... */
  lemma CtcTableBeforeModelScores(cfg: DecoderConfig, att: Option<string>, lm: Option<string>)
    ensures Avoids(CtcScoreLayers(cfg), AttScoreLayers(cfg, att)) && Avoids(CtcScoreLayers(cfg), LmScoreLayers(cfg, lm))
  {
  }

  /** ... nor by the discount layers and the combination ... */
  lemma CtcTableBeforeCombination(cfg: DecoderConfig)
    ensures Avoids(CtcScoreLayers(cfg), TsDiscountLayers()) && Avoids(CtcScoreLayers(cfg), CombinationLayers(cfg))
  {
  }

  /** ... nor by the prefix terms ... */
  lemma CtcTableBeforePrefix(cfg: DecoderConfig)
    ensures Avoids(CtcScoreLayers(cfg), PrefixTermLayers(cfg))
  {
  }

  /** ... nor by the score vector ... */
  lemma CtcTableBeforeOutput(cfg: DecoderConfig)
    ensures Avoids(CtcScoreLayers(cfg), ScoreOutputLayers(cfg))
  {
    assert "ctc_log_scores_w_prior" + "_norm" == "ctc_log_scores_w_prior_norm";
  }

  /** ... nor by the EOS forcing. */
  lemma CtcTableBeforeEos(cfg: DecoderConfig, att: Option<string>, lm: Option<string>)
    ensures Avoids(CtcScoreLayers(cfg), EosForcingLayers(cfg, att, lm))
  {
  }

  /** Hence nothing the score combination writes renames an item of `add_ctc_scores`. */
  lemma CtcTableBeforeScores(cfg: DecoderConfig, att: Option<string>, lm: Option<string>)
    ensures Avoids(CtcScoreLayers(cfg), ScoreCombinationLayers(cfg, att, lm))
  {
    hide CtcScoreLayers, AttScoreLayers, LmScoreLayers, TsDiscountLayers, CombinationLayers, PrefixTermLayers,
      ScoreOutputLayers, EosForcingLayers;
    CtcTableBeforeModelScores(cfg, att, lm);
    CtcTableBeforeCombination(cfg);
    CtcTableBeforePrefix(cfg);
    CtcTableBeforeOutput(cfg);
    CtcTableBeforeEos(cfg, att, lm);
    AvoidsScoreCombination(CtcScoreLayers(cfg), cfg, att, lm);
  }

  /** The attention and LM score tables write distinct names, none of them again later. */
  lemma ModelTablesApart(cfg: DecoderConfig, att: Option<string>, lm: Option<string>)
    ensures Distinct(AttScoreLayers(cfg, att)) && Distinct(LmScoreLayers(cfg, lm))
    ensures Avoids(AttScoreLayers(cfg, att), LmScoreLayers(cfg, lm))
    ensures Avoids(AttScoreLayers(cfg, att), TsDiscountLayers()) && Avoids(LmScoreLayers(cfg, lm), TsDiscountLayers())
    ensures Avoids(AttScoreLayers(cfg, att), CombinationLayers(cfg)) && Avoids(LmScoreLayers(cfg, lm), CombinationLayers(cfg))
  {
  }

  lemma ModelTablesBeforePrefix(cfg: DecoderConfig, att: Option<string>, lm: Option<string>)
    ensures Avoids(AttScoreLayers(cfg, att), PrefixTermLayers(cfg)) && Avoids(LmScoreLayers(cfg, lm), PrefixTermLayers(cfg))
  {
  }

  lemma ModelTablesBeforeOutput(cfg: DecoderConfig, att: Option<string>, lm: Option<string>)
    ensures Avoids(AttScoreLayers(cfg, att), ScoreOutputLayers(cfg)) && Avoids(LmScoreLayers(cfg, lm), ScoreOutputLayers(cfg))
    ensures Avoids(AttScoreLayers(cfg, att), EosForcingLayers(cfg, att, lm))
    ensures Avoids(LmScoreLayers(cfg, lm), EosForcingLayers(cfg, att, lm))
  {
  }

  lemma CombinationApart(cfg: DecoderConfig, att: Option<string>, lm: Option<string>)
    ensures Distinct(CombinationLayers(cfg)) && Distinct(ScoreOutputLayers(cfg))
    ensures Avoids(CombinationLayers(cfg), ScoreOutputLayers(cfg))
    ensures Avoids(CombinationLayers(cfg), EosForcingLayers(cfg, att, lm))
  {
  }

  lemma CombinationBeforePrefix(cfg: DecoderConfig)
    ensures Avoids(CombinationLayers(cfg), PrefixTermLayers(cfg))
  {
  }

  lemma PrefixTermsApart(cfg: DecoderConfig)
    ensures Distinct(PrefixTermLayers(cfg))
  {
  }

  lemma PrefixTermsBeforeOutput(cfg: DecoderConfig)
    ensures Avoids(PrefixTermLayers(cfg), ScoreOutputLayers(cfg))
  {
  }

  lemma PrefixTermsBeforeEos(cfg: DecoderConfig, att: Option<string>, lm: Option<string>)
    ensures Avoids(PrefixTermLayers(cfg), EosForcingLayers(cfg, att, lm))
  {
  }

  lemma OutputBeforeEos(cfg: DecoderConfig, att: Option<string>, lm: Option<string>)
    ensures Avoids(ScoreOutputLayers(cfg), EosForcingLayers(cfg, att, lm))
  {
  }

  /** An item table inside a unit holds when its names are distinct and nothing after it renames one. */
  lemma HoldsInUnit(d: map<string, Layer>, pre: Entries, es: Entries, post: Entries, whole: Entries)
    requires whole == pre + es + post && Distinct(es) && Avoids(es, post)
    ensures Holds(es, Merge(d, whole))
  {
    MergeHolds(d, pre, es, post);
  }

  /** The score-combination tables after `tail` in the order they are written. */
  function ScoreParts(cfg: DecoderConfig, att: Option<string>, lm: Option<string>): seq<Entries>
  {
    [When(cfg.addAttDec, AttScoreLayers(cfg, att)), When(cfg.addExtLm, LmScoreLayers(cfg, lm)),
     When(cfg.useTsDiscount, TsDiscountLayers()), CombinationLayers(cfg), PrefixTermLayers(cfg),
     ScoreOutputLayers(cfg), When(cfg.removeEos, EosForcingLayers(cfg, att, lm))]
  }

  /** The attention score table survives in a fused unit. */
  lemma AttTableHolds(cfg: DecoderConfig, middle: Entries, att: Option<string>, lm: Option<string>, d: map<string, Layer>)
    requires cfg.addAttDec
    ensures Holds(AttScoreLayers(cfg, att), Merge(d, FusedUnit(cfg, middle, att, lm)))
  {
    hide CtcScoreLayers, MaskLayers, AttScoreLayers, LmScoreLayers, TsDiscountLayers, CombinationLayers,
      PrefixTermLayers, ScoreOutputLayers, EosForcingLayers, Avoids, Distinct, Holds;
    var p := ScoreParts(cfg, att, lm);
    var es := AttScoreLayers(cfg, att);
    ModelTablesApart(cfg, att, lm);
    ModelTablesBeforePrefix(cfg, att, lm);
    ModelTablesBeforeOutput(cfg, att, lm);
    AvoidsWhen(es, cfg.addExtLm, LmScoreLayers(cfg, lm));
    AvoidsWhen(es, cfg.useTsDiscount, TsDiscountLayers());
    AvoidsWhen(es, cfg.removeEos, EosForcingLayers(cfg, att, lm));
    AvoidsAppend(es, p[1], p[2]);
    AvoidsAppend(es, p[1] + p[2], p[3]);
    AvoidsAppend(es, p[1] + p[2] + p[3], p[4]);
    AvoidsAppend(es, p[1] + p[2] + p[3] + p[4], p[5]);
    AvoidsAppend(es, p[1] + p[2] + p[3] + p[4] + p[5], p[6]);
    HoldsInUnit(d, CtcScoreLayers(cfg) + MaskLayers() + middle, es, p[1] + p[2] + p[3] + p[4] + p[5] + p[6],
                FusedUnit(cfg, middle, att, lm));
  }

  /** The LM score table survives in a fused unit. */
  lemma LmTableHolds(cfg: DecoderConfig, middle: Entries, att: Option<string>, lm: Option<string>, d: map<string, Layer>)
    requires cfg.addExtLm
    ensures Holds(LmScoreLayers(cfg, lm), Merge(d, FusedUnit(cfg, middle, att, lm)))
  {
    hide CtcScoreLayers, MaskLayers, AttScoreLayers, LmScoreLayers, TsDiscountLayers, CombinationLayers,
      PrefixTermLayers, ScoreOutputLayers, EosForcingLayers, Avoids, Distinct, Holds;
    var p := ScoreParts(cfg, att, lm);
    var es := LmScoreLayers(cfg, lm);
    ModelTablesApart(cfg, att, lm);
    ModelTablesBeforePrefix(cfg, att, lm);
    ModelTablesBeforeOutput(cfg, att, lm);
    AvoidsWhen(es, cfg.useTsDiscount, TsDiscountLayers());
    AvoidsWhen(es, cfg.removeEos, EosForcingLayers(cfg, att, lm));
    AvoidsAppend(es, p[2], p[3]);
    AvoidsAppend(es, p[2] + p[3], p[4]);
    AvoidsAppend(es, p[2] + p[3] + p[4], p[5]);
    AvoidsAppend(es, p[2] + p[3] + p[4] + p[5], p[6]);
    HoldsInUnit(d, CtcScoreLayers(cfg) + MaskLayers() + middle + p[0], es, p[2] + p[3] + p[4] + p[5] + p[6],
                FusedUnit(cfg, middle, att, lm));
  }

  /** The combination table survives in a fused unit. */
  lemma CombinationTableHolds(cfg: DecoderConfig, middle: Entries, att: Option<string>, lm: Option<string>, d: map<string, Layer>)
    ensures Holds(CombinationLayers(cfg), Merge(d, FusedUnit(cfg, middle, att, lm)))
  {
    hide CtcScoreLayers, MaskLayers, AttScoreLayers, LmScoreLayers, TsDiscountLayers, CombinationLayers,
      PrefixTermLayers, ScoreOutputLayers, EosForcingLayers, Avoids, Distinct, Holds;
    var p := ScoreParts(cfg, att, lm);
    CombinationApart(cfg, att, lm);
    CombinationBeforePrefix(cfg);
    AvoidsWhen(p[3], cfg.removeEos, EosForcingLayers(cfg, att, lm));
    AvoidsAppend(p[3], p[4], p[5]);
    AvoidsAppend(p[3], p[4] + p[5], p[6]);
    HoldsInUnit(d, CtcScoreLayers(cfg) + MaskLayers() + middle + p[0] + p[1] + p[2], p[3], p[4] + p[5] + p[6],
                FusedUnit(cfg, middle, att, lm));
  }

  /** The prefix-term table survives in a fused unit. */
  lemma PrefixTableHolds(cfg: DecoderConfig, middle: Entries, att: Option<string>, lm: Option<string>, d: map<string, Layer>)
    ensures Holds(PrefixTermLayers(cfg), Merge(d, FusedUnit(cfg, middle, att, lm)))
  {
    hide CtcScoreLayers, MaskLayers, AttScoreLayers, LmScoreLayers, TsDiscountLayers, CombinationLayers,
      PrefixTermLayers, ScoreOutputLayers, EosForcingLayers, Avoids, Distinct, Holds, When;
    var pt := PrefixTermLayers(cfg);
    var so := ScoreOutputLayers(cfg);
    var e := When(cfg.removeEos, EosForcingLayers(cfg, att, lm));
    var pre := CtcScoreLayers(cfg) + MaskLayers() + middle + When(cfg.addAttDec, AttScoreLayers(cfg, att))
               + When(cfg.addExtLm, LmScoreLayers(cfg, lm)) + When(cfg.useTsDiscount, TsDiscountLayers())
               + CombinationLayers(cfg);
    PrefixTermsApart(cfg);
    PrefixTermsBeforeOutput(cfg);
    PrefixTermsBeforeEos(cfg, att, lm);
    AvoidsWhen(pt, cfg.removeEos, EosForcingLayers(cfg, att, lm));
    AvoidsAppend(pt, so, e);
    assert FusedUnit(cfg, middle, att, lm) == pre + pt + so + e;
    assert pre + pt + so + e == pre + pt + (so + e);
    HoldsInUnit(d, pre, pt, so + e, FusedUnit(cfg, middle, att, lm));
  }

  /** The score-output table survives in a fused unit. */
  lemma ScoreOutputTableHolds(cfg: DecoderConfig, middle: Entries, att: Option<string>, lm: Option<string>, d: map<string, Layer>)
    ensures Holds(ScoreOutputLayers(cfg), Merge(d, FusedUnit(cfg, middle, att, lm)))
  {
    hide CtcScoreLayers, MaskLayers, AttScoreLayers, LmScoreLayers, TsDiscountLayers, CombinationLayers,
      PrefixTermLayers, ScoreOutputLayers, EosForcingLayers, Avoids, Distinct, Holds;
    var p := ScoreParts(cfg, att, lm);
    var pre := CtcScoreLayers(cfg) + MaskLayers() + middle + p[0] + p[1] + p[2] + p[3] + p[4];
    CombinationApart(cfg, att, lm);
    OutputBeforeEos(cfg, att, lm);
    AvoidsWhen(p[5], cfg.removeEos, EosForcingLayers(cfg, att, lm));
    HoldsInUnit(d, pre, p[5], p[6], FusedUnit(cfg, middle, att, lm));
  }

  /** The CTC score table survives in a fused unit whose middle part renames none of its items. */
  lemma CtcTableHolds(cfg: DecoderConfig, middle: Entries, att: Option<string>, lm: Option<string>, d: map<string, Layer>)
    requires Avoids(CtcScoreLayers(cfg), middle)
    ensures Holds(CtcScoreLayers(cfg), Merge(d, FusedUnit(cfg, middle, att, lm)))
  {
    hide CtcScoreLayers, MaskLayers, ScoreCombinationLayers;
    var c := CtcScoreLayers(cfg);
    var post := MaskLayers() + middle + ScoreCombinationLayers(cfg, att, lm);
    CtcTableApart(cfg);
    CtcTableBeforeScores(cfg, att, lm);
    AvoidsAppend(c, MaskLayers(), middle);
    AvoidsAppend(c, MaskLayers() + middle, ScoreCombinationLayers(cfg, att, lm));
    HoldsInUnit(d, [], c, post, FusedUnit(cfg, middle, att, lm));
  }

  /**
   * Every score table the score lemmas read holds in a fused unit whose
   * attention and LM score layers read `trigg_att` and `lm_output_prob`.
   */
  lemma FusedScoreTables(cfg: DecoderConfig, middle: Entries, att: Option<string>, lm: Option<string>, d: map<string, Layer>)
    requires Avoids(MaskLayers(), middle) && Avoids(CtcScoreLayers(cfg), middle)
    requires cfg.addAttDec ==> att == Some(AttLayer)
    requires cfg.addExtLm ==> lm == Some(LmLayer)
    ensures ScoreTables(Merge(d, FusedUnit(cfg, middle, att, lm)), cfg)
  {
    hide FusedUnit;
    CtcTableHolds(cfg, middle, att, lm, d);
    FusedUnitLayers(cfg, middle, att, lm, d);
    if cfg.addAttDec {
      AttTableHolds(cfg, middle, att, lm, d);
    }
    if cfg.addExtLm {
      LmTableHolds(cfg, middle, att, lm, d);
    }
    CombinationTableHolds(cfg, middle, att, lm, d);
    PrefixTableHolds(cfg, middle, att, lm, d);
    ScoreOutputTableHolds(cfg, middle, att, lm, d);
  }

  /**
   * In the unit `create_network` builds for a fused decoder, every score
   * table holds, so `p_comb_sigma_prime` is, frame by frame, the score
   * vector of `CtcSemantics` over the frame's posteriors, prior and model
   * distributions.
   */
  lemma FusedUnitScores(cfg: DecoderConfig, lmUnit: Layer, d: map<string, Layer>, env: Env, fi: FrameInputs, t: nat)
    requires cfg.addAttDec || cfg.addExtLm
    requires ScoreFrame(Merge(d, UnitEntries(cfg, Ok(lmUnit))), env, cfg, fi, t)
    ensures FrameCombined(env, cfg, fi).Some?
    ensures ScoreVectorAt(Merge(d, UnitEntries(cfg, Ok(lmUnit))), env, cfg, fi, t)
  {
    hide FusedUnit, ScoreVectorAt, ScoreFrame;
    MiddlesAvoidMasks(lmUnit);
    CtcTableBeforeModels(cfg, lmUnit);
    var att := if cfg.addAttDec then Some(AttLayer) else None;
    var lm := if cfg.addExtLm then Some(LmLayer) else None;
    var middle := if !cfg.addAttDec then ExtLmMiddle(lmUnit)
                  else if !cfg.addExtLm then AttentionDecoderDict() else LmAttMiddle(lmUnit);
    assert UnitEntries(cfg, Ok(lmUnit)) == FusedUnit(cfg, middle, att, lm);
    FusedScoreVector(cfg, middle, att, lm, d, env, fi, t);
  }

  /** The same for any middle part that keeps the masks and the CTC scores. */
  lemma FusedScoreVector(cfg: DecoderConfig, middle: Entries, att: Option<string>, lm: Option<string>,
                         d: map<string, Layer>, env: Env, fi: FrameInputs, t: nat)
    requires Avoids(MaskLayers(), middle) && Avoids(CtcScoreLayers(cfg), middle)
    requires cfg.addAttDec ==> att == Some(AttLayer)
    requires cfg.addExtLm ==> lm == Some(LmLayer)
    requires ScoreFrame(Merge(d, FusedUnit(cfg, middle, att, lm)), env, cfg, fi, t)
    ensures ScoreVectorAt(Merge(d, FusedUnit(cfg, middle, att, lm)), env, cfg, fi, t)
  {
    hide FusedUnit, Eval, FrameScoreVector;
    FusedScoreTables(cfg, middle, att, lm, d);
    ScoreLayersComputeScoreVector(Merge(d, FusedUnit(cfg, middle, att, lm)), env, cfg, fi, t);
  }

  /** No score table writes `trigg_att` or `lm_output` ... */
  lemma ModelOutputsNotScored(cfg: DecoderConfig, att: Option<string>, lm: Option<string>, es: Entries)
    requires es == [(AttLayer, L(Copy, [])), ("lm_output", L(Copy, []))]
    ensures Avoids(es, When(cfg.addAttDec, AttScoreLayers(cfg, att)))
    ensures Avoids(es, When(cfg.addExtLm, LmScoreLayers(cfg, lm)))
    ensures Avoids(es, When(cfg.useTsDiscount, TsDiscountLayers()))
    ensures Avoids(es, CombinationLayers(cfg))
  {
  }

  /** ... nor any later table of the score combination ... */
  lemma ModelOutputsNotOutput(cfg: DecoderConfig, att: Option<string>, lm: Option<string>, es: Entries)
    requires es == [(AttLayer, L(Copy, [])), ("lm_output", L(Copy, []))]
    ensures Avoids(es, PrefixTermLayers(cfg)) && Avoids(es, ScoreOutputLayers(cfg))
    ensures Avoids(es, When(cfg.removeEos, EosForcingLayers(cfg, att, lm)))
  {
  }

  /** ... so the score combination writes neither. */
  lemma ModelOutputsKept(cfg: DecoderConfig, att: Option<string>, lm: Option<string>)
    ensures AttLayer !in Names(ScoreCombinationLayers(cfg, att, lm))
    ensures "lm_output" !in Names(ScoreCombinationLayers(cfg, att, lm))
  {
    hide AttScoreLayers, LmScoreLayers, TsDiscountLayers, CombinationLayers, PrefixTermLayers,
      ScoreOutputLayers, EosForcingLayers, ScoreCombinationLayers;
    var es := [(AttLayer, L(Copy, [])), ("lm_output", L(Copy, []))];
    ModelOutputsNotScored(cfg, att, lm, es);
    ModelOutputsNotOutput(cfg, att, lm, es);
    AvoidsScoreCombination(es, cfg, att, lm);
    assert es[0].0 == AttLayer && es[1].0 == "lm_output";
  }

  /**
   * With the attention decoder fused, `trigg_att` is the attention
   * subnetwork of `AttSubnet` and the unit computes the masks; so, by
   * `AttStatesGated` and `TargetEmbedGated`, the decoder states in the
   * subnetwork advance exactly at emitted labels (`DecoderStates`,
   * `TargetEmbeds`).
   */
  lemma FusedAttSubnet(cfg: DecoderConfig, lmUnit: Layer, d: map<string, Layer>, env: Env)
    requires cfg.addAttDec
    requires InputsOutside(Merge(d, UnitEntries(cfg, Ok(lmUnit))), env)
    ensures var net := Merge(d, UnitEntries(cfg, Ok(lmUnit)));
            && AttLayer in net && net[AttLayer] == L(Subnetwork(Dict(AttSubnet()), None), [])
            && MaskUnit(net, env)
  {
    hide CtcScoreLayers, MaskLayers, ScoreCombinationLayers, AttSubnet;
    MiddlesAvoidMasks(lmUnit);
    var att := Some(AttLayer);
    var lm := if cfg.addExtLm then Some(LmLayer) else None;
    var middle := if cfg.addExtLm then LmAttMiddle(lmUnit) else AttentionDecoderDict();
    assert UnitEntries(cfg, Ok(lmUnit)) == FusedUnit(cfg, middle, att, lm);
    var pre := CtcScoreLayers(cfg) + MaskLayers();
    var s := ScoreCombinationLayers(cfg, att, lm);
    assert FusedUnit(cfg, middle, att, lm) == pre + middle + s;
    MergeAppend3(d, pre, middle, s);
    assert middle[2] == (AttLayer, L(Subnetwork(Dict(AttSubnet()), None), []));
    assert Names(middle[3..]) == Names(LmLayers(lmUnit)) || middle[3..] == [];
    MergeLast(Merge(d, pre), middle, 2);
    ModelOutputsKept(cfg, att, lm);
    MergeAvoids(Merge(Merge(d, pre), middle), s, AttLayer);
    FusedUnitLayers(cfg, middle, att, lm, d);
  }

  /**
   * In a unit with the masks, `output` and `prev_output_reinterpret` as the
   * previous output, a computation masked by `prev_mask` over
   * `prev_output_reinterpret` reads exactly `LmInputs`.
   */
  lemma LmReadsEmittedLabels(net: map<string, Layer>, env: Env)
    requires MaskUnit(net, env)
    requires "prev_output_reinterpret" in net
    requires net["prev_output_reinterpret"] == L(Reinterpret(Some(10025)), ["prev:output"])
    ensures MaskedFrames(net, env, "prev_mask", "prev_output_reinterpret") == Lift(LmInputs(env.out))
  {
    hide Eval;
    var out := env.out;
    var src := Frames(net, env, "prev_output_reinterpret");
    var m := Frames(net, env, "prev_mask");
    forall u | 0 <= u < |out|
      ensures src[u] == Lift(PrevOutputs(out))[u]
      ensures m[u] == Some(Bools([PrevMasks(out)[u]]))
    {
      EvalPrevOutput(net, env, u, MaxDepth - 1);
      EvalFrom1(net, env, "prev_output_reinterpret", "prev:output", u, MaxDepth, Ints([PrevOutputs(out)[u]]));
      EvalPrevMask(net, env, u, MaxDepth);
    }
    assert src == Lift(PrevOutputs(out));
    assert seq(|m|, u requires 0 <= u < |m| => m[u] == Some(Bools([true]))) == PrevMasks(out);
    SelectLift(PrevOutputs(out), PrevMasks(out));
  }

  /**
   * With the LM fused, `lm_output` runs the LM unit under `prev_mask` over
   * `prev_output_reinterpret`; over the decided output it reads exactly
   * `LmInputs`: label 0 first, then every label emitted before the current
   * step (`LmSeesEmittedLabels`).
   */
  lemma FusedLmInputs(cfg: DecoderConfig, lmUnit: Layer, d: map<string, Layer>, env: Env)
    requires cfg.addExtLm
    requires InputsOutside(Merge(d, UnitEntries(cfg, Ok(lmUnit))), env)
    ensures var net := Merge(d, UnitEntries(cfg, Ok(lmUnit)));
            && "lm_output" in net && net["lm_output"] == L(MaskedComputation("prev_mask", lmUnit, None), [])
            && MaskedFrames(net, env, "prev_mask", "prev_output_reinterpret") == Lift(LmInputs(env.out))
  {
    hide CtcScoreLayers, MaskLayers, ScoreCombinationLayers, Eval;
    MiddlesAvoidMasks(lmUnit);
    var att := if cfg.addAttDec then Some(AttLayer) else None;
    var lm := Some(LmLayer);
    var middle := if cfg.addAttDec then LmAttMiddle(lmUnit) else ExtLmMiddle(lmUnit);
    var i := if cfg.addAttDec then 3 else 1;
    assert UnitEntries(cfg, Ok(lmUnit)) == FusedUnit(cfg, middle, att, lm);
    var pre := CtcScoreLayers(cfg) + MaskLayers();
    var s := ScoreCombinationLayers(cfg, att, lm);
    assert FusedUnit(cfg, middle, att, lm) == pre + middle + s;
    MergeAppend3(d, pre, middle, s);
    assert middle[i] == ("lm_output", L(MaskedComputation("prev_mask", lmUnit, None), []));
    assert middle[i + 1..] == [("lm_output_prob", L(Act(Softmax), ["lm_output"]))];
    MergeLast(Merge(d, pre), middle, i);
    ModelOutputsKept(cfg, att, lm);
    MergeAvoids(Merge(Merge(d, pre), middle), s, "lm_output");
    FusedUnitLayers(cfg, middle, att, lm, d);
    LmReadsEmittedLabels(Merge(d, FusedUnit(cfg, middle, att, lm)), env);
  }

  /**
   * The CTC-only greedy unit: `output` picks from the blank-penalised
   * scores when a blank penalty is set, else from the prior-corrected
   * scores when prior correction is on, else from the posteriors; the
   * layer it reads is in the unit (or is the input); the beam is 1 with
   * length normalisation and 2 without.
   */
  lemma GreedyUnitChoice(cfg: DecoderConfig, d: map<string, Layer>)
    ensures var net := Merge(d, GreedyLayers(cfg));
            && "output" in net && net["output"].kind.Choice? && net["output"].initial == Some(IntS(0))
            && net["output"].kind.beam == (if cfg.lengthNormalization then 1 else 2)
            && net["output"].from == [GreedySource(cfg)]
            && (cfg.blankProbScale > 0.0 ==> GreedySource(cfg) == "ctc_w_blank_scale")
            && (cfg.blankProbScale <= 0.0 && cfg.ctcPriorCorrection ==> GreedySource(cfg) == "ctc_log_scores_w_prior")
            && (cfg.blankProbScale <= 0.0 && !cfg.ctcPriorCorrection ==> GreedySource(cfg) == "data:source")
            && (GreedySource(cfg) == "data:source" || GreedySource(cfg) in net)
  {
    var scores := if cfg.blankProbScale > 0.0 then BlankPenaltyLayers(cfg)
                  else if cfg.ctcPriorCorrection then GreedyPriorLayers(cfg)
                  else [];
    MergeSnoc(d, scores, "output", GreedyChoice(cfg));
    assert GreedyLayers(cfg) == scores + [("output", GreedyChoice(cfg))];
    if cfg.blankProbScale > 0.0 {
      assert scores[5].0 == "ctc_w_blank_scale";
    } else if cfg.ctcPriorCorrection {
      assert scores[2].0 == "ctc_log_scores_w_prior";
    }
  }

  /**
   * After `create_network`, the base network's `out_best_wo_blank` is the
   * CTC collapse of the decided path: repeats merged, blanks dropped.
   */
  lemma BaseNetworkCollapse(cfg: DecoderConfig, src: string, d: map<string, Layer>, env: Env)
    requires cfg.addAttDec ==> cfg.attNumHeads != 0
    requires InputsOutside(Merge(d, BaseAdditions(cfg, src)), env)
    ensures var net := Merge(d, BaseAdditions(cfg, src));
            && "out_best_wo_blank" in net
            && MaskedCopy(net, env, net["out_best_wo_blank"]) == Some(Lift(Collapse(env.out)))
  {
    var f := FilterLayers(cfg.target, cfg.targetWBlank);
    assert Distinct(f);
    MergeHoldsLast(d, When(cfg.removeEos, EosBaseLayers(cfg, src)) + EncoderLayers(cfg), f);
    var net := Merge(d, BaseAdditions(cfg, src));
    assert f[7].0 == "out_best_wo_blank";
    FilterLayersComputeCollapse(net, env, cfg.target, cfg.targetWBlank);
  }

  /** No layer the base network receives after the EOS remapping reuses one of its names. */
  lemma EosRemapAvoidsBase(cfg: DecoderConfig, src: string)
    requires cfg.addAttDec ==> cfg.attNumHeads != 0
    ensures Distinct(EosRemapLayers(src))
    ensures Avoids(EosRemapLayers(src), When(cfg.addAttDec || cfg.addExtLm, [("ctc_no_eos_postfix_in_time", L(PostfixInTime, ["ctc_no_eos"]))]))
    ensures Avoids(EosRemapLayers(src), EncoderLayers(cfg))
    ensures Avoids(EosRemapLayers(src), FilterLayers(cfg.target, cfg.targetWBlank))
  {
  }

  /**
   * With `remove_eos`, the base network's `ctc_no_eos` holds the CTC
   * posteriors with EOS (index 0) zeroed and its mass added to blank;
   * the total mass is unchanged.
   */
  lemma BaseNetworkRemovesEos(cfg: DecoderConfig, src: string, d: map<string, Layer>, env: Env, x: seq<real>, t: nat)
    requires cfg.removeEos && (cfg.addAttDec ==> cfg.attNumHeads != 0)
    requires InputsOutside(Merge(d, BaseAdditions(cfg, src)), env)
    requires src in env.inputs && t < |env.inputs[src]| && env.inputs[src][t] == Reals(x) && |x| == V + 1
    ensures Eval(Merge(d, BaseAdditions(cfg, src)), env, "ctc_no_eos", t, MaxDepth) == Some(Reals(RemoveEos(x)))
    ensures SumReal(RemoveEos(x)) == SumReal(x)
  {
    EosRemapAvoidsBase(cfg, src);
    hide EosRemapLayers, EncoderLayers, FilterLayers;
    var es := EosRemapLayers(src);
    var post := When(cfg.addAttDec || cfg.addExtLm, [("ctc_no_eos_postfix_in_time", L(PostfixInTime, ["ctc_no_eos"]))]);
    var enc := EncoderLayers(cfg);
    var f := FilterLayers(cfg.target, cfg.targetWBlank);
    MergeHoldsLast(d, [], es);
    assert [] + es == es;
    HoldsAfter(es, Merge(d, es), post);
    MergeAppend(d, es, post);
    HoldsAfter(es, Merge(d, es + post), enc);
    MergeAppend(d, es + post, enc);
    HoldsAfter(es, Merge(d, es + post + enc), f);
    MergeAppend(d, es + post + enc, f);
    EosRemapLayersCompute(Merge(d, BaseAdditions(cfg, src)), env, src, x, t);
  }
}
