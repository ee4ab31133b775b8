/**
 * The layer dicts the CTC decoder builder writes, as functions of its
 * configuration, and what they compute: the mask layers compute the
 * emission masks, the filter layers the CTC collapse, the EOS remap layers
 * move EOS mass onto blank, the score layers the vector `p_comb_sigma_prime`,
 * and the attention decoder's state switches hold their value between
 * emissions.
 */
module CtcLayers {
  import opened Common
  import opened ReturnnNet
  import opened CtcSemantics

  /** The `CTCDecoder` constructor arguments that shape the network. */
  datatype DecoderConfig = DecoderConfig(
    ctcSource: string,
    target: string,
    targetWBlank: string,
    beamSize: int,
    encKeyDim: int,
    encValueDim: int,          // `base_model.enc_value_dim`
    attNumHeads: int,
    addExtLm: bool,
    lmType: Option<string>,
    lmScale: real,
    addAttDec: bool,
    attScale: real,
    useTsDiscount: bool,
    ctcScale: real,
    blankProbScale: real,
    repeatProbScale: real,
    ctcPriorCorrection: bool,
    priorScale: real,
    lengthNormalization: bool,
    logits: bool,
    removeEos: bool)

  /** Names the builder gives the attention decoder and the LM output it combines. */
  const AttLayer := "trigg_att"
  const LmLayer := "lm_output_prob"

  function OptFrom(name: Option<string>): seq<string>
  {
    match name
    case Some(n) => [n]
    case None => []
  }

  // ---------------------------------------------------------------------
  // Tables
  // ---------------------------------------------------------------------

  /** `add_norm_layer`: log-sum-exp over the feature axis and the renormalised scores. */
  function NormLayers(name: string): Entries
  {
    [(name + "_norm", L(Reduce(LogSumExp), [name])),
     (name + "_renorm", L(Combine(Sub), [name, name + "_norm"]))]
  }

  /** `add_masks`. */
  function MaskLayers(): Entries
  {
    [("not_repeat_mask", Layer(Compare(NotEqual, None), ["output", "prev:output"], Some(BoolS(true)))),
     ("is_curr_out_not_blank_mask", L(Compare(NotEqual, Some(10025)), ["output"])),
     ("is_prev_out_not_blank_mask", L(Compare(NotEqual, Some(10025)), ["prev:output"])),
     ("curr_mask", Layer(Combine(LogicalAnd), ["is_curr_out_not_blank_mask", "not_repeat_mask"], Some(BoolS(true)))),
     ("prev_mask", L(Copy, ["prev:curr_mask"]))]
  }

  /** First update of `add_ctc_scores` with prior correction. */
  function PriorLayers(priorScale: real): Entries
  {
    [("ctc_log_scores_no_prior", L(Act(SafeLog), ["data:source"])),
     ("scaled_ctc_log_prior", L(EvalLayerExpr(ScaleBy(priorScale)), ["base:ctc_log_prior"])),
     ("ctc_log_scores_w_prior", L(Combine(Sub), ["ctc_log_scores_no_prior", "scaled_ctc_log_prior"]))]
  }

  /** The blank entries `add_ctc_scores` gathers. */
  function BlankLayers(): Entries
  {
    [("blank_log_prob", L(Gather(AtIndex(10025)), ["ctc_log_scores"])),
     ("blank_log_prob_expand", L(ExpandDims, ["blank_log_prob"])),
     ("blank_prob", L(Gather(AtIndex(10025)), ["data:source"]))]
  }

  /** `add_ctc_scores`, in the order of its updates. */
  function CtcScoreLayers(cfg: DecoderConfig): Entries
  {
    (if cfg.ctcPriorCorrection then
       PriorLayers(cfg.priorScale) + NormLayers("ctc_log_scores_w_prior")
       + [("ctc_log_scores", L(Copy, ["ctc_log_scores_w_prior_renorm"]))]
     else [("ctc_log_scores", L(Act(SafeLog), ["data:source"]))])
    + BlankLayers()
  }

  /** `combine_list` of `add_score_combination`. */
  function CombineList(cfg: DecoderConfig): seq<string>
  {
    (if cfg.ctcScale > 0.0 then ["scaled_ctc_log_scores"] else [])
    + (if cfg.addAttDec then ["scaled_att_log_scores"] else [])
    + (if cfg.addExtLm then ["scaled_lm_log_scores"] else [])
  }

  function AttScoreLayers(cfg: DecoderConfig, att: Option<string>): Entries
  {
    [("att_log_scores", L(Act(SafeLog), OptFrom(att))),
     ("scaled_att_log_scores", L(EvalLayerExpr(ScaleBy(cfg.attScale)), ["att_log_scores"]))]
  }

  function LmScoreLayers(cfg: DecoderConfig, lm: Option<string>): Entries
  {
    [("lm_log_scores", L(Act(SafeLog), OptFrom(lm))),
     ("scaled_lm_log_scores", L(EvalLayerExpr(ScaleBy(cfg.lmScale)), ["lm_log_scores"]))]
  }

  /** The time-synchronous discount layers (marked as not working in the source). */
  function TsDiscountLayers(): Entries
  {
    [("const1", L(Constant(1.0, None), [])),
     ("prev_n_att_contrib_plus_1", L(Other("add"), ["prev:n_att_contrib", "const1"])),
     ("n_att_contrib", Layer(Switch("curr_mask", From("prev_n_att_contrib_plus_1"), From("prev:n_att_contrib")),
                                 [], Some(IntS(0)))),
     ("n_att_contrib_plus_1", L(Other("add"), ["n_att_contrib", "const1"])),
     ("max_n_att_contrib", L(Reduce(Max), ["n_att_contrib"])),
     ("log_ts_discount", Layer(EvalLayerExpr(Ratio), ["n_att_contrib", "max_n_att_contrib"], Some(IntS(0))))]
  }

  /** The CTC label scores and their combination with the other models. */
  function CombinationLayers(cfg: DecoderConfig): Entries
  {
    CombinationLayersWith(cfg, CombineList(cfg))
  }

  /** The combination layers around a given `combine_list`. */
  function CombinationLayersWith(cfg: DecoderConfig, combineList: seq<string>): Entries
  {
    [("ctc_log_scores_slice", L(Slice(0, 10025), ["ctc_log_scores"])),
     ("ctc_log_scores_norm", L(Reduce(LogSumExp), ["ctc_log_scores_slice"])),
     ("ctc_log_scores_renorm", L(Combine(Sub), ["ctc_log_scores_slice", "ctc_log_scores_norm"])),
     ("scaled_ctc_log_scores", L(EvalLayerExpr(ScaleBy(cfg.ctcScale)), ["ctc_log_scores_renorm"])),
     ("combined_att_ctc_scores", L(Combine(Add), combineList))]
  }

  /** The blank and repeat terms of the label-synchronous CTC prefix score. */
  function PrefixTermLayers(cfg: DecoderConfig): Entries
  {
    [("vocab_range", L(Range(10025), [])),
     ("prev_output_reinterpret", L(Reinterpret(Some(10025)), ["prev:output"])),
     ("prev_repeat_mask", L(Compare(Equal, None), ["prev_output_reinterpret", "vocab_range"])),
     ("scaled_blank_prob", L(EvalLayerExpr(Power(1)), ["blank_prob"])),
     ("scaled_blank_log_prob", L(EvalLayerExpr(Minus(cfg.blankProbScale)), ["blank_log_prob"])),
     ("scaled_blank_log_prob_expand", L(ExpandDims, ["scaled_blank_log_prob"])),
     ("one", L(Constant(1.0, None), [])),
     ("prev_ctc_log_scores", L(Gather(AtLayer("prev:output")), ["ctc_log_scores"])),
     ("scaled_prev_ctc_log_scores", L(EvalLayerExpr(ScaleBy(1.0)), ["prev_ctc_log_scores"])),
     ("scaled_prev_ctc_scores", L(Act(SafeExp), ["scaled_prev_ctc_log_scores"])),
     ("repeat_prob_term", L(Switch("is_prev_out_not_blank_mask", From("scaled_prev_ctc_scores"), Value(0.0)), [])),
     ("1_minus_term_", L(Combine(Sub), ["one", "scaled_blank_prob"])),
     ("1_minus_term", L(Combine(Sub), ["1_minus_term_", "repeat_prob_term"])),
     ("1_minus_term_log", L(Act(SafeLog), ["1_minus_term"]))]
  }

  /** The score vector and the choice over it. */
  function ScoreOutputLayers(cfg: DecoderConfig): Entries
  {
    [("p_comb_sigma_prime_label", L(Combine(Add), ["1_minus_term_log", "combined_att_ctc_scores"])),
     ("scaled_ctc_log_scores_slice", L(EvalLayerExpr(Minus(cfg.repeatProbScale)), ["ctc_log_scores_slice"])),
     ("scaled_label_score", L(Switch("prev_repeat_mask", From("scaled_ctc_log_scores_slice"),
                                         From("p_comb_sigma_prime_label")), [])),
     ("p_comb_sigma_prime", L(Concat, ["scaled_label_score", "scaled_blank_log_prob_expand"])),
     ("output", Layer(Choice(cfg.targetWBlank, cfg.beamSize, Some(if cfg.logits then Logits else LogProb),
                                 Some(cfg.lengthNormalization)),
                          [if cfg.removeEos then "p_comb_sigma_prime_w_eos" else "p_comb_sigma_prime"],
                          Some(IntS(0))))]
  }

  /** The layer whose EOS probability is forced at the last frame. */
  function TsScore(cfg: DecoderConfig, att: Option<string>, lm: Option<string>): Option<string>
  {
    if cfg.addExtLm && !cfg.addAttDec then lm
    else if cfg.addAttDec && !cfg.addExtLm then att
    else Some("combined_ts_scores")
  }

  /** The `remove_eos` part of `add_score_combination`. */
  function EosForcingLayers(cfg: DecoderConfig, att: Option<string>, lm: Option<string>): Entries
  {
    [("combined_ts_log_scores", L(Combine(Add), ["scaled_att_log_scores", "scaled_lm_log_scores"])),
     ("combined_ts_scores", L(Act(SafeExp), ["combined_ts_log_scores"]))]
    + [("t", L(Copy, [":i"])),
          ("last_frame", L(EvalLayerExpr(IsLastFrame), ["t", "base:enc_seq_len"])),
          ("ts_eos_prob", L(Gather(AtIndex(0)), OptFrom(TsScore(cfg, att, lm)))),
          ("ts_eos_prob_expand", L(ExpandDims, ["ts_eos_prob"])),
          ("zeros", L(Constant(0.0, Some(10025)), [])),
          ("last_frame_prob", L(Concat, ["ts_eos_prob_expand", "zeros"])),
          ("last_frame_log_prob", L(Act(SafeLog), ["last_frame_prob"])),
          ("p_comb_sigma_prime_w_eos", L(Switch("last_frame", From("last_frame_log_prob"),
                                                 From("p_comb_sigma_prime")), []))]
  }

  /** `add_score_combination`, in the order of its updates. */
  function ScoreCombinationLayers(cfg: DecoderConfig, att: Option<string>, lm: Option<string>): Entries
  {
    When(cfg.addAttDec, AttScoreLayers(cfg, att))
    + When(cfg.addExtLm, LmScoreLayers(cfg, lm))
    + When(cfg.useTsDiscount, TsDiscountLayers())
    + CombinationLayers(cfg) + PrefixTermLayers(cfg) + ScoreOutputLayers(cfg)
    + When(cfg.removeEos, EosForcingLayers(cfg, att, lm))
  }

  /** The CTC-only greedy unit's scores when a blank penalty is set. */
  function BlankPenaltyLayers(cfg: DecoderConfig): Entries
  {
    [("ctc_log_scores", L(Act(SafeLog), ["data:source"])),
     ("ctc_log_scores_slice", L(Slice(0, 10025), ["ctc_log_scores"])),
     ("blank_log_prob", L(Gather(AtIndex(10025)), ["ctc_log_scores"])),
     ("scaled_blank_log_prob", L(EvalLayerExpr(Minus(cfg.blankProbScale)), ["blank_log_prob"])),
     ("scaled_blank_log_prob_expand", L(ExpandDims, ["scaled_blank_log_prob"])),
     ("ctc_w_blank_scale", L(Concat, ["ctc_log_scores_slice", "scaled_blank_log_prob_expand"]))]
  }

  /** The CTC-only greedy unit's scores with prior correction. */
  function GreedyPriorLayers(cfg: DecoderConfig): Entries
  {
    [("scaled_ctc_log_prior", L(EvalLayerExpr(ScaleBy(cfg.priorScale)), ["base:ctc_log_prior"])),
     ("ctc_log_scores", L(Act(SafeLog), ["data:source"])),
     ("ctc_log_scores_w_prior", L(Combine(Sub), ["ctc_log_scores", "scaled_ctc_log_prior"]))]
  }

  /** The source of the greedy unit's choice: blank penalty first, then prior correction, else the posteriors. */
  function GreedySource(cfg: DecoderConfig): string
  {
    if cfg.blankProbScale > 0.0 then "ctc_w_blank_scale"
    else if cfg.ctcPriorCorrection then "ctc_log_scores_w_prior"
    else "data:source"
  }

  /** `add_choice_layer("output", ...)` of `add_greedy_decoder`. */
  function GreedyChoice(cfg: DecoderConfig): Layer
  {
    Layer(Choice(cfg.targetWBlank, if cfg.lengthNormalization then 1 else 2,
                 if cfg.blankProbScale > 0.0 then Some(LogProb) else None, None),
          [GreedySource(cfg)], Some(IntS(0)))
  }

  /** The layers `add_greedy_decoder` writes into the unit. */
  function GreedyLayers(cfg: DecoderConfig): Entries
  {
    (if cfg.blankProbScale > 0.0 then BlankPenaltyLayers(cfg)
     else if cfg.ctcPriorCorrection then GreedyPriorLayers(cfg)
     else [])
    + [("output", GreedyChoice(cfg))]
  }

  /** The attention decoder subnetwork `trigg_att`: embedding, attention, LSTM state, readout. */
  function AttSubnet(): Entries
  {
    AttEmbedLayers() + AttWeightLayers() + AttStateLayers() + AttReadoutLayers()
  }

  /** The embedding of the last emitted label, held on `base:curr_mask`. */
  function AttEmbedLayers(): Entries
  {
    [("target_embed0", Layer(Linear(640, None, false), ["base:output_reinterpret"], Some(IntS(0)))),
     ("_target_embed", L(Other("dropout"), ["target_embed0"])),
     ("target_embed", L(Switch("base:curr_mask", From("_target_embed"), From("prev:target_embed")), []))]
  }

  /** The attention weights (with fertility feedback) and the attention context. */
  function AttWeightLayers(): Entries
  {
    [("s_transformed", L(Linear(1024, None, false), ["s"])),
     ("_accum_att_weights", L(EvalLayerExpr(AccumAttWeights),
                                  ["prev:accum_att_weights", "att_weights", "base:base:inv_fertility"])),
     ("accum_att_weights", L(Switch("base:prev_mask", From("_accum_att_weights"),
                                        From("prev:accum_att_weights")), [])),
     ("weight_feedback", L(Linear(1024, None, false), ["prev:accum_att_weights"])),
     ("energy_in", L(Combine(Add), ["base:base:enc_ctx", "weight_feedback", "s_transformed"])),
     ("energy_tanh", L(Act(Tanh), ["energy_in"])),
     ("energy", L(Linear(1, None, false), ["energy_tanh"])),
     ("att_weights", L(Other("softmax_over_spatial"), ["energy"])),
     ("att0", L(GenericAttention("att_weights", "base:base:enc_value"), [])),
     ("att", L(Other("merge_dims"), ["att0"]))]
  }

  /** The decoder LSTM and its state, held on `base:prev_mask`. */
  function AttStateLayers(): Entries
  {
    [("_s", L(RnnCell(1024, ["prev:s_c", "prev:s_h"]), ["prev:target_embed", "prev:att"])),
     ("s", L(Switch("base:prev_mask", From("_s"), From("prev:s")), [])),
     ("_s_c", L(LastHiddenState("c"), ["_s"])),
     ("s_c", L(Switch("base:prev_mask", From("_s_c"), From("prev:s_c")), [])),
     ("_s_h", L(LastHiddenState("h"), ["_s"])),
     ("s_h", L(Switch("base:prev_mask", From("_s_h"), From("prev:s_h")), []))]
  }

  /** The readout and the label distribution. */
  function AttReadoutLayers(): Entries
  {
    [("readout_in", L(Linear(1024, None, true), ["s", "prev:target_embed", "att"])),
     ("readout", L(Other("reduce_out"), ["readout_in"])),
     ("output_prob", L(Other("softmax"), ["readout"])),
     ("output", L(Copy, ["output_prob"]))]
  }

  /** `attention_decoder_dict`, merged into the recurrent unit. */
  function AttentionDecoderDict(): Entries
  {
    [("output_reinterpret", Layer(Reinterpret(Some(10025)), ["output"], Some(IntS(0)))),
     ("prev_output_reinterpret", L(Copy, ["prev:output_reinterpret"])),
     ("trigg_att", L(Subnetwork(Dict(AttSubnet()), None), []))]
  }

  /** The LM entries of the unit: the LM subnetwork under `prev_mask`, and its softmax. */
  function LmLayers(lmUnit: Layer): Entries
  {
    [("lm_output", L(MaskedComputation("prev_mask", lmUnit, None), [])),
     ("lm_output_prob", L(Act(Softmax), ["lm_output"]))]
  }

  /** `add_filter_blank_and_merge_labels_layers`. */
  function FilterLayers(target: string, targetWBlank: string): Entries
  {
    [("out_best_", L(Decide(targetWBlank), ["output"])),
     ("out_best", L(Reinterpret(Some(10025)), ["out_best_"])),
     ("shift_right", L(ShiftRight(-1), ["out_best"])),
     ("out_best_time_reinterpret", L(Reinterpret(None), ["out_best"])),
     ("unique_mask", L(Compare(NotEqual, None), ["out_best_time_reinterpret", "shift_right"])),
     ("non_blank_mask", L(Compare(NotEqual, Some(10025)), ["out_best_time_reinterpret"])),
     ("out_best_mask", L(Combine(LogicalAnd), ["unique_mask", "non_blank_mask"])),
     ("out_best_wo_blank", L(MaskedComputation("out_best_mask", L(Copy, []), Some(target)),
                                 ["out_best_time_reinterpret"])),
     ("edit_distance", L(CopyWithLoss("edit_distance", target), ["out_best_wo_blank"]))]
  }

  /** `remove_eos_from_ctc_logits`: slices, zeros, blank + EOS, and their concatenation. */
  function EosRemapLayers(src: string): Entries
  {
    [("ctc_no_eos_no_blank_slice", L(Slice(1, 10025), [src])),
     ("ctc_eos_slice", L(Slice(0, 1), [src])),
     ("ctc_blank_slice", L(Slice(10025, 10026), [src])),
     ("zeros", L(EvalLayerExpr(TimesZero), ["ctc_eos_slice"])),
     ("ctc_blank_plus_eos", L(Combine(Add), ["ctc_blank_slice", "ctc_eos_slice"])),
     ("ctc_no_eos", L(Concat, ["zeros", "ctc_no_eos_no_blank_slice", "ctc_blank_plus_eos"]))]
  }

  /** `add_enc_output_for_att`. */
  function EncOutputLayers(cfg: DecoderConfig): Entries
    requires cfg.attNumHeads != 0
  {
    [("enc_ctx", L(Linear(cfg.encKeyDim, None, true), ["encoder"])),
     ("enc_value", L(SplitDims([cfg.attNumHeads, FloorDiv(cfg.encValueDim, cfg.attNumHeads)]), ["encoder"])),
     ("inv_fertility", L(Linear(cfg.attNumHeads, Some(Sigmoid), false), ["encoder"])),
     ("enc_seq_len", L(Length, ["encoder"]))]
  }

  // ---------------------------------------------------------------------
  // The mask layers compute the emission masks
  // ---------------------------------------------------------------------

  /** External values are neither `prev:` references nor layers of the network. */
  ghost predicate InputsOutside(net: map<string, Layer>, env: Env)
  {
    forall k :: k in env.inputs ==> !IsPrev(k) && k !in net
  }

  /** A unit with the mask layers and a choice layer `output` whose initial output is 0. */
  ghost predicate MaskUnit(net: map<string, Layer>, env: Env)
  {
    && Holds(MaskLayers(), net)
    && "output" in net && net["output"].kind.Choice? && net["output"].initial == Some(IntS(0))
    && InputsOutside(net, env)
  }

  lemma EvalOutput(net: map<string, Layer>, env: Env, t: nat, fuel: nat)
    requires "output" in net && net["output"].kind.Choice? && "output" !in env.inputs
    requires t < |env.out| && fuel >= 1
    ensures Eval(net, env, "output", t, fuel) == Some(Ints([env.out[t]]))
  {
    assert !IsPrev("output");
  }

  lemma EvalPrevOutput(net: map<string, Layer>, env: Env, t: nat, fuel: nat)
    requires "output" in net && net["output"].kind.Choice? && net["output"].initial == Some(IntS(0))
    requires "output" !in env.inputs && "prev:output" !in env.inputs && t < |env.out|
    ensures Eval(net, env, "prev:output", t, fuel) == Some(Ints([PrevOutputs(env.out)[t]]))
  {
    assert IsPrev("prev:output") && "prev:output"[5..] == "output";
    if t > 0 {
      EvalOutput(net, env, t - 1, MaxDepth);
    }
  }

  lemma EvalNotRepeatMask(net: map<string, Layer>, env: Env, t: nat, fuel: nat)
    requires MaskUnit(net, env) && t < |env.out| && fuel >= 2
    ensures Eval(net, env, "not_repeat_mask", t, fuel) == Some(Bools([env.out[t] != PrevOutputs(env.out)[t]]))
  {
    var o := env.out[t];
    var p := PrevOutputs(env.out)[t];
    assert MaskLayers()[0].0 == "not_repeat_mask" && net["not_repeat_mask"] == MaskLayers()[0].1;
    EvalOutput(net, env, t, fuel - 1);
    EvalPrevOutput(net, env, t, fuel - 1);
    EvalAll2(net, env, "output", "prev:output", t, fuel - 1, Ints([o]), Ints([p]));
    EvalPlain(net, env, "not_repeat_mask", t, fuel, [Ints([o]), Ints([p])]);
    CompareScalars(o, p, NotEqual);
  }

  lemma EvalCurrNotBlankMask(net: map<string, Layer>, env: Env, t: nat, fuel: nat)
    requires MaskUnit(net, env) && t < |env.out| && fuel >= 2
    ensures Eval(net, env, "is_curr_out_not_blank_mask", t, fuel) == Some(Bools([env.out[t] != Blank]))
  {
    var o := env.out[t];
    assert MaskLayers()[1].0 == "is_curr_out_not_blank_mask" && net["is_curr_out_not_blank_mask"] == MaskLayers()[1].1;
    EvalOutput(net, env, t, fuel - 1);
    EvalAll1(net, env, "output", t, fuel - 1, Ints([o]));
    EvalPlain(net, env, "is_curr_out_not_blank_mask", t, fuel, [Ints([o])]);
    CompareScalars(o, 10025, NotEqual);
  }

  lemma EvalCurrMask(net: map<string, Layer>, env: Env, t: nat, fuel: nat)
    requires MaskUnit(net, env) && t < |env.out| && fuel >= 3
    ensures Eval(net, env, "curr_mask", t, fuel) == Some(Bools([CurrMask(env.out, t)]))
  {
    var a := env.out[t] != Blank;
    var b := env.out[t] != PrevOutputs(env.out)[t];
    assert MaskLayers()[3].0 == "curr_mask" && net["curr_mask"] == MaskLayers()[3].1;
    EvalNotRepeatMask(net, env, t, fuel - 1);
    EvalCurrNotBlankMask(net, env, t, fuel - 1);
    EvalAll2(net, env, "is_curr_out_not_blank_mask", "not_repeat_mask", t, fuel - 1, Bools([a]), Bools([b]));
    EvalPlain(net, env, "curr_mask", t, fuel, [Bools([a]), Bools([b])]);
    AndScalars(a, b);
  }

  lemma EvalPrevMask(net: map<string, Layer>, env: Env, t: nat, fuel: nat)
    requires MaskUnit(net, env) && t < |env.out| && fuel >= 2
    ensures Eval(net, env, "prev_mask", t, fuel) == Some(Bools([PrevMask(env.out, t)]))
  {
    assert MaskLayers()[4].0 == "prev_mask" && net["prev_mask"] == MaskLayers()[4].1;
    assert MaskLayers()[3].0 == "curr_mask" && net["curr_mask"] == MaskLayers()[3].1;
    var pc := "prev:curr_mask";
    assert IsPrev(pc) && pc[5..] == "curr_mask";
    var v := Bools([PrevMask(env.out, t)]);
    if t > 0 {
      EvalCurrMask(net, env, t - 1, MaxDepth);
    }
    assert Eval(net, env, pc, t, fuel - 1) == Some(v);
    EvalAll1(net, env, pc, t, fuel - 1, v);
    EvalPlain(net, env, "prev_mask", t, fuel, [v]);
  }

  /** Over the whole output, `curr_mask` and `prev_mask` are the emission masks of `CtcSemantics`. */
  lemma MaskLayersComputeMasks(net: map<string, Layer>, env: Env)
    requires MaskUnit(net, env)
    ensures Frames(net, env, "curr_mask") == seq(|env.out|, t requires 0 <= t < |env.out| => Some(Bools([CurrMasks(env.out)[t]])))
    ensures Frames(net, env, "prev_mask") == seq(|env.out|, t requires 0 <= t < |env.out| => Some(Bools([PrevMasks(env.out)[t]])))
  {
    forall t | 0 <= t < |env.out|
      ensures Frames(net, env, "curr_mask")[t] == Some(Bools([CurrMasks(env.out)[t]]))
      ensures Frames(net, env, "prev_mask")[t] == Some(Bools([PrevMasks(env.out)[t]]))
    {
      EvalCurrMask(net, env, t, MaxDepth);
      EvalPrevMask(net, env, t, MaxDepth);
    }
  }

  // ---------------------------------------------------------------------
  // The filter layers compute the CTC collapse
  // ---------------------------------------------------------------------

  /** Label frames as the per-frame values of a sparse layer. */
  function Lift(s: seq<int>): (r: seq<Option<Tensor>>)
    ensures |r| == |s|
  {
    seq(|s|, i requires 0 <= i < |s| => Some(Ints([s[i]])))
  }

  lemma {:induction false} SelectLift(s: seq<int>, m: seq<bool>)
    requires |s| == |m|
    ensures Select(Lift(s), m) == Lift(Select(s, m))
    decreases |s|
  {
    if s != [] {
      assert Lift(s)[1..] == Lift(s[1..]);
      SelectLift(s[1..], m[1..]);
      var head := if m[0] then [s[0]] else [];
      assert Lift(head + Select(s[1..], m[1..])) == Lift(head) + Lift(Select(s[1..], m[1..]));
    }
  }

  ghost predicate FilterNet(net: map<string, Layer>, env: Env, target: string, targetWBlank: string)
  {
    Holds(FilterLayers(target, targetWBlank), net) && InputsOutside(net, env) && "out_best_wo_blank" in net
  }

  lemma EvalOutBest(net: map<string, Layer>, env: Env, target: string, twb: string, t: nat, fuel: nat)
    requires FilterNet(net, env, target, twb) && t < |env.out| && fuel >= 3
    ensures Eval(net, env, "out_best", t, fuel - 1) == Some(Ints([env.out[t]]))
    ensures Eval(net, env, "out_best_time_reinterpret", t, fuel) == Some(Ints([env.out[t]]))
  {
    var f := FilterLayers(target, twb);
    var v := Ints([env.out[t]]);
    assert f[0].0 == "out_best_" && net["out_best_"] == f[0].1;
    assert f[1].0 == "out_best" && net["out_best"] == f[1].1;
    assert f[3].0 == "out_best_time_reinterpret" && net["out_best_time_reinterpret"] == f[3].1;
    EvalChosen(net, env, "out_best_", t, fuel - 2);
    EvalAll1(net, env, "out_best_", t, fuel - 2, v);
    EvalPlain(net, env, "out_best", t, fuel - 1, [v]);
    EvalAll1(net, env, "out_best", t, fuel - 1, v);
    EvalPlain(net, env, "out_best_time_reinterpret", t, fuel, [v]);
  }

  lemma EvalShiftRight(net: map<string, Layer>, env: Env, target: string, twb: string, t: nat, fuel: nat)
    requires FilterNet(net, env, target, twb) && t < |env.out| && fuel >= 1
    ensures Eval(net, env, "shift_right", t, fuel) == Some(Ints([if t == 0 then Pad else env.out[t - 1]]))
  {
    assert FilterLayers(target, twb)[2].0 == "shift_right" && net["shift_right"] == FilterLayers(target, twb)[2].1;
    if t > 0 {
      EvalOutBest(net, env, target, twb, t - 1, MaxDepth + 1);
    }
    EvalShift(net, env, "shift_right", t, fuel);
  }

  lemma EvalUniqueMask(net: map<string, Layer>, env: Env, target: string, twb: string, t: nat, fuel: nat)
    requires FilterNet(net, env, target, twb) && t < |env.out| && fuel >= 4
    ensures Eval(net, env, "unique_mask", t, fuel) ==
            Some(Bools([env.out[t] != if t == 0 then Pad else env.out[t - 1]]))
  {
    var o := env.out[t];
    var p := if t == 0 then Pad else env.out[t - 1];
    assert FilterLayers(target, twb)[4].0 == "unique_mask" && net["unique_mask"] == FilterLayers(target, twb)[4].1;
    EvalOutBest(net, env, target, twb, t, fuel - 1);
    EvalShiftRight(net, env, target, twb, t, fuel - 1);
    EvalAll2(net, env, "out_best_time_reinterpret", "shift_right", t, fuel - 1, Ints([o]), Ints([p]));
    EvalPlain(net, env, "unique_mask", t, fuel, [Ints([o]), Ints([p])]);
    CompareScalars(o, p, NotEqual);
  }

  lemma EvalNonBlankMask(net: map<string, Layer>, env: Env, target: string, twb: string, t: nat, fuel: nat)
    requires FilterNet(net, env, target, twb) && t < |env.out| && fuel >= 4
    ensures Eval(net, env, "non_blank_mask", t, fuel) == Some(Bools([env.out[t] != Blank]))
  {
    var o := env.out[t];
    assert FilterLayers(target, twb)[5].0 == "non_blank_mask" && net["non_blank_mask"] == FilterLayers(target, twb)[5].1;
    EvalOutBest(net, env, target, twb, t, fuel - 1);
    EvalAll1(net, env, "out_best_time_reinterpret", t, fuel - 1, Ints([o]));
    EvalPlain(net, env, "non_blank_mask", t, fuel, [Ints([o])]);
    CompareScalars(o, 10025, NotEqual);
  }

  lemma EvalOutBestMask(net: map<string, Layer>, env: Env, target: string, twb: string, t: nat, fuel: nat)
    requires FilterNet(net, env, target, twb) && t < |env.out| && fuel >= 5
    ensures Eval(net, env, "out_best_mask", t, fuel) == Some(Bools([Emits(env.out, Pad, t)]))
  {
    var a := env.out[t] != if t == 0 then Pad else env.out[t - 1];
    var b := env.out[t] != Blank;
    assert FilterLayers(target, twb)[6].0 == "out_best_mask" && net["out_best_mask"] == FilterLayers(target, twb)[6].1;
    EvalUniqueMask(net, env, target, twb, t, fuel - 1);
    EvalNonBlankMask(net, env, target, twb, t, fuel - 1);
    EvalAll2(net, env, "unique_mask", "non_blank_mask", t, fuel - 1, Bools([a]), Bools([b]));
    EvalPlain(net, env, "out_best_mask", t, fuel, [Bools([a]), Bools([b])]);
    AndScalars(a, b);
  }

  /**
   * `out_best_wo_blank` keeps exactly the frames of the CTC collapse: over
   * any best path it yields `Collapse`, i.e. merge repeats then drop blanks.
   */
  lemma FilterLayersComputeCollapse(net: map<string, Layer>, env: Env, target: string, twb: string)
    requires FilterNet(net, env, target, twb)
    ensures MaskedCopy(net, env, net["out_best_wo_blank"]) == Some(Lift(Collapse(env.out)))
    ensures IsPath(env.out) ==> Collapse(env.out) == RemoveBlanks(MergeRepeats(env.out))
  {
    var f := FilterLayers(target, twb);
    assert f[7].0 == "out_best_wo_blank" && net["out_best_wo_blank"] == f[7].1;
    var out := env.out;
    var src := Frames(net, env, "out_best_time_reinterpret");
    var m := Frames(net, env, "out_best_mask");
    forall t | 0 <= t < |out|
      ensures src[t] == Lift(out)[t]
      ensures m[t] == Some(Bools([EmitMask(out, Pad)[t]]))
    {
      EvalOutBest(net, env, target, twb, t, MaxDepth);
      EvalOutBestMask(net, env, target, twb, t, MaxDepth);
    }
    assert src == Lift(out);
    assert seq(|m|, t requires 0 <= t < |m| => m[t] == Some(Bools([true]))) == EmitMask(out, Pad);
    SelectLift(out, EmitMask(out, Pad));
    if IsPath(out) {
      CollapseIsCtcCollapse(out);
    }
  }

  // ---------------------------------------------------------------------
  // The EOS remap layers move EOS onto blank
  // ---------------------------------------------------------------------

  lemma EvalSlice(net: map<string, Layer>, env: Env, name: string, src: string, x: seq<real>, s: nat, e: nat, t: nat, fuel: nat)
    requires name in net && net[name] == L(Slice(s, e), [src]) && name !in env.inputs && !IsPrev(name)
    requires src in env.inputs && t < |env.inputs[src]| && env.inputs[src][t] == Reals(x)
    requires s <= e <= |x| && fuel >= 1
    ensures Eval(net, env, name, t, fuel) == Some(Reals(x[s..e]))
  {
    assert Eval(net, env, src, t, fuel - 1) == Some(Reals(x));
    EvalAll1(net, env, src, t, fuel - 1, Reals(x));
    EvalPlain(net, env, name, t, fuel, [Reals(x)]);
  }

  ghost predicate EosNet(net: map<string, Layer>, env: Env, src: string, x: seq<real>, t: nat)
  {
    && Holds(EosRemapLayers(src), net)
    && InputsOutside(net, env)
    && src in env.inputs && t < |env.inputs[src]| && env.inputs[src][t] == Reals(x) && |x| == V + 1
  }

  lemma EvalEosZeros(net: map<string, Layer>, env: Env, src: string, x: seq<real>, t: nat, fuel: nat)
    requires EosNet(net, env, src, x, t) && fuel >= 2
    ensures Eval(net, env, "zeros", t, fuel) == Some(Reals([0.0]))
  {
    var e := EosRemapLayers(src);
    assert e[1].0 == "ctc_eos_slice" && net["ctc_eos_slice"] == e[1].1;
    assert e[3].0 == "zeros" && net["zeros"] == e[3].1;
    EvalSlice(net, env, "ctc_eos_slice", src, x, 0, 1, t, fuel - 1);
    EvalAll1(net, env, "ctc_eos_slice", t, fuel - 1, Reals(x[0..1]));
    EvalPlain(net, env, "zeros", t, fuel, [Reals(x[0..1])]);
    assert MapReals(x[0..1], y => y * 0.0) == [0.0];
  }

  lemma EvalBlankPlusEos(net: map<string, Layer>, env: Env, src: string, x: seq<real>, t: nat, fuel: nat)
    requires EosNet(net, env, src, x, t) && fuel >= 2
    ensures Eval(net, env, "ctc_blank_plus_eos", t, fuel) == Some(Reals([x[V] + x[0]]))
  {
    var e := EosRemapLayers(src);
    assert e[1].0 == "ctc_eos_slice" && net["ctc_eos_slice"] == e[1].1;
    assert e[2].0 == "ctc_blank_slice" && net["ctc_blank_slice"] == e[2].1;
    assert e[4].0 == "ctc_blank_plus_eos" && net["ctc_blank_plus_eos"] == e[4].1;
    EvalSlice(net, env, "ctc_eos_slice", src, x, 0, 1, t, fuel - 1);
    EvalSlice(net, env, "ctc_blank_slice", src, x, 10025, 10026, t, fuel - 1);
    assert x[10025..10026] == [x[V]] && x[0..1] == [x[0]];
    EvalAll2(net, env, "ctc_blank_slice", "ctc_eos_slice", t, fuel - 1, Reals([x[V]]), Reals([x[0]]));
    EvalPlain(net, env, "ctc_blank_plus_eos", t, fuel, [Reals([x[V]]), Reals([x[0]])]);
    ZipScalars(x[V], x[0], AddReal);
    assert [Reals([x[V]]), Reals([x[0]])][..1] == [Reals([x[V]])];
    assert AddAll([Reals([x[V]]), Reals([x[0]])]) == Some([x[V] + x[0]]);
  }

  /** With the CTC posteriors `x` as source, `ctc_no_eos` is `RemoveEos(x)`: EOS zeroed, its mass added to blank. */
  lemma EosRemapLayersCompute(net: map<string, Layer>, env: Env, src: string, x: seq<real>, t: nat)
    requires EosNet(net, env, src, x, t)
    ensures Eval(net, env, "ctc_no_eos", t, MaxDepth) == Some(Reals(RemoveEos(x)))
    ensures SumReal(RemoveEos(x)) == SumReal(x)
  {
    var e := EosRemapLayers(src);
    var f := MaxDepth;
    assert e[0].0 == "ctc_no_eos_no_blank_slice" && net["ctc_no_eos_no_blank_slice"] == e[0].1;
    assert e[5].0 == "ctc_no_eos" && net["ctc_no_eos"] == e[5].1;
    EvalSlice(net, env, "ctc_no_eos_no_blank_slice", src, x, 1, 10025, t, f - 1);
    EvalEosZeros(net, env, src, x, t, f - 1);
    EvalBlankPlusEos(net, env, src, x, t, f - 1);
    var vs := [Reals([0.0]), Reals(x[1..10025]), Reals([x[V] + x[0]])];
    EvalAll3(net, env, "zeros", "ctc_no_eos_no_blank_slice", "ctc_blank_plus_eos", t, f - 1,
             vs[0], vs[1], vs[2]);
    EvalPlain(net, env, "ctc_no_eos", t, f, vs);
    ConcatThree([0.0], x[1..10025], [x[V] + x[0]]);
    RemoveEosSplit(x);
    RemoveEosPreservesSum(x);
  }

  lemma ConcatThree(a: seq<real>, b: seq<real>, c: seq<real>)
    ensures ConcatReals([Reals(a), Reals(b), Reals(c)]) == Some(a + b + c)
  {
    var vs := [Reals(a), Reals(b), Reals(c)];
    assert vs[..2][..1] == [vs[0]] && vs[..2] == [vs[0], vs[1]] && [vs[0]][..0] == [];
    assert ConcatReals([vs[0]]) == Some([] + a);
    assert [] + a == a;
    var two := vs[..2];
    assert two[..|two| - 1] == [vs[0]] && two[|two| - 1] == vs[1];
    assert ConcatReals(two) == Some(a + b);
    assert vs[..|vs| - 1] == two;
  }
}
