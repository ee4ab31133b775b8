/**
 * What one frame of a fused decoder unit computes.  Given the frame's CTC
 * posteriors (and log prior) and the attention decoder's and the LM's
 * distributions, the score layers of `CtcLayers` compute `ctc_log_scores`,
 * the renormalised label scores, `combined_att_ctc_scores` and the score
 * vector `p_comb_sigma_prime` as the functions of `CtcSemantics` say.  The
 * two distributions come out of subnetworks whose layers the evaluator does
 * not model (`trigg_att`, the LM under `lm_output`), so a frame receives them
 * as given values in place of `trigg_att` and `lm_output_prob`.
 */
module CtcUnit {
  import opened Common
  import opened ReturnnNet
  import opened CtcSemantics
  import opened CtcLayers

  /** The values one frame receives: CTC posteriors, log prior, attention and LM distributions. */
  datatype FrameInputs = FrameInputs(x: seq<real>, prior: seq<real>, pAtt: seq<real>, pLm: seq<real>)

  /** The score tables of a fused unit, each as written. */
  ghost predicate ScoreTables(net: map<string, Layer>, cfg: DecoderConfig)
  {
    && Holds(CtcScoreLayers(cfg), net)
    && Holds(MaskLayers(), net)
    && (cfg.addAttDec ==> Holds(AttScoreLayers(cfg, Some(AttLayer)), net))
    && (cfg.addExtLm ==> Holds(LmScoreLayers(cfg, Some(LmLayer)), net))
    && Holds(CombinationLayers(cfg), net)
    && Holds(PrefixTermLayers(cfg), net)
    && Holds(ScoreOutputLayers(cfg), net)
  }

  /** Layer `name` holds the vector `v` at frame t. */
  ghost predicate Given(env: Env, name: string, t: nat, v: seq<real>)
  {
    name in env.inputs && t < |env.inputs[name]| && env.inputs[name][t] == Reals(v)
  }

  /**
   * Frame t receives the posteriors over the V + 1 outputs on `data:source`,
   * the log prior on `base:ctc_log_prior` (with prior correction) and the
   * attention and LM distributions over the V labels in place of
   * `trigg_att` and `lm_output_prob` (when those are fused); no other layer
   * of the unit is given, and every decided label is a label or blank.
   */
  ghost predicate ScoreFrame(net: map<string, Layer>, env: Env, cfg: DecoderConfig, fi: FrameInputs, t: nat)
  {
    && (forall k :: k in env.inputs ==> !IsPrev(k) && (k !in net || k == AttLayer || k == LmLayer))
    && t < |env.out| && IsPath(env.out)
    && |fi.x| == V + 1 && |fi.prior| == V + 1 && |fi.pAtt| == V && |fi.pLm| == V
    && Given(env, "data:source", t, fi.x)
    && (cfg.ctcPriorCorrection ==> Given(env, "base:ctc_log_prior", t, fi.prior))
    && (cfg.addAttDec ==> Given(env, AttLayer, t, fi.pAtt))
    && (cfg.addExtLm ==> Given(env, LmLayer, t, fi.pLm))
  }

  /** `ctc_log_scores` of the frame, by `CtcSemantics`. */
  function FrameCtcLog(env: Env, cfg: DecoderConfig, fi: FrameInputs): (r: seq<real>)
    requires |fi.x| == V + 1 && |fi.prior| == V + 1
    ensures |r| == V + 1
  {
    CtcLogScores(fi.x, fi.prior, cfg.ctcPriorCorrection, cfg.priorScale, env.safeLog, env.logSumExp)
  }

  /** `combined_att_ctc_scores` of the frame, by `CtcSemantics`. */
  function FrameCombined(env: Env, cfg: DecoderConfig, fi: FrameInputs): (r: Option<seq<real>>)
    requires |fi.x| == V + 1 && |fi.prior| == V + 1 && |fi.pAtt| == V && |fi.pLm| == V
    ensures r.Some? ==> |r.value| == V
  {
    CombinedScores(FrameCtcLog(env, cfg, fi), fi.pAtt, fi.pLm, cfg.ctcScale, cfg.addAttDec, cfg.attScale,
                   cfg.addExtLm, cfg.lmScale, env.safeLog, env.logSumExp)
  }

  /** `eval` with `source(0) * c`, entry by entry. */
  function Scale(c: real, v: seq<real>): (r: seq<real>)
    ensures |r| == |v|
  {
    seq(|v|, i requires 0 <= i < |v| => c * v[i])
  }

  /** `eval` with `source(0) - c`, entry by entry. */
  function Lower(v: seq<real>, c: real): (r: seq<real>)
    ensures |r| == |v|
  {
    seq(|v|, i requires 0 <= i < |v| => v[i] - c)
  }

  /** The score of every label that does not repeat the previous one: `1_minus_term_log` plus the combined score. */
  function NewLabelScores(oneMinusTermLog: real, combined: seq<real>): (r: seq<real>)
    ensures |r| == |combined|
  {
    seq(|combined|, v requires 0 <= v < |combined| => oneMinusTermLog + combined[v])
  }

  lemma ApplyScaleBy(c: real, v: seq<real>, env: Env)
    ensures Apply(EvalLayerExpr(ScaleBy(c)), [Reals(v)], env) == Some(Reals(Scale(c, v)))
  {
    assert ExprOp(ScaleBy(c), v).value == Scale(c, v);
  }

  lemma ApplyMinus(c: real, v: seq<real>, env: Env)
    ensures Apply(EvalLayerExpr(Minus(c)), [Reals(v)], env) == Some(Reals(Lower(v, c)))
  {
    assert ExprOp(Minus(c), v).value == Lower(v, c);
  }

  lemma EvalGiven(net: map<string, Layer>, env: Env, name: string, t: nat, fuel: nat, v: seq<real>)
    requires Given(env, name, t, v)
    ensures Eval(net, env, name, t, fuel) == Some(Reals(v))
  {
  }

  /** The decoder's previous output, a label or blank. */
  lemma EvalPrev(net: map<string, Layer>, env: Env, cfg: DecoderConfig, fi: FrameInputs, t: nat, fuel: nat)
    requires Holds(ScoreOutputLayers(cfg), net) && ScoreFrame(net, env, cfg, fi, t)
    ensures Eval(net, env, "prev:output", t, fuel) == Some(Ints([PrevOutputs(env.out)[t]]))
    ensures 0 <= PrevOutputs(env.out)[t] <= Blank
  {
    var so := ScoreOutputLayers(cfg);
    assert so[4].0 == "output" && net["output"] == so[4].1;
    assert IsPrev("prev:output");
    EvalPrevOutput(net, env, t, fuel);
  }

  /** The items of `add_ctc_scores`: the prior part (when on) and the blank entries. */
  lemma CtcScoreParts(net: map<string, Layer>, cfg: DecoderConfig)
    requires Holds(CtcScoreLayers(cfg), net)
    ensures Holds(BlankLayers(), net) && "ctc_log_scores" in net
    ensures cfg.ctcPriorCorrection ==> Holds(PriorLayers(cfg.priorScale), net)
    ensures cfg.ctcPriorCorrection ==> Holds(NormLayers("ctc_log_scores_w_prior"), net)
    ensures cfg.ctcPriorCorrection ==> net["ctc_log_scores"] == L(Copy, ["ctc_log_scores_w_prior_renorm"])
    ensures !cfg.ctcPriorCorrection ==> net["ctc_log_scores"] == L(Act(SafeLog), ["data:source"])
  {
    var c := CtcScoreLayers(cfg);
    var pre := c[..|c| - 3];
    assert c == pre + BlankLayers();
    HoldsSplit(pre, BlankLayers(), net);
    if cfg.ctcPriorCorrection {
      var pn := PriorLayers(cfg.priorScale) + NormLayers("ctc_log_scores_w_prior");
      assert pre == pn + [("ctc_log_scores", L(Copy, ["ctc_log_scores_w_prior_renorm"]))];
      HoldsSplit(pn, [("ctc_log_scores", L(Copy, ["ctc_log_scores_w_prior_renorm"]))], net);
      HoldsSplit(PriorLayers(cfg.priorScale), NormLayers("ctc_log_scores_w_prior"), net);
      assert [("ctc_log_scores", L(Copy, ["ctc_log_scores_w_prior_renorm"]))][0].0 == "ctc_log_scores";
    } else {
      assert pre[0].0 == "ctc_log_scores";
    }
  }

  // ---------------------------------------------------------------------
  // CTC scores
  // ---------------------------------------------------------------------

  /** With prior correction, `ctc_log_scores_w_prior` is `PriorCorrected` of the posteriors and the prior. */
  lemma EvalWithPrior(net: map<string, Layer>, env: Env, cfg: DecoderConfig, fi: FrameInputs, t: nat, fuel: nat)
    requires Holds(PriorLayers(cfg.priorScale), net) && ScoreFrame(net, env, cfg, fi, t) && cfg.ctcPriorCorrection && fuel >= 2
    ensures Eval(net, env, "ctc_log_scores_w_prior", t, fuel) ==
            Some(Reals(PriorCorrected(fi.x, fi.prior, cfg.priorScale, env.safeLog)))
  {
    hide Eval, EvalLayer, EvalAll;
    var c := PriorLayers(cfg.priorScale);
    assert c[0].0 == "ctc_log_scores_no_prior" && net[c[0].0] == c[0].1;
    assert c[1].0 == "scaled_ctc_log_prior" && net[c[1].0] == c[1].1;
    assert c[2].0 == "ctc_log_scores_w_prior" && net[c[2].0] == c[2].1;
    var a := MapReals(fi.x, env.safeLog);
    var b := Scale(cfg.priorScale, fi.prior);
    EvalGiven(net, env, "data:source", t, fuel - 2, fi.x);
    EvalGiven(net, env, "base:ctc_log_prior", t, fuel - 2, fi.prior);
    EvalFrom1(net, env, "ctc_log_scores_no_prior", "data:source", t, fuel - 1, Reals(fi.x));
    EvalFrom1(net, env, "scaled_ctc_log_prior", "base:ctc_log_prior", t, fuel - 1, Reals(fi.prior));
    ApplyScaleBy(cfg.priorScale, fi.prior, env);
    EvalFrom2(net, env, "ctc_log_scores_w_prior", "ctc_log_scores_no_prior", "scaled_ctc_log_prior", t, fuel,
              Reals(a), Reals(b));
    ZipSame(a, b, SubReal);
    assert ZipReals(a, b, SubReal).value == PriorCorrected(fi.x, fi.prior, cfg.priorScale, env.safeLog);
  }

  /** With prior correction, `ctc_log_scores_w_prior_renorm` renormalises the prior-corrected scores. */
  lemma EvalRenorm(net: map<string, Layer>, env: Env, cfg: DecoderConfig, fi: FrameInputs, t: nat, fuel: nat)
    requires Holds(PriorLayers(cfg.priorScale), net) && Holds(NormLayers("ctc_log_scores_w_prior"), net)
    requires ScoreFrame(net, env, cfg, fi, t) && cfg.ctcPriorCorrection && fuel >= 4
    ensures Eval(net, env, "ctc_log_scores_w_prior_renorm", t, fuel) == Some(Reals(FrameCtcLog(env, cfg, fi)))
  {
    hide Eval, EvalLayer, EvalAll;
    var w := PriorCorrected(fi.x, fi.prior, cfg.priorScale, env.safeLog);
    var nt := NormLayers("ctc_log_scores_w_prior");
    var nrm := nt[0].0;
    var ren := nt[1].0;
    assert net[nrm] == nt[0].1 && net[ren] == nt[1].1;
    assert ren == "ctc_log_scores_w_prior_renorm";
    EvalWithPrior(net, env, cfg, fi, t, fuel - 1);
    EvalWithPrior(net, env, cfg, fi, t, fuel - 2);
    EvalFrom1(net, env, nrm, "ctc_log_scores_w_prior", t, fuel - 1, Reals(w));
    EvalFrom2(net, env, ren, "ctc_log_scores_w_prior", nrm, t, fuel, Reals(w), Reals([env.logSumExp(w)]));
    ZipScalarRight(w, env.logSumExp(w), SubReal);
    assert ZipReals(w, [env.logSumExp(w)], SubReal).value == FrameCtcLog(env, cfg, fi);
  }

  /** `ctc_log_scores` is `CtcLogScores` of the posteriors (and the prior). */
  lemma EvalCtcLogScores(net: map<string, Layer>, env: Env, cfg: DecoderConfig, fi: FrameInputs, t: nat, fuel: nat)
    requires Holds(CtcScoreLayers(cfg), net) && ScoreFrame(net, env, cfg, fi, t) && fuel >= 5
    ensures Eval(net, env, "ctc_log_scores", t, fuel) == Some(Reals(FrameCtcLog(env, cfg, fi)))
  {
    CtcScoreParts(net, cfg);
    hide Eval, EvalLayer, EvalAll, CtcScoreLayers, PriorLayers, NormLayers;
    if !cfg.ctcPriorCorrection {
      EvalGiven(net, env, "data:source", t, fuel - 1, fi.x);
      EvalFrom1(net, env, "ctc_log_scores", "data:source", t, fuel, Reals(fi.x));
      assert MapReals(fi.x, env.safeLog) == FrameCtcLog(env, cfg, fi);
    } else {
      EvalRenorm(net, env, cfg, fi, t, fuel - 1);
      EvalFrom1(net, env, "ctc_log_scores", "ctc_log_scores_w_prior_renorm", t, fuel, Reals(FrameCtcLog(env, cfg, fi)));
    }
  }

  /** `ctc_log_scores_slice`: the label entries of `ctc_log_scores`, blank dropped. */
  lemma EvalCtcSlice(net: map<string, Layer>, env: Env, cfg: DecoderConfig, fi: FrameInputs, t: nat, fuel: nat)
    requires Holds(CtcScoreLayers(cfg), net) && Holds(CombinationLayers(cfg), net)
    requires ScoreFrame(net, env, cfg, fi, t) && fuel >= 6
    ensures Eval(net, env, "ctc_log_scores_slice", t, fuel) == Some(Reals(FrameCtcLog(env, cfg, fi)[..V]))
  {
    hide Eval, EvalLayer, EvalAll, CtcScoreLayers;
    var cb := CombinationLayers(cfg);
    assert cb[0].0 == "ctc_log_scores_slice" && net[cb[0].0] == cb[0].1;
    EvalCtcLogScores(net, env, cfg, fi, t, fuel - 1);
    EvalFrom1(net, env, "ctc_log_scores_slice", "ctc_log_scores", t, fuel, Reals(FrameCtcLog(env, cfg, fi)));
  }

  /** `ctc_log_scores_renorm` is `CtcLabelScores`: the label scores renormalised without blank. */
  lemma EvalLabelScores(net: map<string, Layer>, env: Env, cfg: DecoderConfig, fi: FrameInputs, t: nat, fuel: nat)
    requires Holds(CtcScoreLayers(cfg), net) && Holds(CombinationLayers(cfg), net)
    requires ScoreFrame(net, env, cfg, fi, t) && fuel >= 8
    ensures Eval(net, env, "ctc_log_scores_renorm", t, fuel) ==
            Some(Reals(CtcLabelScores(FrameCtcLog(env, cfg, fi), env.logSumExp)))
  {
    hide Eval, EvalLayer, EvalAll, CtcScoreLayers;
    var cb := CombinationLayers(cfg);
    assert cb[1].0 == "ctc_log_scores_norm" && net[cb[1].0] == cb[1].1;
    assert cb[2].0 == "ctc_log_scores_renorm" && net[cb[2].0] == cb[2].1;
    var s := FrameCtcLog(env, cfg, fi)[..V];
    EvalCtcSlice(net, env, cfg, fi, t, fuel - 1);
    EvalCtcSlice(net, env, cfg, fi, t, fuel - 2);
    EvalFrom1(net, env, "ctc_log_scores_norm", "ctc_log_scores_slice", t, fuel - 1, Reals(s));
    EvalFrom2(net, env, "ctc_log_scores_renorm", "ctc_log_scores_slice", "ctc_log_scores_norm", t, fuel,
              Reals(s), Reals([env.logSumExp(s)]));
    ZipScalarRight(s, env.logSumExp(s), SubReal);
    assert ZipReals(s, [env.logSumExp(s)], SubReal).value == CtcLabelScores(FrameCtcLog(env, cfg, fi), env.logSumExp);
  }

  /** `scaled_ctc_log_scores`: the renormalised label scores times `ctc_scale`. */
  lemma EvalScaledCtc(net: map<string, Layer>, env: Env, cfg: DecoderConfig, fi: FrameInputs, t: nat, fuel: nat)
    requires Holds(CtcScoreLayers(cfg), net) && Holds(CombinationLayers(cfg), net)
    requires ScoreFrame(net, env, cfg, fi, t) && fuel >= 9
    ensures Eval(net, env, "scaled_ctc_log_scores", t, fuel) ==
            Some(Reals(Scale(cfg.ctcScale, CtcLabelScores(FrameCtcLog(env, cfg, fi), env.logSumExp))))
  {
    hide Eval, EvalLayer, EvalAll, CtcScoreLayers;
    var cb := CombinationLayers(cfg);
    assert cb[3].0 == "scaled_ctc_log_scores" && net[cb[3].0] == cb[3].1;
    var ctc := CtcLabelScores(FrameCtcLog(env, cfg, fi), env.logSumExp);
    EvalLabelScores(net, env, cfg, fi, t, fuel - 1);
    EvalFrom1(net, env, "scaled_ctc_log_scores", "ctc_log_scores_renorm", t, fuel, Reals(ctc));
    ApplyScaleBy(cfg.ctcScale, ctc, env);
  }

  /** `scaled_att_log_scores`: the log attention distribution times `att_scale`. */
  lemma EvalScaledAtt(net: map<string, Layer>, env: Env, cfg: DecoderConfig, fi: FrameInputs, t: nat, fuel: nat)
    requires cfg.addAttDec && Holds(AttScoreLayers(cfg, Some(AttLayer)), net)
    requires ScoreFrame(net, env, cfg, fi, t) && fuel >= 2
    ensures Eval(net, env, "scaled_att_log_scores", t, fuel) ==
            Some(Reals(Scale(cfg.attScale, MapReals(fi.pAtt, env.safeLog))))
  {
    hide Eval, EvalLayer, EvalAll;
    var a := AttScoreLayers(cfg, Some(AttLayer));
    assert a[0].0 == "att_log_scores" && net[a[0].0] == a[0].1 && a[0].1.from == [AttLayer];
    assert a[1].0 == "scaled_att_log_scores" && net[a[1].0] == a[1].1;
    EvalGiven(net, env, AttLayer, t, fuel - 2, fi.pAtt);
    EvalFrom1(net, env, "att_log_scores", AttLayer, t, fuel - 1, Reals(fi.pAtt));
    EvalFrom1(net, env, "scaled_att_log_scores", "att_log_scores", t, fuel, Reals(MapReals(fi.pAtt, env.safeLog)));
    ApplyScaleBy(cfg.attScale, MapReals(fi.pAtt, env.safeLog), env);
  }

  /** `scaled_lm_log_scores`: the log LM distribution times `lm_scale`. */
  lemma EvalScaledLm(net: map<string, Layer>, env: Env, cfg: DecoderConfig, fi: FrameInputs, t: nat, fuel: nat)
    requires cfg.addExtLm && Holds(LmScoreLayers(cfg, Some(LmLayer)), net)
    requires ScoreFrame(net, env, cfg, fi, t) && fuel >= 2
    ensures Eval(net, env, "scaled_lm_log_scores", t, fuel) ==
            Some(Reals(Scale(cfg.lmScale, MapReals(fi.pLm, env.safeLog))))
  {
    hide Eval, EvalLayer, EvalAll;
    var a := LmScoreLayers(cfg, Some(LmLayer));
    assert a[0].0 == "lm_log_scores" && net[a[0].0] == a[0].1 && a[0].1.from == [LmLayer];
    assert a[1].0 == "scaled_lm_log_scores" && net[a[1].0] == a[1].1;
    EvalGiven(net, env, LmLayer, t, fuel - 2, fi.pLm);
    EvalFrom1(net, env, "lm_log_scores", LmLayer, t, fuel - 1, Reals(fi.pLm));
    EvalFrom1(net, env, "scaled_lm_log_scores", "lm_log_scores", t, fuel, Reals(MapReals(fi.pLm, env.safeLog)));
    ApplyScaleBy(cfg.lmScale, MapReals(fi.pLm, env.safeLog), env);
  }

  // ---------------------------------------------------------------------
  // Combined scores
  // ---------------------------------------------------------------------

  /** The terms `ts` of a `combine` add sum to `part` (all zero while there is no term yet). */
  ghost predicate SumsTo(ts: seq<Tensor>, part: seq<real>)
  {
    |part| == V && (if ts == [] then forall v :: 0 <= v < V ==> part[v] == 0.0 else AddAll(ts) == Some(part))
  }

  /** A `combine` add with one more term, present when `on`. */
  lemma AddStep(ts: seq<Tensor>, part: seq<real>, on: bool, y: seq<real>)
    requires SumsTo(ts, part) && |y| == V
    ensures SumsTo(ts + (if on then [Reals(y)] else []),
                   seq(V, v requires 0 <= v < V => part[v] + (if on then y[v] else 0.0)))
  {
    var next := seq(V, v requires 0 <= v < V => part[v] + (if on then y[v] else 0.0));
    if !on {
      assert ts + [] == ts;
      assert next == part;
    } else {
      var ts' := ts + [Reals(y)];
      assert ts'[..|ts'| - 1] == ts && ts'[|ts'| - 1] == Reals(y);
      if ts == [] {
        assert next == y;
      } else {
        ZipSame(part, y, AddReal);
        assert ZipReals(part, y, AddReal).value == next;
      }
    }
  }

  /** The values of an optional one-layer list. */
  lemma EvalOptional(net: map<string, Layer>, env: Env, on: bool, name: string, t: nat, fuel: nat, v: Tensor)
    requires on ==> Eval(net, env, name, t, fuel) == Some(v)
    ensures EvalAll(net, env, if on then [name] else [], t, fuel) == Some(if on then [v] else [])
  {
    if on {
      EvalAll1(net, env, name, t, fuel, v);
    }
  }

  /** The tensor list of an optional term. */
  function Opt(on: bool, y: seq<real>): seq<Tensor>
  {
    if on then [Reals(y)] else []
  }

  /** Adding the enabled terms gives, per label, the sum of the enabled entries. */
  lemma OptionalSum(c1: bool, c2: bool, c3: bool, y1: seq<real>, y2: seq<real>, y3: seq<real>)
    requires |y1| == V && |y2| == V && |y3| == V
    ensures !(c1 || c2 || c3) ==> Opt(c1, y1) + Opt(c2, y2) + Opt(c3, y3) == []
    ensures c1 || c2 || c3 ==>
              AddAll(Opt(c1, y1) + Opt(c2, y2) + Opt(c3, y3)) ==
              Some(seq(V, v requires 0 <= v < V =>
                         (if c1 then y1[v] else 0.0) + (if c2 then y2[v] else 0.0) + (if c3 then y3[v] else 0.0)))
  {
    var p0 := seq(V, v requires 0 <= v < V => 0.0);
    var p1 := seq(V, v requires 0 <= v < V => p0[v] + (if c1 then y1[v] else 0.0));
    var p2 := seq(V, v requires 0 <= v < V => p1[v] + (if c2 then y2[v] else 0.0));
    var p3 := seq(V, v requires 0 <= v < V => p2[v] + (if c3 then y3[v] else 0.0));
    assert SumsTo([], p0);
    AddStep([], p0, c1, y1);
    assert [] + Opt(c1, y1) == Opt(c1, y1);
    AddStep(Opt(c1, y1), p1, c2, y2);
    AddStep(Opt(c1, y1) + Opt(c2, y2), p2, c3, y3);
    if c1 || c2 || c3 {
      var w := seq(V, v requires 0 <= v < V =>
                     (if c1 then y1[v] else 0.0) + (if c2 then y2[v] else 0.0) + (if c3 then y3[v] else 0.0));
      assert p3 == w;
    }
  }

  /** The scaled terms `combined_att_ctc_scores` reads, each present when enabled. */
  lemma EvalCombinedTerms(net: map<string, Layer>, env: Env, cfg: DecoderConfig, fi: FrameInputs, t: nat, fuel: nat)
    requires Holds(CtcScoreLayers(cfg), net) && Holds(CombinationLayers(cfg), net)
    requires cfg.addAttDec ==> Holds(AttScoreLayers(cfg, Some(AttLayer)), net)
    requires cfg.addExtLm ==> Holds(LmScoreLayers(cfg, Some(LmLayer)), net)
    requires ScoreFrame(net, env, cfg, fi, t) && fuel >= 9
    ensures EvalAll(net, env, CombineList(cfg), t, fuel) ==
            Some(Opt(cfg.ctcScale > 0.0, Scale(cfg.ctcScale, CtcLabelScores(FrameCtcLog(env, cfg, fi), env.logSumExp)))
                 + Opt(cfg.addAttDec, Scale(cfg.attScale, MapReals(fi.pAtt, env.safeLog)))
                 + Opt(cfg.addExtLm, Scale(cfg.lmScale, MapReals(fi.pLm, env.safeLog))))
  {
    hide Eval, EvalLayer, EvalAll, CtcScoreLayers, AttScoreLayers, LmScoreLayers, CombinationLayers;
    var cv := Scale(cfg.ctcScale, CtcLabelScores(FrameCtcLog(env, cfg, fi), env.logSumExp));
    var av := Scale(cfg.attScale, MapReals(fi.pAtt, env.safeLog));
    var lv := Scale(cfg.lmScale, MapReals(fi.pLm, env.safeLog));
    var c1, c2, c3 := cfg.ctcScale > 0.0, cfg.addAttDec, cfg.addExtLm;
    if c1 { EvalScaledCtc(net, env, cfg, fi, t, fuel); }
    if c2 { EvalScaledAtt(net, env, cfg, fi, t, fuel); }
    if c3 { EvalScaledLm(net, env, cfg, fi, t, fuel); }
    var n1: seq<string> := if c1 then ["scaled_ctc_log_scores"] else [];
    var n2: seq<string> := if c2 then ["scaled_att_log_scores"] else [];
    var n3: seq<string> := if c3 then ["scaled_lm_log_scores"] else [];
    EvalOptional(net, env, c1, "scaled_ctc_log_scores", t, fuel, Reals(cv));
    EvalOptional(net, env, c2, "scaled_att_log_scores", t, fuel, Reals(av));
    EvalOptional(net, env, c3, "scaled_lm_log_scores", t, fuel, Reals(lv));
    EvalAllAppend(net, env, n1, n2, t, fuel, Opt(c1, cv), Opt(c2, av));
    EvalAllAppend(net, env, n1 + n2, n3, t, fuel, Opt(c1, cv) + Opt(c2, av), Opt(c3, lv));
    assert CombineList(cfg) == n1 + n2 + n3;
  }

  /** The terms of `combined_att_ctc_scores` add up to `CombinedScores` exactly when one is enabled. */
  lemma CombinedIsSum(ctcLog: seq<real>, pAtt: seq<real>, pLm: seq<real>, cfg: DecoderConfig,
                      safeLog: real -> real, logSumExp: seq<real> -> real)
    requires |ctcLog| == V + 1 && |pAtt| == V && |pLm| == V
    ensures AsReals(AddAll(Opt(cfg.ctcScale > 0.0, Scale(cfg.ctcScale, CtcLabelScores(ctcLog, logSumExp)))
                           + Opt(cfg.addAttDec, Scale(cfg.attScale, MapReals(pAtt, safeLog)))
                           + Opt(cfg.addExtLm, Scale(cfg.lmScale, MapReals(pLm, safeLog)))))
            == AsReals(CombinedScores(ctcLog, pAtt, pLm, cfg.ctcScale, cfg.addAttDec, cfg.attScale,
                                      cfg.addExtLm, cfg.lmScale, safeLog, logSumExp))
  {
    var ctc := CtcLabelScores(ctcLog, logSumExp);
    var cv := Scale(cfg.ctcScale, ctc);
    var av := Scale(cfg.attScale, MapReals(pAtt, safeLog));
    var lv := Scale(cfg.lmScale, MapReals(pLm, safeLog));
    var c1, c2, c3 := cfg.ctcScale > 0.0, cfg.addAttDec, cfg.addExtLm;
    OptionalSum(c1, c2, c3, cv, av, lv);
    if c1 || c2 || c3 {
      var w := seq(V, v requires 0 <= v < V =>
                     (if c1 then cv[v] else 0.0) + (if c2 then av[v] else 0.0) + (if c3 then lv[v] else 0.0));
      var comb := CombinedScores(ctcLog, pAtt, pLm, cfg.ctcScale, c2, cfg.attScale, c3, cfg.lmScale, safeLog, logSumExp);
      forall v | 0 <= v < V
        ensures w[v] == comb.value[v]
      {
        assert cv[v] == cfg.ctcScale * ctc[v];
        assert av[v] == cfg.attScale * safeLog(pAtt[v]);
        assert lv[v] == cfg.lmScale * safeLog(pLm[v]);
      }
      assert w == comb.value;
    }
  }

  /**
   * `combined_att_ctc_scores` is `CombinedScores`: the sum of the enabled
   * scaled CTC, attention and LM log scores, and no value when none is
   * enabled.
   */
  lemma EvalCombined(net: map<string, Layer>, env: Env, cfg: DecoderConfig, fi: FrameInputs, t: nat, fuel: nat)
    requires Holds(CtcScoreLayers(cfg), net) && Holds(CombinationLayers(cfg), net)
    requires cfg.addAttDec ==> Holds(AttScoreLayers(cfg, Some(AttLayer)), net)
    requires cfg.addExtLm ==> Holds(LmScoreLayers(cfg, Some(LmLayer)), net)
    requires ScoreFrame(net, env, cfg, fi, t) && fuel >= 10
    ensures Eval(net, env, "combined_att_ctc_scores", t, fuel) == AsReals(FrameCombined(env, cfg, fi))
  {
    hide Eval, EvalLayer, EvalAll, CtcScoreLayers, AttScoreLayers, LmScoreLayers, AddAll;
    var vs := Opt(cfg.ctcScale > 0.0, Scale(cfg.ctcScale, CtcLabelScores(FrameCtcLog(env, cfg, fi), env.logSumExp)))
              + Opt(cfg.addAttDec, Scale(cfg.attScale, MapReals(fi.pAtt, env.safeLog)))
              + Opt(cfg.addExtLm, Scale(cfg.lmScale, MapReals(fi.pLm, env.safeLog)));
    EvalCombinedTerms(net, env, cfg, fi, t, fuel - 1);
    var cb := CombinationLayers(cfg);
    assert cb[4].0 == "combined_att_ctc_scores" && net[cb[4].0] == cb[4].1 && cb[4].1.from == CombineList(cfg);
    EvalPlain(net, env, "combined_att_ctc_scores", t, fuel, vs);
    CombinedIsSum(FrameCtcLog(env, cfg, fi), fi.pAtt, fi.pLm, cfg, env.safeLog, env.logSumExp);
  }

  // ---------------------------------------------------------------------
  // Prefix terms
  // ---------------------------------------------------------------------

  /** `prev_output_reinterpret`: the previous output, read back as a label or blank. */
  lemma EvalReinterpret(net: map<string, Layer>, env: Env, cfg: DecoderConfig, fi: FrameInputs, t: nat, fuel: nat)
    requires Holds(PrefixTermLayers(cfg), net) && Holds(ScoreOutputLayers(cfg), net)
    requires ScoreFrame(net, env, cfg, fi, t) && fuel >= 1
    ensures Eval(net, env, "prev_output_reinterpret", t, fuel) == Some(Ints([PrevOutputs(env.out)[t]]))
  {
    hide Eval, EvalLayer, EvalAll;
    var pt := PrefixTermLayers(cfg);
    assert pt[1].0 == "prev_output_reinterpret" && net[pt[1].0] == pt[1].1;
    EvalPrev(net, env, cfg, fi, t, fuel - 1);
    EvalFrom1(net, env, "prev_output_reinterpret", "prev:output", t, fuel, Ints([PrevOutputs(env.out)[t]]));
  }

  /** `vocab_range`: the label indices 0..V-1. */
  lemma EvalVocabRange(net: map<string, Layer>, env: Env, cfg: DecoderConfig, fi: FrameInputs, t: nat, fuel: nat)
    requires Holds(PrefixTermLayers(cfg), net) && ScoreFrame(net, env, cfg, fi, t) && fuel >= 1
    ensures Eval(net, env, "vocab_range", t, fuel) == Some(Ints(seq(V, i requires 0 <= i < V => i)))
  {
    hide Eval, EvalLayer, EvalAll;
    var pt := PrefixTermLayers(cfg);
    assert pt[0].0 == "vocab_range" && net[pt[0].0] == pt[0].1;
    EvalFrom0(net, env, "vocab_range", t, fuel);
  }

  /** Comparing the previous output with every label index gives `RepeatMask`. */
  lemma RepeatMaskCompares(p: int)
    ensures CompareInts([p], seq(V, i requires 0 <= i < V => i), Equal) == Some(RepeatMask(p))
  {
    var r := seq(V, i requires 0 <= i < V => i);
    CompareRange(p, r, Equal);
    var w := CompareInts([p], r, Equal).value;
    forall v | 0 <= v < V
      ensures w[v] == RepeatMask(p)[v]
    {
    }
    assert w == RepeatMask(p);
  }

  /** `prev_repeat_mask`: true exactly at the label the previous output repeats. */
  lemma EvalPrevRepeatMask(net: map<string, Layer>, env: Env, cfg: DecoderConfig, fi: FrameInputs, t: nat, fuel: nat)
    requires Holds(PrefixTermLayers(cfg), net) && Holds(ScoreOutputLayers(cfg), net)
    requires ScoreFrame(net, env, cfg, fi, t) && fuel >= 2
    ensures Eval(net, env, "prev_repeat_mask", t, fuel) == Some(Bools(RepeatMask(PrevOutputs(env.out)[t])))
  {
    hide Eval, EvalLayer, EvalAll, RepeatMask, CompareInts;
    EvalVocabRange(net, env, cfg, fi, t, fuel - 1);
    EvalReinterpret(net, env, cfg, fi, t, fuel - 1);
    PrevRepeatMaskLayer(net, env, cfg, fi, t);
    RepeatMaskFrom(net, env, t, fuel, PrevOutputs(env.out)[t]);
  }

  /** A `Compare(Equal)` of a label with the vocabulary range is the label's repeat mask. */
  lemma RepeatMaskFrom(net: map<string, Layer>, env: Env, t: nat, fuel: nat, p: int)
    requires Internal(net, env, "prev_repeat_mask") && fuel >= 2
    requires net["prev_repeat_mask"] == L(Compare(Equal, None), ["prev_output_reinterpret", "vocab_range"])
    requires Eval(net, env, "prev_output_reinterpret", t, fuel - 1) == Some(Ints([p]))
    requires Eval(net, env, "vocab_range", t, fuel - 1) == Some(Ints(seq(V, i requires 0 <= i < V => i)))
    ensures Eval(net, env, "prev_repeat_mask", t, fuel) == Some(Bools(RepeatMask(p)))
  {
    hide Eval, EvalLayer, EvalAll, RepeatMask, CompareInts;
    var r := seq(V, i requires 0 <= i < V => i);
    EvalFrom2(net, env, "prev_repeat_mask", "prev_output_reinterpret", "vocab_range", t, fuel, Ints([p]), Ints(r));
    RepeatMaskCompares(p);
  }

  /** `prev_repeat_mask` compares the previous label with the vocabulary range. */
  lemma PrevRepeatMaskLayer(net: map<string, Layer>, env: Env, cfg: DecoderConfig, fi: FrameInputs, t: nat)
    requires Holds(PrefixTermLayers(cfg), net) && ScoreFrame(net, env, cfg, fi, t)
    ensures Internal(net, env, "prev_repeat_mask")
    ensures net["prev_repeat_mask"] == L(Compare(Equal, None), ["prev_output_reinterpret", "vocab_range"])
  {
    var pt := PrefixTermLayers(cfg);
    assert pt[2].0 == "prev_repeat_mask" && net[pt[2].0] == pt[2].1;
  }

  /** `scaled_blank_log_prob_expand`: log P_ctc(blank) less `blank_prob_scale`. */
  lemma EvalBlankLogTerm(net: map<string, Layer>, env: Env, cfg: DecoderConfig, fi: FrameInputs, t: nat, fuel: nat)
    requires Holds(CtcScoreLayers(cfg), net) && Holds(PrefixTermLayers(cfg), net)
    requires ScoreFrame(net, env, cfg, fi, t) && fuel >= 8
    ensures Eval(net, env, "scaled_blank_log_prob_expand", t, fuel) ==
            Some(Reals([FrameCtcLog(env, cfg, fi)[Blank] - cfg.blankProbScale]))
  {
    hide Eval, EvalLayer, EvalAll, CtcScoreLayers;
    var c := FrameCtcLog(env, cfg, fi);
    CtcScoreParts(net, cfg);
    var bl := BlankLayers();
    var pt := PrefixTermLayers(cfg);
    assert bl[0].0 == "blank_log_prob" && net[bl[0].0] == bl[0].1;
    assert pt[4].0 == "scaled_blank_log_prob" && net[pt[4].0] == pt[4].1;
    assert pt[5].0 == "scaled_blank_log_prob_expand" && net[pt[5].0] == pt[5].1;
    EvalCtcLogScores(net, env, cfg, fi, t, fuel - 3);
    EvalFrom1(net, env, "blank_log_prob", "ctc_log_scores", t, fuel - 2, Reals(c));
    EvalFrom1(net, env, "scaled_blank_log_prob", "blank_log_prob", t, fuel - 1, Reals([c[Blank]]));
    ApplyMinus(cfg.blankProbScale, [c[Blank]], env);
    assert Lower([c[Blank]], cfg.blankProbScale) == [c[Blank] - cfg.blankProbScale];
    EvalFrom1(net, env, "scaled_blank_log_prob_expand", "scaled_blank_log_prob", t, fuel,
              Reals([c[Blank] - cfg.blankProbScale]));
  }

  /** `scaled_blank_prob`: P_ctc(blank) as the posterior gives it. */
  lemma EvalBlankProb(net: map<string, Layer>, env: Env, cfg: DecoderConfig, fi: FrameInputs, t: nat, fuel: nat)
    requires Holds(BlankLayers(), net) && Holds(PrefixTermLayers(cfg), net)
    requires ScoreFrame(net, env, cfg, fi, t) && fuel >= 2
    ensures Eval(net, env, "scaled_blank_prob", t, fuel) == Some(Reals([fi.x[Blank]]))
  {
    hide Eval, EvalLayer, EvalAll;
    var bl := BlankLayers();
    var pt := PrefixTermLayers(cfg);
    assert bl[2].0 == "blank_prob" && net[bl[2].0] == bl[2].1;
    assert pt[3].0 == "scaled_blank_prob" && net[pt[3].0] == pt[3].1;
    EvalGiven(net, env, "data:source", t, fuel - 2, fi.x);
    EvalFrom1(net, env, "blank_prob", "data:source", t, fuel - 1, Reals(fi.x));
    EvalFrom1(net, env, "scaled_blank_prob", "blank_prob", t, fuel, Reals([fi.x[Blank]]));
  }

  /** `prev_ctc_log_scores`: log P_ctc of the previous output. */
  lemma EvalPrevCtcLog(net: map<string, Layer>, env: Env, cfg: DecoderConfig, fi: FrameInputs, t: nat, fuel: nat)
    requires Holds(CtcScoreLayers(cfg), net) && Holds(PrefixTermLayers(cfg), net) && Holds(ScoreOutputLayers(cfg), net)
    requires ScoreFrame(net, env, cfg, fi, t) && fuel >= 6
    ensures 0 <= PrevOutputs(env.out)[t] <= Blank
    ensures Eval(net, env, "prev_ctc_log_scores", t, fuel) == Some(Reals([FrameCtcLog(env, cfg, fi)[PrevOutputs(env.out)[t]]]))
  {
    hide Eval, EvalLayer, EvalAll, CtcScoreLayers, FrameCtcLog;
    var c := FrameCtcLog(env, cfg, fi);
    var p := PrevOutputs(env.out)[t];
    var pt := PrefixTermLayers(cfg);
    assert pt[7].0 == "prev_ctc_log_scores" && net[pt[7].0] == pt[7].1;
    EvalCtcLogScores(net, env, cfg, fi, t, fuel - 1);
    EvalAll1(net, env, "ctc_log_scores", t, fuel - 1, Reals(c));
    EvalPrev(net, env, cfg, fi, t, fuel - 1);
    EvalGatherAt(net, env, "prev_ctc_log_scores", t, fuel, [Reals(c)], Ints([p]));
  }

  /** `scaled_prev_ctc_scores`: P_ctc of the previous output, scaled by 1. */
  lemma EvalPrevCtcScore(net: map<string, Layer>, env: Env, cfg: DecoderConfig, fi: FrameInputs, t: nat, fuel: nat)
    requires Holds(CtcScoreLayers(cfg), net) && Holds(PrefixTermLayers(cfg), net) && Holds(ScoreOutputLayers(cfg), net)
    requires ScoreFrame(net, env, cfg, fi, t) && fuel >= 8
    ensures 0 <= PrevOutputs(env.out)[t] <= Blank
    ensures Eval(net, env, "scaled_prev_ctc_scores", t, fuel) ==
            Some(Reals([env.safeExp(1.0 * FrameCtcLog(env, cfg, fi)[PrevOutputs(env.out)[t]])]))
  {
    hide Eval, EvalLayer, EvalAll, CtcScoreLayers, FrameCtcLog;
    var c := FrameCtcLog(env, cfg, fi);
    var p := PrevOutputs(env.out)[t];
    var pt := PrefixTermLayers(cfg);
    assert pt[8].0 == "scaled_prev_ctc_log_scores" && net[pt[8].0] == pt[8].1;
    assert pt[9].0 == "scaled_prev_ctc_scores" && net[pt[9].0] == pt[9].1;
    EvalPrevCtcLog(net, env, cfg, fi, t, fuel - 2);
    EvalFrom1(net, env, "scaled_prev_ctc_log_scores", "prev_ctc_log_scores", t, fuel - 1, Reals([c[p]]));
    ApplyScaleBy(1.0, [c[p]], env);
    assert Scale(1.0, [c[p]]) == [1.0 * c[p]];
    EvalFrom1(net, env, "scaled_prev_ctc_scores", "scaled_prev_ctc_log_scores", t, fuel, Reals([1.0 * c[p]]));
    assert MapReals([1.0 * c[p]], env.safeExp) == [env.safeExp(1.0 * c[p])];
  }

  /** `repeat_prob_term` is `RepeatTerm`: P_ctc of the previous label, 0 after a blank. */
  lemma EvalRepeatProbTerm(net: map<string, Layer>, env: Env, cfg: DecoderConfig, fi: FrameInputs, t: nat, fuel: nat)
    requires Holds(CtcScoreLayers(cfg), net) && Holds(MaskLayers(), net)
    requires Holds(PrefixTermLayers(cfg), net) && Holds(ScoreOutputLayers(cfg), net)
    requires ScoreFrame(net, env, cfg, fi, t) && fuel >= 9
    ensures 0 <= PrevOutputs(env.out)[t] <= Blank
    ensures Eval(net, env, "repeat_prob_term", t, fuel) ==
            Some(Reals([RepeatTerm(FrameCtcLog(env, cfg, fi), PrevOutputs(env.out)[t], env.safeExp)]))
  {
    hide Eval, EvalLayer, EvalAll, CtcScoreLayers;
    var c := FrameCtcLog(env, cfg, fi);
    var p := PrevOutputs(env.out)[t];
    var e := env.safeExp(1.0 * c[p]);
    var pt := PrefixTermLayers(cfg);
    var ms := MaskLayers();
    assert pt[10].0 == "repeat_prob_term" && net[pt[10].0] == pt[10].1;
    assert ms[2].0 == "is_prev_out_not_blank_mask" && net[ms[2].0] == ms[2].1;
    EvalPrevCtcScore(net, env, cfg, fi, t, fuel - 1);
    EvalPrev(net, env, cfg, fi, t, fuel - 2);
    EvalFrom1(net, env, "is_prev_out_not_blank_mask", "prev:output", t, fuel - 1, Ints([p]));
    CompareScalars(p, 10025, NotEqual);
    EvalSwitch(net, env, "repeat_prob_term", t, fuel, Bools([p != 10025]), Reals([e]), Reals([0.0]));
    SelectScalars(p != 10025, e, 0.0);
  }

  /** `1_minus_term_`: 1 - P_ctc(blank). */
  lemma EvalOneMinusBlank(net: map<string, Layer>, env: Env, cfg: DecoderConfig, fi: FrameInputs, t: nat, fuel: nat)
    requires Holds(BlankLayers(), net) && Holds(PrefixTermLayers(cfg), net)
    requires ScoreFrame(net, env, cfg, fi, t) && fuel >= 3
    ensures Eval(net, env, "1_minus_term_", t, fuel) == Some(Reals([1.0 - fi.x[Blank]]))
  {
    hide Eval, EvalLayer, EvalAll;
    var pt := PrefixTermLayers(cfg);
    assert pt[6].0 == "one" && net[pt[6].0] == pt[6].1;
    assert pt[11].0 == "1_minus_term_" && net[pt[11].0] == pt[11].1;
    EvalFrom0(net, env, "one", t, fuel - 1);
    EvalBlankProb(net, env, cfg, fi, t, fuel - 1);
    EvalFrom2(net, env, "1_minus_term_", "one", "scaled_blank_prob", t, fuel, Reals([1.0]), Reals([fi.x[Blank]]));
    ZipScalars(1.0, fi.x[Blank], SubReal);
  }

  /** `1_minus_term_log`: log(1 - P_ctc(blank) - repeat term). */
  lemma EvalOneMinusTermLog(net: map<string, Layer>, env: Env, cfg: DecoderConfig, fi: FrameInputs, t: nat, fuel: nat)
    requires Holds(CtcScoreLayers(cfg), net) && Holds(MaskLayers(), net)
    requires Holds(PrefixTermLayers(cfg), net) && Holds(ScoreOutputLayers(cfg), net)
    requires ScoreFrame(net, env, cfg, fi, t) && fuel >= 11
    ensures 0 <= PrevOutputs(env.out)[t] <= Blank
    ensures Eval(net, env, "1_minus_term_log", t, fuel) ==
            Some(Reals([env.safeLog(1.0 - fi.x[Blank]
                                    - RepeatTerm(FrameCtcLog(env, cfg, fi), PrevOutputs(env.out)[t], env.safeExp))]))
  {
    hide Eval, EvalLayer, EvalAll, CtcScoreLayers, RepeatTerm, FrameCtcLog;
    var rt := RepeatTerm(FrameCtcLog(env, cfg, fi), PrevOutputs(env.out)[t], env.safeExp);
    var pt := PrefixTermLayers(cfg);
    assert pt[12].0 == "1_minus_term" && net[pt[12].0] == pt[12].1;
    assert pt[13].0 == "1_minus_term_log" && net[pt[13].0] == pt[13].1;
    CtcScoreParts(net, cfg);
    EvalOneMinusBlank(net, env, cfg, fi, t, fuel - 2);
    EvalRepeatProbTerm(net, env, cfg, fi, t, fuel - 2);
    EvalFrom2(net, env, "1_minus_term", "1_minus_term_", "repeat_prob_term", t, fuel - 1,
              Reals([1.0 - fi.x[Blank]]), Reals([rt]));
    ZipScalars(1.0 - fi.x[Blank], rt, SubReal);
    EvalFrom1(net, env, "1_minus_term_log", "1_minus_term", t, fuel, Reals([1.0 - fi.x[Blank] - rt]));
    assert MapReals([1.0 - fi.x[Blank] - rt], env.safeLog) == [env.safeLog(1.0 - fi.x[Blank] - rt)];
  }

  // ---------------------------------------------------------------------
  // The score vector
  // ---------------------------------------------------------------------

  /** The previous output of frame t and the score terms the score vector is built from. */
  function FrameScoreVector(env: Env, cfg: DecoderConfig, fi: FrameInputs, t: nat, combined: seq<real>): (r: seq<real>)
    requires |fi.x| == V + 1 && |fi.prior| == V + 1 && |combined| == V
    requires t < |env.out| && IsPath(env.out)
    ensures |r| == V + 1
  {
    ScoreVector(FrameCtcLog(env, cfg, fi), combined, fi.x[Blank], PrevOutputs(env.out)[t],
                cfg.repeatProbScale, cfg.blankProbScale, env.safeLog, env.safeExp)
  }

  /**
   * `p_comb_sigma_prime_label`: `1_minus_term_log` plus the combined score of
   * every label, and no value when no score is combined.
   */
  lemma EvalNewLabelBranch(net: map<string, Layer>, env: Env, cfg: DecoderConfig, fi: FrameInputs, t: nat, fuel: nat)
    requires ScoreTables(net, cfg) && ScoreFrame(net, env, cfg, fi, t) && fuel >= 12
    ensures 0 <= PrevOutputs(env.out)[t] <= Blank
    ensures Eval(net, env, "p_comb_sigma_prime_label", t, fuel) ==
            match FrameCombined(env, cfg, fi)
            case None => None
            case Some(c) =>
              Some(Reals(NewLabelScores(env.safeLog(1.0 - fi.x[Blank]
                                      - RepeatTerm(FrameCtcLog(env, cfg, fi), PrevOutputs(env.out)[t], env.safeExp)), c)))
  {
    hide Eval, EvalLayer, EvalAll, CtcScoreLayers, FrameCombined, AddAll, RepeatTerm, FrameCtcLog;
    var o := env.safeLog(1.0 - fi.x[Blank] - RepeatTerm(FrameCtcLog(env, cfg, fi), PrevOutputs(env.out)[t], env.safeExp));
    var so := ScoreOutputLayers(cfg);
    assert so[0].0 == "p_comb_sigma_prime_label" && net[so[0].0] == so[0].1;
    var names := ["1_minus_term_log", "combined_att_ctc_scores"];
    EvalOneMinusTermLog(net, env, cfg, fi, t, fuel - 1);
    EvalCombined(net, env, cfg, fi, t, fuel - 1);
    match FrameCombined(env, cfg, fi)
    case None =>
      assert names[1] == "combined_att_ctc_scores";
      EvalAllNone(net, env, names, 1, t, fuel - 1);
      EvalPlainNone(net, env, "p_comb_sigma_prime_label", t, fuel);
    case Some(c) =>
      EvalFrom2(net, env, "p_comb_sigma_prime_label", "1_minus_term_log", "combined_att_ctc_scores", t, fuel,
                Reals([o]), Reals(c));
      AddTwo([o], c);
      ZipScalarLeft(o, c, AddReal);
      assert ZipReals([o], c, AddReal).value == NewLabelScores(o, c);
  }

  /** `scaled_ctc_log_scores_slice`: every label's CTC log score less `repeat_prob_scale`. */
  lemma EvalRepeatBranch(net: map<string, Layer>, env: Env, cfg: DecoderConfig, fi: FrameInputs, t: nat, fuel: nat)
    requires Holds(CtcScoreLayers(cfg), net) && Holds(CombinationLayers(cfg), net) && Holds(ScoreOutputLayers(cfg), net)
    requires ScoreFrame(net, env, cfg, fi, t) && fuel >= 7
    ensures Eval(net, env, "scaled_ctc_log_scores_slice", t, fuel) ==
            Some(Reals(Lower(FrameCtcLog(env, cfg, fi)[..V], cfg.repeatProbScale)))
  {
    hide Eval, EvalLayer, EvalAll, CtcScoreLayers;
    var so := ScoreOutputLayers(cfg);
    assert so[1].0 == "scaled_ctc_log_scores_slice" && net[so[1].0] == so[1].1;
    EvalCtcSlice(net, env, cfg, fi, t, fuel - 1);
    EvalFrom1(net, env, "scaled_ctc_log_scores_slice", "ctc_log_scores_slice", t, fuel,
              Reals(FrameCtcLog(env, cfg, fi)[..V]));
    ApplyMinus(cfg.repeatProbScale, FrameCtcLog(env, cfg, fi)[..V], env);
  }

  /** Selecting by the repeat mask gives the label part of `ScoreVector`. */
  lemma LabelPartOfScoreVector(env: Env, cfg: DecoderConfig, fi: FrameInputs, t: nat, c: seq<real>)
    requires |fi.x| == V + 1 && |fi.prior| == V + 1 && |c| == V
    requires t < |env.out| && IsPath(env.out)
    ensures Select3(RepeatMask(PrevOutputs(env.out)[t]), Lower(FrameCtcLog(env, cfg, fi)[..V], cfg.repeatProbScale),
                    NewLabelScores(env.safeLog(1.0 - fi.x[Blank]
                                     - RepeatTerm(FrameCtcLog(env, cfg, fi), PrevOutputs(env.out)[t], env.safeExp)), c))
            == Some(FrameScoreVector(env, cfg, fi, t, c)[..V])
  {
    var p := PrevOutputs(env.out)[t];
    var ctcLog := FrameCtcLog(env, cfg, fi);
    var o := env.safeLog(1.0 - fi.x[Blank] - RepeatTerm(ctcLog, p, env.safeExp));
    var m, a, b := RepeatMask(p), Lower(ctcLog[..V], cfg.repeatProbScale), NewLabelScores(o, c);
    SelectSame(m, a, b);
    var sv := FrameScoreVector(env, cfg, fi, t, c);
    forall v | 0 <= v < V
      ensures (if m[v] then a[v] else b[v]) == sv[v]
    {
    }
    assert seq(V, v requires 0 <= v < V => if m[v] then a[v] else b[v]) == sv[..V];
  }

  /**
   * `scaled_label_score`: for each label, the repeat branch at the previous
   * output and the new-label branch elsewhere; no value when no score is
   * combined.
   */
  lemma EvalLabelScore(net: map<string, Layer>, env: Env, cfg: DecoderConfig, fi: FrameInputs, t: nat, fuel: nat)
    requires ScoreTables(net, cfg) && ScoreFrame(net, env, cfg, fi, t) && fuel >= 13
    ensures 0 <= PrevOutputs(env.out)[t] <= Blank
    ensures Eval(net, env, "scaled_label_score", t, fuel) ==
            match FrameCombined(env, cfg, fi)
            case None => None
            case Some(c) => Some(Reals(FrameScoreVector(env, cfg, fi, t, c)[..V]))
  {
    hide Eval, EvalLayer, EvalAll, CtcScoreLayers, FrameCombined, RepeatTerm, FrameCtcLog, FrameScoreVector;
    var p := PrevOutputs(env.out)[t];
    var so := ScoreOutputLayers(cfg);
    assert so[2].0 == "scaled_label_score" && net[so[2].0] == so[2].1;
    EvalNewLabelBranch(net, env, cfg, fi, t, fuel - 1);
    match FrameCombined(env, cfg, fi)
    case None =>
      EvalSwitchNone(net, env, "scaled_label_score", t, fuel);
    case Some(c) =>
      var o := env.safeLog(1.0 - fi.x[Blank] - RepeatTerm(FrameCtcLog(env, cfg, fi), p, env.safeExp));
      EvalPrevRepeatMask(net, env, cfg, fi, t, fuel - 1);
      EvalRepeatBranch(net, env, cfg, fi, t, fuel - 1);
      EvalSwitch(net, env, "scaled_label_score", t, fuel, Bools(RepeatMask(p)),
                 Reals(Lower(FrameCtcLog(env, cfg, fi)[..V], cfg.repeatProbScale)), Reals(NewLabelScores(o, c)));
      LabelPartOfScoreVector(env, cfg, fi, t, c);
  }

  /**
   * At frame t, `p_comb_sigma_prime` holds the score vector of
   * `CtcSemantics`, and no value when no score is combined.
   */
  ghost predicate ScoreVectorAt(net: map<string, Layer>, env: Env, cfg: DecoderConfig, fi: FrameInputs, t: nat)
    requires ScoreFrame(net, env, cfg, fi, t)
  {
    Eval(net, env, "p_comb_sigma_prime", t, MaxDepth) ==
      match FrameCombined(env, cfg, fi)
      case None => None
      case Some(c) => Some(Reals(FrameScoreVector(env, cfg, fi, t, c)))
  }

  /** The blank entry of `ScoreVector`: log P_ctc(blank) less `blank_prob_scale`. */
  lemma BlankPartOfScoreVector(env: Env, cfg: DecoderConfig, fi: FrameInputs, t: nat, c: seq<real>)
    requires |fi.x| == V + 1 && |fi.prior| == V + 1 && |c| == V
    requires t < |env.out| && IsPath(env.out)
    ensures FrameScoreVector(env, cfg, fi, t, c)[V] == FrameCtcLog(env, cfg, fi)[Blank] - cfg.blankProbScale
  {
  }

  /**
   * The score layers of a fused decoder unit compute `ScoreVector`: at
   * every frame, `p_comb_sigma_prime` is the label-synchronous CTC prefix
   * score vector over the V labels and blank, built from the frame's CTC
   * posteriors, the combined attention and LM scores and the previous
   * output; it has no value when neither CTC nor a fused model is scored.
   */
  lemma ScoreLayersComputeScoreVector(net: map<string, Layer>, env: Env, cfg: DecoderConfig, fi: FrameInputs, t: nat)
    requires ScoreTables(net, cfg) && ScoreFrame(net, env, cfg, fi, t)
    ensures ScoreVectorAt(net, env, cfg, fi, t)
  {
    hide Eval, EvalLayer, EvalAll, CtcScoreLayers, FrameCombined, FrameCtcLog, FrameScoreVector;
    var so := ScoreOutputLayers(cfg);
    assert so[3].0 == "p_comb_sigma_prime" && net[so[3].0] == so[3].1;
    var names := ["scaled_label_score", "scaled_blank_log_prob_expand"];
    EvalLabelScore(net, env, cfg, fi, t, MaxDepth - 1);
    match FrameCombined(env, cfg, fi)
    case None =>
      assert names[0] == "scaled_label_score";
      EvalAllNone(net, env, names, 0, t, MaxDepth - 1);
      EvalPlainNone(net, env, "p_comb_sigma_prime", t, MaxDepth);
    case Some(c) =>
      var sv := FrameScoreVector(env, cfg, fi, t, c);
      EvalBlankLogTerm(net, env, cfg, fi, t, MaxDepth - 1);
      BlankPartOfScoreVector(env, cfg, fi, t, c);
      EvalFrom2(net, env, "p_comb_sigma_prime", "scaled_label_score", "scaled_blank_log_prob_expand", t, MaxDepth,
                Reals(sv[..V]), Reals([sv[V]]));
      ConcatTwo(sv[..V], [sv[V]]);
      assert sv[..V] + [sv[V]] == sv;
  }

  // ---------------------------------------------------------------------
  // Gating of the attention decoder's states
  // ---------------------------------------------------------------------

  /** A switch item that no later item of its table renames is a hold switch of the table's dict. */
  lemma HoldSwitchItem(es: Entries, i: nat, name: string, cond: string, cand: string, prev: string)
    requires i < |es| && es[i] == (name, L(Switch(cond, From(cand), From(prev)), [])) && prev == "prev:" + name
    requires name !in Names(es[i + 1..])
    ensures IsHoldSwitch(Dict(es), name, cond, cand)
  {
    MergeLast(map[], es, i);
  }

  /** A switch item of one part of a table, not renamed later in its part nor by the parts after it. */
  lemma HoldSwitchInPart(pre: Entries, part: Entries, j: nat, post: Entries,
                         name: string, cond: string, cand: string, prev: string)
    requires j < |part| && part[j] == (name, L(Switch(cond, From(cand), From(prev)), [])) && prev == "prev:" + name
    requires name !in Names(part[j + 1..]) && name !in Names(post)
    ensures IsHoldSwitch(Dict(pre + part + post), name, cond, cand)
  {
    var es := pre + part + post;
    assert es[|pre| + j] == part[j];
    assert es[|pre| + j + 1..] == part[j + 1..] + post;
    NamesAppend(part[j + 1..], post);
    HoldSwitchItem(es, |pre| + j, name, cond, cand, prev);
  }

  /** No gated state is written again by the readout. */
  lemma ReadoutKeepsStates()
    ensures forall name | name in ["target_embed", "accum_att_weights", "s", "s_c", "s_h"] ::
              name !in Names(AttReadoutLayers())
  {
  }

  /** `target_embed` and `accum_att_weights` are not written by the LSTM part. */
  lemma StatePartKeepsInputs()
    ensures "target_embed" !in Names(AttStateLayers()) && "accum_att_weights" !in Names(AttStateLayers())
  {
  }

  /** The attention part does not write `target_embed`, nor `accum_att_weights` after its switch. */
  lemma WeightPartKeepsStates()
    ensures "target_embed" !in Names(AttWeightLayers())
    ensures "accum_att_weights" !in Names(AttWeightLayers()[3..])
    ensures |AttWeightLayers()| == 10
    ensures AttWeightLayers()[2] == ("accum_att_weights", L(Switch("base:prev_mask", From("_accum_att_weights"),
                                                                   From("prev:accum_att_weights")), []))
  {
  }

  /** In the attention subnetwork `target_embed` is a switch on `base:curr_mask`. */
  lemma TargetEmbedSwitch()
    ensures IsHoldSwitch(Dict(AttSubnet()), "target_embed", "base:curr_mask", "_target_embed")
  {
    var e, w, st, r := AttEmbedLayers(), AttWeightLayers(), AttStateLayers(), AttReadoutLayers();
    ReadoutKeepsStates();
    StatePartKeepsInputs();
    WeightPartKeepsStates();
    hide AttWeightLayers, AttStateLayers, AttReadoutLayers;
    assert e[3..] == [];
    NamesAppend(w, st);
    NamesAppend(w + st, r);
    assert "prev:" + "target_embed" == "prev:target_embed";
    assert AttSubnet() == [] + e + (w + st + r);
    HoldSwitchInPart([], e, 2, w + st + r, "target_embed", "base:curr_mask", "_target_embed", "prev:target_embed");
  }

  /**
   * In the attention subnetwork the LSTM state (`s`, `s_c`, `s_h`) and the
   * accumulated attention weights are switches on `base:prev_mask` that
   * otherwise keep their previous value.
   */
  lemma PrevMaskSwitches(name: string)
    requires PrevMaskGated(name)
    ensures IsHoldSwitch(Dict(AttSubnet()), name, "base:prev_mask", "_" + name)
  {
    if name == "accum_att_weights" {
      AccumSwitch();
    } else if name == "s" {
      StateSwitch();
    } else if name == "s_c" {
      CellSwitch();
    } else {
      HiddenSwitch();
    }
  }

  lemma AccumSwitch()
    ensures IsHoldSwitch(Dict(AttSubnet()), "accum_att_weights", "base:prev_mask", "_" + "accum_att_weights")
  {
    var e, w, st, r := AttEmbedLayers(), AttWeightLayers(), AttStateLayers(), AttReadoutLayers();
    ReadoutKeepsStates();
    StatePartKeepsInputs();
    WeightPartKeepsStates();
    hide AttEmbedLayers, AttWeightLayers, AttStateLayers, AttReadoutLayers;
    NamesAppend(st, r);
    assert "prev:" + "accum_att_weights" == "prev:accum_att_weights" && "_" + "accum_att_weights" == "_accum_att_weights";
    assert AttSubnet() == e + w + (st + r);
    HoldSwitchInPart(e, w, 2, st + r, "accum_att_weights", "base:prev_mask", "_accum_att_weights", "prev:accum_att_weights");
  }

  lemma StateSwitch()
    ensures IsHoldSwitch(Dict(AttSubnet()), "s", "base:prev_mask", "_" + "s")
  {
    var e, w, st, r := AttEmbedLayers(), AttWeightLayers(), AttStateLayers(), AttReadoutLayers();
    ReadoutKeepsStates();
    hide AttEmbedLayers, AttWeightLayers, AttReadoutLayers;
    assert "s" !in Names(st[2..]);
    assert "prev:" + "s" == "prev:s" && "_" + "s" == "_s";
    HoldSwitchInPart(e + w, st, 1, r, "s", "base:prev_mask", "_s", "prev:s");
  }

  lemma CellSwitch()
    ensures IsHoldSwitch(Dict(AttSubnet()), "s_c", "base:prev_mask", "_" + "s_c")
  {
    var e, w, st, r := AttEmbedLayers(), AttWeightLayers(), AttStateLayers(), AttReadoutLayers();
    ReadoutKeepsStates();
    hide AttEmbedLayers, AttWeightLayers, AttReadoutLayers;
    assert "s_c" !in Names(st[4..]);
    assert "prev:" + "s_c" == "prev:s_c" && "_" + "s_c" == "_s_c";
    HoldSwitchInPart(e + w, st, 3, r, "s_c", "base:prev_mask", "_s_c", "prev:s_c");
  }

  lemma HiddenSwitch()
    ensures IsHoldSwitch(Dict(AttSubnet()), "s_h", "base:prev_mask", "_" + "s_h")
  {
    var e, w, st, r := AttEmbedLayers(), AttWeightLayers(), AttStateLayers(), AttReadoutLayers();
    ReadoutKeepsStates();
    hide AttEmbedLayers, AttWeightLayers, AttReadoutLayers;
    assert st[6..] == [];
    assert "prev:" + "s_h" == "prev:s_h" && "_" + "s_h" == "_s_h";
    HoldSwitchInPart(e + w, st, 5, r, "s_h", "base:prev_mask", "_s_h", "prev:s_h");
  }

  /** The states of the attention decoder that `base:prev_mask` gates. */
  predicate PrevMaskGated(name: string)
  {
    name == "s" || name == "s_c" || name == "s_h" || name == "accum_att_weights"
  }

  /** The mask layers' values, frame by frame. */
  lemma MaskFrames(unit: map<string, Layer>, env: Env)
    requires MaskUnit(unit, env)
    ensures forall u :: 0 <= u < |env.out| ==> Frames(unit, env, "curr_mask")[u] == Some(Bools([CurrMasks(env.out)[u]]))
    ensures forall u :: 0 <= u < |env.out| ==> Frames(unit, env, "prev_mask")[u] == Some(Bools([PrevMasks(env.out)[u]]))
  {
    MaskLayersComputeMasks(unit, env);
  }

  /** A subnetwork input that carries a mask layer of the unit carries the mask. */
  lemma SubnetReadsMask(unit: map<string, Layer>, env: Env, sub: Env, key: string, mask: string, m: seq<bool>)
    requires key in sub.inputs && |sub.inputs[key]| >= |env.out| && |m| == |env.out|
    requires forall u :: 0 <= u < |env.out| ==> Some(sub.inputs[key][u]) == Frames(unit, env, mask)[u]
    requires forall u :: 0 <= u < |env.out| ==> Frames(unit, env, mask)[u] == Some(Bools([m[u]]))
    ensures forall u :: 0 <= u < |env.out| ==> sub.inputs[key][u] == Bools([m[u]])
  {
  }

  /**
   * Inside a fused unit, when the attention subnetwork reads the unit's
   * `prev_mask` as `base:prev_mask` and its candidate states `_s`, `_s_c`,
   * `_s_h`, `_accum_att_weights` are given, its LSTM state and accumulated
   * attention weights are `DecoderStates` of the decided labels: updated
   * exactly at the steps following an emitted label, held otherwise.
   */
  lemma AttStatesGated(unit: map<string, Layer>, env: Env, sub: Env, name: string, cands: seq<seq<real>>, n: nat, t: nat)
    requires MaskUnit(unit, env) && PrevMaskGated(name)
    requires "base:prev_mask" in sub.inputs && |sub.inputs["base:prev_mask"]| >= |env.out|
    requires forall u :: 0 <= u < |env.out| ==> Some(sub.inputs["base:prev_mask"][u]) == Frames(unit, env, "prev_mask")[u]
    requires "_" + name in sub.inputs && |sub.inputs["_" + name]| >= |env.out|
    requires |cands| == |env.out| && n > 0
    requires forall u :: 0 <= u < |env.out| ==> sub.inputs["_" + name][u] == Reals(cands[u]) && |cands[u]| == n
    requires name !in sub.inputs && "prev:" + name !in sub.inputs && t < |env.out|
    ensures Eval(Dict(AttSubnet()), sub, name, t, MaxDepth) == Some(Reals(DecoderStates(Zeros(n), env.out, cands)[t]))
  {
    hide Eval, EvalLayer, EvalAll, Frames, MaskLayers, AttSubnet;
    var m := PrevMasks(env.out);
    MaskFrames(unit, env);
    SubnetReadsMask(unit, env, sub, "base:prev_mask", "prev_mask", m);
    PrevMaskSwitches(name);
    assert !IsPrev(name);
    HoldSwitchUnrolls(Dict(AttSubnet()), sub, name, "base:prev_mask", "_" + name, m, cands, n, t, MaxDepth);
  }

  /** `target_embed` is not a previous-frame name, and its previous-frame name is `prev:target_embed`. */
  lemma TargetEmbedName()
    ensures !IsPrev("target_embed") && "prev:" + "target_embed" == "prev:target_embed"
  {
  }

  /**
   * Likewise `target_embed`, read by the next step's LSTM, is
   * `TargetEmbeds`: it takes the embedding of a label exactly at the step
   * that emits it.
   */
  lemma TargetEmbedGated(unit: map<string, Layer>, env: Env, sub: Env, cands: seq<seq<real>>, n: nat, t: nat)
    requires MaskUnit(unit, env)
    requires "base:curr_mask" in sub.inputs && |sub.inputs["base:curr_mask"]| >= |env.out|
    requires forall u :: 0 <= u < |env.out| ==> Some(sub.inputs["base:curr_mask"][u]) == Frames(unit, env, "curr_mask")[u]
    requires "_target_embed" in sub.inputs && |sub.inputs["_target_embed"]| >= |env.out|
    requires |cands| == |env.out| && n > 0
    requires forall u :: 0 <= u < |env.out| ==> sub.inputs["_target_embed"][u] == Reals(cands[u]) && |cands[u]| == n
    requires "target_embed" !in sub.inputs && "prev:target_embed" !in sub.inputs && t < |env.out|
    ensures Eval(Dict(AttSubnet()), sub, "target_embed", t, MaxDepth) == Some(Reals(TargetEmbeds(Zeros(n), env.out, cands)[t]))
  {
    hide Eval, EvalLayer, EvalAll, Frames, MaskLayers, AttSubnet;
    var m := CurrMasks(env.out);
    MaskFrames(unit, env);
    SubnetReadsMask(unit, env, sub, "base:curr_mask", "curr_mask", m);
    TargetEmbedSwitch();
    TargetEmbedName();
    HoldSwitchUnrolls(Dict(AttSubnet()), sub, "target_embed", "base:curr_mask", "_target_embed", m, cands, n, t, MaxDepth);
  }
}
