/**
 * The per-frame semantics that the layers of the label-synchronous CTC
 * decoder declare, over label indices.  The vocabulary has V = 10025
 * labels; the CTC posteriors have V + 1 entries, blank being the last one
 * (index 10025).  Label 0 is end-of-sentence.
 *
 * - best-path collapse (the `out_best_*` layers): drop blanks, merge repeats;
 * - emission masks `curr_mask` / `prev_mask` of the recurrent unit;
 * - state gating (`switch` layers, masked computation of the external LM);
 * - layout of the score vector `p_comb_sigma_prime`;
 * - the EOS-to-blank remap of the CTC posteriors.
 */
module CtcSemantics {
  import opened Common
  import opened ReturnnNet

  /** Number of labels without blank (`set_sparse_dim`, `slice_end`). */
  const V: nat := 10025
  /** Index of blank in the V + 1 CTC outputs. */
  const Blank: int := 10025
  /** Value `shift_axis` pads the first frame with. */
  const Pad: int := -1
  /** `initial_output` of the choice layer `output`: what `prev:output` is at the first step. */
  const InitialOutput: int := 0

  /** A best path of the decoder: every frame carries an output index 0..V. */
  ghost predicate IsPath(s: seq<int>)
  {
    forall t :: 0 <= t < |s| ==> 0 <= s[t] <= Blank
  }

  // ---------------------------------------------------------------------
  // Emission of a frame
  // ---------------------------------------------------------------------

  /**
   * Frame t emits its label when the label is not blank and differs from
   * the label of frame t - 1; before the first frame the predecessor is `p`.
   */
  predicate Emits(s: seq<int>, p: int, t: nat)
    requires t < |s|
  {
    s[t] != Blank && s[t] != (if t == 0 then p else s[t - 1])
  }

  function EmitMask(s: seq<int>, p: int): (m: seq<bool>)
    ensures |m| == |s|
  {
    seq(|s|, t requires 0 <= t < |s| => Emits(s, p, t))
  }

  lemma EmitMaskTail(s: seq<int>, p: int)
    requires |s| > 0
    ensures EmitMask(s, p)[0] == (s[0] != Blank && s[0] != p)
    ensures EmitMask(s, p)[1..] == EmitMask(s[1..], s[0])
  {
  }

  /** `a` is obtained from `b` by deleting entries. */
  ghost predicate IsSubsequence<T>(a: seq<T>, b: seq<T>)
    decreases |b|
  {
    if a == [] then true
    else if b == [] then false
    else (a[0] == b[0] && IsSubsequence(a[1..], b[1..])) || IsSubsequence(a, b[1..])
  }

  lemma SubsequenceOfTail<T>(a: seq<T>, b: seq<T>)
    requires b != [] && IsSubsequence(a, b[1..])
    ensures IsSubsequence(a, b)
  {
  }

  lemma {:induction false} SelectIsSubsequence<T>(s: seq<T>, m: seq<bool>)
    requires |s| == |m|
    ensures IsSubsequence(Select(s, m), s)
    decreases |s|
  {
    if s != [] {
      SelectIsSubsequence(s[1..], m[1..]);
      if m[0] {
        assert Select(s, m) == [s[0]] + Select(s[1..], m[1..]);
        assert Select(s, m)[1..] == Select(s[1..], m[1..]);
      } else {
        assert Select(s, m) == Select(s[1..], m[1..]);
        SubsequenceOfTail(Select(s, m), s);
      }
    }
  }

  // ---------------------------------------------------------------------
  // Best-path collapse (out_best_mask, out_best_wo_blank)
  // ---------------------------------------------------------------------

  /**
   * What `out_best_wo_blank` keeps: frame t survives iff its label is not
   * blank and differs from the frame before, the first frame being
   * compared with the pad value -1.
   */
  function Collapse(s: seq<int>): seq<int>
  {
    Select(s, EmitMask(s, Pad))
  }

  /** Textbook CTC: merge runs of equal labels ... */
  function MergeRepeats(s: seq<int>): seq<int>
    decreases |s|
  {
    if |s| <= 1 then s
    else if s[0] == s[1] then MergeRepeats(s[1..])
    else [s[0]] + MergeRepeats(s[1..])
  }

  /** ... then delete blanks. */
  function RemoveBlanks(s: seq<int>): seq<int>
  {
    if s == [] then [] else (if s[0] == Blank then [] else [s[0]]) + RemoveBlanks(s[1..])
  }

  lemma {:induction false} RemoveBlanksAppend(a: seq<int>, b: seq<int>)
    ensures RemoveBlanks(a + b) == RemoveBlanks(a) + RemoveBlanks(b)
    decreases |a|
  {
    if a == [] {
      assert a + b == b;
    } else {
      assert (a + b)[1..] == a[1..] + b;
      RemoveBlanksAppend(a[1..], b);
    }
  }

  /** The one-pass mask selection equals merge-then-remove-blanks, for any predecessor other than s[0]. */
  lemma {:induction false} SelectEmitIsMergeThenRemove(s: seq<int>, p: int)
    requires |s| > 0 && s[0] != p
    ensures Select(s, EmitMask(s, p)) == RemoveBlanks(MergeRepeats(s))
    decreases |s|
  {
    EmitMaskTail(s, p);
    var head := if s[0] != Blank then [s[0]] else [];
    assert Select(s, EmitMask(s, p)) == head + Select(s[1..], EmitMask(s[1..], s[0]));
    if |s| == 1 {
      assert s[1..] == [];
      assert RemoveBlanks(s) == head + RemoveBlanks([]);
    } else if s[0] == s[1] {
      var r := s[1..];
      EmitMaskTail(r, s[0]);
      assert Select(r, EmitMask(r, s[0])) == Select(r[1..], EmitMask(r[1..], r[0]));
      SelectEmitIsMergeThenRemove(r, p);
      EmitMaskTail(r, p);
      assert Select(r, EmitMask(r, p)) == head + Select(r[1..], EmitMask(r[1..], r[0]));
    } else {
      SelectEmitIsMergeThenRemove(s[1..], s[0]);
      RemoveBlanksAppend([s[0]], MergeRepeats(s[1..]));
      assert RemoveBlanks([s[0]]) == head + RemoveBlanks([]);
    }
  }

  /** The collapse layers compute the standard CTC collapse of a best path. */
  lemma CollapseIsCtcCollapse(s: seq<int>)
    requires IsPath(s)
    ensures Collapse(s) == RemoveBlanks(MergeRepeats(s))
  {
    if s != [] {
      SelectEmitIsMergeThenRemove(s, Pad);
    }
  }

  lemma {:induction false} SelectAvoids(s: seq<int>, m: seq<bool>, x: int)
    requires |s| == |m|
    requires forall t :: 0 <= t < |s| && m[t] ==> s[t] != x
    ensures x !in Select(s, m)
    decreases |s|
  {
    if s != [] {
      SelectAvoids(s[1..], m[1..], x);
    }
  }

  /** The collapse contains no blank, is a subsequence of the path and is no longer than it. */
  lemma CollapseProperties(s: seq<int>)
    ensures Blank !in Collapse(s)
    ensures IsSubsequence(Collapse(s), s)
    ensures |Collapse(s)| == CountTrue(EmitMask(s, Pad)) <= |s|
  {
    SelectAvoids(s, EmitMask(s, Pad), Blank);
    SelectIsSubsequence(s, EmitMask(s, Pad));
    SelectLength(s, EmitMask(s, Pad));
  }

  // ---------------------------------------------------------------------
  // Step masks of the recurrent unit (curr_mask, prev_mask)
  // ---------------------------------------------------------------------

  /** `curr_mask` at step t: the chosen output is a new non-blank label (`prev:output` starts at 0). */
  predicate CurrMask(out: seq<int>, t: nat)
    requires t < |out|
  {
    Emits(out, InitialOutput, t)
  }

  /** `prev_mask` at step t: `prev:curr_mask`, true at the first step. */
  predicate PrevMask(out: seq<int>, t: nat)
    requires t < |out|
  {
    if t == 0 then true else CurrMask(out, t - 1)
  }

  function CurrMasks(out: seq<int>): (m: seq<bool>)
    ensures |m| == |out|
  {
    EmitMask(out, InitialOutput)
  }

  function PrevMasks(out: seq<int>): (m: seq<bool>)
    ensures |m| == |out|
  {
    seq(|out|, t requires 0 <= t < |out| => PrevMask(out, t))
  }

  /** The labels handed to the decoder state: those at steps where `curr_mask` holds. */
  function Emitted(out: seq<int>): seq<int>
  {
    Select(out, CurrMasks(out))
  }

  lemma CurrMasksPrefix(out: seq<int>, n: nat)
    requires n <= |out|
    ensures CurrMasks(out)[..n] == CurrMasks(out[..n])
  {
  }

  /**
   * The masks and the collapse agree except on a leading label 0: the
   * collapse compares the first frame with -1, `curr_mask` with 0.
   */
  lemma EmittedVersusCollapse(out: seq<int>)
    requires |out| > 0 && out[0] != Pad
    ensures out[0] != InitialOutput ==> Emitted(out) == Collapse(out)
    ensures out[0] == InitialOutput ==> Collapse(out) == [InitialOutput] + Emitted(out)
  {
    EmitMaskTail(out, Pad);
    EmitMaskTail(out, InitialOutput);
    assert EmitMask(out, Pad)[1..] == EmitMask(out, InitialOutput)[1..];
    if out[0] != InitialOutput {
      assert EmitMask(out, Pad) == EmitMask(out, InitialOutput);
    }
  }

  /** Count of true `curr_mask` steps versus the length of the collapse. */
  lemma CurrMaskCount(out: seq<int>)
    requires IsPath(out)
    ensures CountTrue(CurrMasks(out)) ==
              |Collapse(out)| - (if |out| > 0 && out[0] == InitialOutput then 1 else 0)
  {
    SelectLength(out, CurrMasks(out));
    if out != [] {
      EmittedVersusCollapse(out);
    }
  }

  /** `prev_mask` is `curr_mask` delayed by one step, starting with true. */
  lemma PrevMasksShift(out: seq<int>)
    requires |out| > 0
    ensures PrevMasks(out) == [true] + CurrMasks(out[..|out| - 1])
  {
    CurrMasksPrefix(out, |out| - 1);
  }

  // ---------------------------------------------------------------------
  // State gating (switch layers and the LM's masked computation)
  // ---------------------------------------------------------------------

  /** Decoder state (`s`, `s_c`, `s_h`, `accum_att_weights`): gated by `prev_mask`. */
  function DecoderStates<T>(init: T, out: seq<int>, cand: seq<T>): seq<T>
    requires |cand| == |out|
  {
    Gated(init, PrevMasks(out), cand)
  }

  /** `target_embed`: gated by `curr_mask`. */
  function TargetEmbeds<T>(init: T, out: seq<int>, cand: seq<T>): seq<T>
    requires |cand| == |out|
  {
    Gated(init, CurrMasks(out), cand)
  }

  /**
   * At step t the decoder state has taken a new value exactly when a new
   * label was emitted at step t - 1 (and at the first step); otherwise it
   * repeats its previous value.
   */
  lemma DecoderStateGating<T>(init: T, out: seq<int>, cand: seq<T>, t: nat)
    requires |cand| == |out| && t < |out|
    ensures PrevMask(out, t) ==> DecoderStates(init, out, cand)[t] == cand[t]
    ensures !PrevMask(out, t) ==> t > 0 && DecoderStates(init, out, cand)[t] == DecoderStates(init, out, cand)[t - 1]
  {
    var c := PrevMasks(out);
    GatedIsLastUpdate(init, c, cand, t);
    if !c[t] {
      GatedIsLastUpdate(init, c, cand, t - 1);
    }
  }

  /** The previous output at each step: `prev:output`, 0 at the first step. */
  function PrevOutputs(out: seq<int>): (p: seq<int>)
    ensures |p| == |out|
  {
    seq(|out|, t requires 0 <= t < |out| => if t == 0 then InitialOutput else out[t - 1])
  }

  /**
   * The external LM runs as a masked computation under `prev_mask` and reads
   * `prev:output`; the labels it consumes.
   */
  function LmInputs(out: seq<int>): seq<int>
  {
    Select(PrevOutputs(out), PrevMasks(out))
  }

  /** The LM consumes label 0 first and then exactly the labels emitted before the current step. */
  lemma LmSeesEmittedLabels(out: seq<int>)
    requires |out| > 0
    ensures LmInputs(out) == [InitialOutput] + Emitted(out[..|out| - 1])
  {
    var n := |out| - 1;
    PrevMasksShift(out);
    assert PrevOutputs(out) == [InitialOutput] + out[..n];
    SelectAppend([InitialOutput], [true], out[..n], CurrMasks(out[..n]));
  }

  // ---------------------------------------------------------------------
  // Score vector p_comb_sigma_prime
  // ---------------------------------------------------------------------

  /**
   * `ctc_log_scores` over the V + 1 outputs: `safe_log` of the posteriors
   * or, with prior correction, log posteriors minus the scaled log prior,
   * renormalised by their log-sum-exp.
   */
  function CtcLogScores(x: seq<real>, prior: seq<real>, priorCorrection: bool, priorScale: real,
                        safeLog: real -> real, logSumExp: seq<real> -> real): (r: seq<real>)
    requires priorCorrection ==> |prior| == |x|
    ensures |r| == |x|
  {
    if !priorCorrection then seq(|x|, i requires 0 <= i < |x| => safeLog(x[i]))
    else
      var w := PriorCorrected(x, prior, priorScale, safeLog);
      seq(|w|, i requires 0 <= i < |w| => w[i] - logSumExp(w))
  }

  /** `ctc_log_scores_w_prior` before renormalisation: log posteriors minus the scaled log prior. */
  function PriorCorrected(x: seq<real>, prior: seq<real>, priorScale: real, safeLog: real -> real): (w: seq<real>)
    requires |prior| == |x|
    ensures |w| == |x|
  {
    seq(|x|, i requires 0 <= i < |x| => safeLog(x[i]) - priorScale * prior[i])
  }

  /** CTC label scores without blank, renormalised over the V labels (`ctc_log_scores_renorm`). */
  function CtcLabelScores(ctcLog: seq<real>, logSumExp: seq<real> -> real): (r: seq<real>)
    requires |ctcLog| == V + 1
    ensures |r| == V
  {
    var labels := ctcLog[..V];
    seq(V, v requires 0 <= v < V => labels[v] - logSumExp(labels))
  }

  /**
   * `combined_att_ctc_scores`: for every label the sum of the scaled CTC,
   * attention and LM log scores, each present only when enabled; there is
   * nothing to add when none is enabled.
   */
  function CombinedScores(ctcLog: seq<real>, pAtt: seq<real>, pLm: seq<real>,
                          ctcScale: real, addAtt: bool, attScale: real, addLm: bool, lmScale: real,
                          safeLog: real -> real, logSumExp: seq<real> -> real): (r: Option<seq<real>>)
    requires |ctcLog| == V + 1 && |pAtt| == V && |pLm| == V
    ensures r.Some? <==> (ctcScale > 0.0 || addAtt || addLm)
    ensures r.Some? ==> |r.value| == V
  {
    if !(ctcScale > 0.0 || addAtt || addLm) then None
    else
      var ctc := CtcLabelScores(ctcLog, logSumExp);
      Some(seq(V, v requires 0 <= v < V =>
                 (if ctcScale > 0.0 then ctcScale * ctc[v] else 0.0)
                 + (if addAtt then attScale * safeLog(pAtt[v]) else 0.0)
                 + (if addLm then lmScale * safeLog(pLm[v]) else 0.0)))
  }

  /** `repeat_prob_term`: P_ctc(prev label), or 0 after a blank. */
  function RepeatTerm(ctcLog: seq<real>, prevOut: int, safeExp: real -> real): real
    requires |ctcLog| == V + 1 && 0 <= prevOut <= Blank
  {
    if prevOut != Blank then safeExp(1.0 * ctcLog[prevOut]) else 0.0
  }

  /**
   * `p_comb_sigma_prime` ([V + 1]): for a label v < V, the repeat branch
   * `log P_ctc(v) - repeat_prob_scale` when v is the previous output, else
   * `log(1 - P_ctc(blank) - repeat_term) + combined[v]`; last slot
   * `log P_ctc(blank) - blank_prob_scale`.  `ctcLog` is `ctc_log_scores`,
   * `blankProb` the blank entry of the raw posteriors, `combined` the
   * output of `combined_att_ctc_scores`.
   */
  function ScoreVector(ctcLog: seq<real>, combined: seq<real>, blankProb: real, prevOut: int,
                       repeatProbScale: real, blankProbScale: real,
                       safeLog: real -> real, safeExp: real -> real): (r: seq<real>)
    requires |ctcLog| == V + 1 && |combined| == V && 0 <= prevOut <= Blank
    ensures |r| == V + 1
  {
    var oneMinusTermLog := safeLog(1.0 - blankProb - RepeatTerm(ctcLog, prevOut, safeExp));
    seq(V, v requires 0 <= v < V =>
          if v == prevOut then ctcLog[v] - repeatProbScale else oneMinusTermLog + combined[v])
      + [ctcLog[Blank] - blankProbScale]
  }

  /** `prev_repeat_mask`: which labels take the repeat branch. */
  function RepeatMask(prevOut: int): (m: seq<bool>)
    ensures |m| == V
  {
    seq(V, v requires 0 <= v < V => v == prevOut)
  }

  lemma {:induction false} CountEqualsMask(n: nat, p: int)
    ensures CountTrue(seq(n, v requires 0 <= v < n => v == p)) == (if 0 <= p < n then 1 else 0)
    decreases n
  {
    if n > 0 {
      var m := seq(n, v requires 0 <= v < n => v == p);
      assert m[..n - 1] == seq(n - 1, v requires 0 <= v < n - 1 => v == p);
      CountEqualsMask(n - 1, p);
    }
  }

  /** At most one label takes the repeat branch, and none after a blank. */
  lemma RepeatBranchAtMostOne(prevOut: int)
    requires 0 <= prevOut <= Blank
    ensures CountTrue(RepeatMask(prevOut)) == (if prevOut == Blank then 0 else 1)
  {
    CountEqualsMask(V, prevOut);
  }

  /** The score vector's layout, slot by slot, in terms of the repeat mask. */
  lemma ScoreVectorLayout(ctcLog: seq<real>, combined: seq<real>, blankProb: real, prevOut: int,
                          rps: real, bps: real, safeLog: real -> real, safeExp: real -> real)
    requires |ctcLog| == V + 1 && |combined| == V && 0 <= prevOut <= Blank
    ensures var r := ScoreVector(ctcLog, combined, blankProb, prevOut, rps, bps, safeLog, safeExp);
            && r[V] == ctcLog[Blank] - bps
            && (forall v :: 0 <= v < V && RepeatMask(prevOut)[v] ==> r[v] == ctcLog[v] - rps)
            && (forall v :: 0 <= v < V && !RepeatMask(prevOut)[v] ==>
                  r[v] == safeLog(1.0 - blankProb - RepeatTerm(ctcLog, prevOut, safeExp)) + combined[v])
            && (prevOut == Blank ==>
                  RepeatTerm(ctcLog, prevOut, safeExp) == 0.0 &&
                  forall v :: 0 <= v < V ==> r[v] == safeLog(1.0 - blankProb) + combined[v])
  {
  }

  // ---------------------------------------------------------------------
  // EOS-to-blank remap of the CTC posteriors
  // ---------------------------------------------------------------------

  /** EOS (index 0) is emptied and its mass moved onto blank; the rest is unchanged. */
  function RemoveEos(x: seq<real>): (r: seq<real>)
    requires |x| == V + 1
    ensures |r| == |x|
  {
    seq(V + 1, i requires 0 <= i < V + 1 => if i == 0 then 0.0 else if i < V then x[i] else x[V] + x[0])
  }

  lemma RemoveEosSplit(x: seq<real>)
    requires |x| == V + 1
    ensures RemoveEos(x) == [0.0] + x[1..V] + [x[V] + x[0]]
  {
    var r := RemoveEos(x);
    var s := [0.0] + x[1..V] + [x[V] + x[0]];
    assert |s| == |r|;
    forall i | 0 <= i < |r|
      ensures r[i] == s[i]
    {
      if 0 < i < V {
        assert s[i] == x[1..V][i - 1];
      }
    }
  }

  /** Moving EOS onto blank preserves the total mass. */
  lemma RemoveEosPreservesSum(x: seq<real>)
    requires |x| == V + 1
    ensures SumReal(RemoveEos(x)) == SumReal(x)
  {
    var mid := x[1..V];
    RemoveEosSplit(x);
    assert x == [x[0]] + mid + [x[V]];
    SumRealAppend([0.0] + mid, [x[V] + x[0]]);
    SumRealAppend([0.0], mid);
    SumRealAppend([x[0]] + mid, [x[V]]);
    SumRealAppend([x[0]], mid);
    assert SumReal([0.0]) == 0.0;
    assert SumReal([x[0]]) == x[0];
    assert SumReal([x[V]]) == x[V];
    assert SumReal([x[V] + x[0]]) == x[V] + x[0];
  }
}
