# Verified model of i6_experiments: CTC decoder builder, experiment scheduling, RNN-T and aux-loss CTC steps

This project models four pieces of the i6_experiments repository (RWTH i6 speech-recognition
setups) in Dafny and proves their rules:

- the label-synchronous CTC decoder builder `CTCDecoder`:
  - which RETURNN layers it inserts into the base network, the recurrent unit and its subnetworks;
  - the per-frame semantics those layers declare: best-path collapse, the `curr_mask`/`prev_mask`
    emission masks, state gating, the score-vector layout and the EOS-to-blank remap;
- the decision rules of the TED-LIUM 2 attention baseline script (`ted2_att_baseline.py`):
  - recognition epochs, the LM/prior scale grid and its filter, search requirements and
    checkpoint selection, run names;
  - the mini-LSTM/FFN ILM wiring, the learning-rate schedules, and the checkpoint registries the
    scheduling closures update;
- the sequence logic of the RNN-T training step (`i6modelsV1_VGG4LayerActFrontendV1_v6_transparent.py`):
  - the length mask, the predictor and joiner pass-through and the joiner's activation check;
  - the blank-prepended targets, the loss arguments and the prior frame counter;
- the auxiliary-loss conformer CTC model (`conformer_ctc_..._with_aux_loss.py`):
  - key sorting, which encoder blocks are tapped and which output recognition uses;
  - loss naming and scaling, and `get_serializer` with its shadowed definitions.

Layout (one module per file):

| file | module | what it holds |
|---|---|---|
| `common.dfy` | `Common` | `Option`, `Result`, the Python exceptions as `PyError`, sums, decimal rendering, selection by a mask |
| `py_values.dfy` | `PyValues` | Python values of the configurations (dicts, config objects, checkpoints), truthiness, `setattr`/`getattr` |
| `returnn_net.dfy` | `ReturnnNet` | a RETURNN layer as a datatype, `ReturnnNetwork` as a class, a per-frame evaluator of the layer classes the decoder uses |
| `ctc_semantics.dfy` | `CtcSemantics` | collapse, masks, gating, score vector, EOS remap as sequence functions |
| `ctc_layers.dfy` | `CtcLayers` | the layer tables the builder writes, and lemmas that evaluate them to the semantics |
| `ctc_unit.dfy` | `CtcUnit` | what one frame of a fused unit computes: the score layers evaluated to the score vector, and the attention subnetwork's hold switches evaluated to the gated states |
| `ctc_decoder.dfy` | `CtcDecoder` | the `CTCDecoder` class: its `add_*` methods, `get_lm_subnet_unit`, `remove_eos_from_ctc_logits`, `create_network` |
| `ted2_schedule.dfy` | `Ted2Schedule` | the scheduling rules, the `Experiments` class (global registries, LM tables) and its loops |
| `rnnt_steps.dfy` | `RnntSteps` | mask, predictor, joiner, model forward, `train_step` (filling an `array2`), the prior context class |
| `aux_loss.dfy` | `AuxLoss` | key sort, encoder tapping, model forward, `train_step`, serializer dispatch |

Floating-point values are Dafny `real`s or uninterpreted function parameters, as follows:
- `safe_log`, `safe_exp` and log-sum-exp are function parameters.
- Torch modules (conformer blocks, LSTMs, linear layers) are function fields of datatypes.
- `str()` of a float is a parameter.

## Model

Paths are relative to the repository root.

| member | source | states |
|---|---|---|
| CtcSemantics.CollapseIsCtcCollapse | users/gaudino/models/asr/decoder/ctc_decoder.py:994-1041 | on a best path, the collapse layers keep frame t iff it is not blank 10025 and differs from frame t-1 (frame 0 compared with pad -1), which equals merging repeats then deleting blanks |
| CtcSemantics.SelectEmitIsMergeThenRemove | users/gaudino/models/asr/decoder/ctc_decoder.py:994-1041 | the one-pass emission-mask selection equals merge-repeats-then-remove-blanks for any predecessor other than the first label |
| CtcSemantics.CollapseProperties | users/gaudino/models/asr/decoder/ctc_decoder.py:994-1041 | the collapse holds no blank, is a subsequence of the path, and its length is the number of emitting frames, at most the path length |
| CtcSemantics.EmittedVersusCollapse | users/gaudino/models/asr/decoder/ctc_decoder.py:360-392 | the labels `curr_mask` hands on equal the collapse, except that a leading label 0 is kept by the collapse (pad -1) but not by `curr_mask` (initial output 0) |
| CtcSemantics.CurrMaskCount | users/gaudino/models/asr/decoder/ctc_decoder.py:360-392 | the number of true `curr_mask` steps is the collapse length, minus one when the path starts with label 0 |
| CtcSemantics.PrevMasksShift | users/gaudino/models/asr/decoder/ctc_decoder.py:385-391 | `prev_mask` is `curr_mask` delayed one step, true at the first step |
| CtcSemantics.CurrMasksPrefix | users/gaudino/models/asr/decoder/ctc_decoder.py:360-392 | the masks of a prefix of the output are the prefix of the masks (they depend only on the past) |
| CtcSemantics.DecoderStateGating | users/gaudino/models/asr/decoder/ctc_decoder.py:124-153 | the decoder state takes its new candidate exactly at steps where `prev_mask` holds, otherwise repeats its previous value |
| CtcSemantics.LmSeesEmittedLabels | users/gaudino/models/asr/decoder/ctc_decoder.py:856-866 | the external LM under `prev_mask` consumes label 0 and then exactly the labels emitted before the current step |
| CtcUnit.EvalCtcLogScores | users/gaudino/models/asr/decoder/ctc_decoder.py:394-455 | at every frame `ctc_log_scores` evaluates to `safe_log` of the posteriors or, with prior correction, to log posterior minus prior_scale times log prior, renormalised by their log-sum-exp (`CtcLogScores`) |
| CtcUnit.EvalLabelScores | users/gaudino/models/asr/decoder/ctc_decoder.py:534-553 | `ctc_log_scores_renorm` evaluates to the V label scores without blank, renormalised by their log-sum-exp (`CtcLabelScores`) |
| CtcUnit.EvalCombined | users/gaudino/models/asr/decoder/ctc_decoder.py:457-565 | `combined_att_ctc_scores` evaluates to the sum of the enabled terms ctc_scale times the label scores, att_scale times log p_att and lm_scale times log p_lm, and to no value when none is enabled (`CombinedScores`) |
| CtcUnit.EvalRepeatProbTerm | users/gaudino/models/asr/decoder/ctc_decoder.py:593-616 | `repeat_prob_term` evaluates to P_ctc of the previous output label, and to 0 after a blank |
| CtcUnit.EvalNewLabelBranch | users/gaudino/models/asr/decoder/ctc_decoder.py:572-637 | `p_comb_sigma_prime_label` evaluates to log(1 - P_ctc(blank) - repeat_prob_term) plus the combined score of each label |
| CtcUnit.EvalLabelScore | users/gaudino/models/asr/decoder/ctc_decoder.py:638-650 | `scaled_label_score` takes the repeat branch (CTC score less repeat_prob_scale) at the previous output and the new-label branch at every other label |
| CtcUnit.ScoreLayersComputeScoreVector | users/gaudino/models/asr/decoder/ctc_decoder.py:572-654 | wherever the score tables hold, `p_comb_sigma_prime` evaluates frame by frame to `ScoreVector` of the frame's CTC scores, combined scores, blank posterior and previous output, or to no value when nothing is combined |
| CtcUnit.AttStatesGated | users/gaudino/models/asr/decoder/ctc_decoder.py:63-153 | in the attention subnetwork reading the unit's `prev_mask`, `s`, `s_c`, `s_h` and `accum_att_weights` evaluate to `DecoderStates`: each takes its new candidate exactly at steps where `prev_mask` holds |
| CtcUnit.TargetEmbedGated | users/gaudino/models/asr/decoder/ctc_decoder.py:39-44 | in the attention subnetwork reading the unit's `curr_mask`, `target_embed` evaluates to `TargetEmbeds`: it takes the embedding of a label exactly at the step that emits it |
| CtcUnit.PrevMaskSwitches | users/gaudino/models/asr/decoder/ctc_decoder.py:63-153 | `accum_att_weights`, `s`, `s_c` and `s_h` are hold switches on `base:prev_mask` in the attention subnetwork: no later layer redefines them |
| CtcUnit.TargetEmbedSwitch | users/gaudino/models/asr/decoder/ctc_decoder.py:39-44 | `target_embed` is a hold switch on `base:curr_mask` in the attention subnetwork |
| CtcSemantics.RepeatBranchAtMostOne | users/gaudino/models/asr/decoder/ctc_decoder.py:572-654 | exactly one label takes the repeat branch after a label, none after a blank |
| CtcSemantics.RemoveEosPreservesSum | users/gaudino/models/asr/decoder/ctc_decoder.py:937-972 | moving EOS onto blank preserves the total mass |
| CtcLayers.MaskLayersComputeMasks | users/gaudino/models/asr/decoder/ctc_decoder.py:360-392 | evaluated frame by frame, the `add_masks` layers compute `curr_mask` and `prev_mask` as defined by the emission rule |
| CtcLayers.EvalCurrMask | users/gaudino/models/asr/decoder/ctc_decoder.py:362-384 | `curr_mask` at step t is output[t] != 10025 and output[t] != prev:output[t] |
| CtcLayers.EvalPrevMask | users/gaudino/models/asr/decoder/ctc_decoder.py:385-391 | `prev_mask` at step t is `curr_mask` at t-1, true at the first step |
| CtcLayers.EvalNotRepeatMask | users/gaudino/models/asr/decoder/ctc_decoder.py:362-372 | `not_repeat_mask` compares the output with the previous output |
| CtcLayers.EvalCurrNotBlankMask | users/gaudino/models/asr/decoder/ctc_decoder.py:373-379 | `is_curr_out_not_blank_mask` tests the output against blank 10025 |
| CtcLayers.EvalOutBestMask | users/gaudino/models/asr/decoder/ctc_decoder.py:1008-1034 | `out_best_mask` is the emission test of frame t against the shifted path (pad -1) |
| CtcLayers.EvalShiftRight | users/gaudino/models/asr/decoder/ctc_decoder.py:1008-1016 | `shift_right` yields -1 at frame 0 and the previous label afterwards |
| CtcLayers.FilterLayersComputeCollapse | users/gaudino/models/asr/decoder/ctc_decoder.py:994-1049 | `out_best_wo_blank` yields exactly the CTC collapse of the decided path |
| CtcLayers.EosRemapLayersCompute | users/gaudino/models/asr/decoder/ctc_decoder.py:937-966 | `ctc_no_eos` evaluates to the EOS-remapped posteriors, whose total equals the input's |
| CtcLayers.EvalBlankPlusEos | users/gaudino/models/asr/decoder/ctc_decoder.py:955-960 | `ctc_blank_plus_eos` is x[10025] + x[0] |
| CtcDecoder.RewireLm | users/gaudino/models/asr/decoder/ctc_decoder.py:823-831 | for `lstm` the subnet's `input` and for `trafo` its `target_embed_raw` reads `base:prev_output_reinterpret`; other types leave it unchanged; a missing entry or non-dict subnet fails |
| CtcDecoder.LmSubnetUnit | users/gaudino/models/asr/decoder/ctc_decoder.py:820-844 | succeeds iff the subnet is present and rewirable and either `lm_model` is truthy or `load_on_init_opts` with `filename` exists; loads `lm_model` when truthy, else those options; missing `lm_subnet` raises KeyError |
| CtcDecoder.Decoder.constructor | users/gaudino/models/asr/decoder/ctc_decoder.py:190-339 | a new decoder over the base network, with fresh empty output network and unit, `ctc_source` from the arguments, no decoder output or decision layer yet |
| CtcDecoder.Decoder.AddNormLayer | users/gaudino/models/asr/decoder/ctc_decoder.py:341-358 | adds the log-sum-exp and renormalised layers and returns the renormalised name |
| CtcDecoder.Decoder.AddMasks | users/gaudino/models/asr/decoder/ctc_decoder.py:360-392 | merges the mask layers into the unit and changes nothing else |
| CtcDecoder.Decoder.AddCtcScores | users/gaudino/models/asr/decoder/ctc_decoder.py:394-455 | merges the CTC score layers (prior-corrected when configured) into the unit |
| CtcDecoder.Decoder.AddModelScores | users/gaudino/models/asr/decoder/ctc_decoder.py:457-500 | returns `combine_list`: `scaled_ctc_log_scores` iff ctc_scale > 0, `scaled_att_log_scores` iff attention fusion, `scaled_lm_log_scores` iff LM fusion, in that order |
| CtcDecoder.Decoder.AddScoreCombination | users/gaudino/models/asr/decoder/ctc_decoder.py:457-728 | the unit afterwards is the old unit merged with the full score-combination table |
| CtcDecoder.ScoreCombinationOutput | users/gaudino/models/asr/decoder/ctc_decoder.py:655-728 | after the score combination, `output` is the choice over `p_comb_sigma_prime`, or over `p_comb_sigma_prime_w_eos` when `remove_eos` is set, with initial output 0, and `prev_output_reinterpret` reads `prev:output` as a label index |
| CtcDecoder.Decoder.AddRecOutput | users/gaudino/models/asr/decoder/ctc_decoder.py:813-816 | sets `output` of the decoder network to the recurrent layer over the unit reading `ctc_source` |
| CtcDecoder.Decoder.AddGreedyDecoder | users/gaudino/models/asr/decoder/ctc_decoder.py:730-818 | writes the greedy unit and the recurrent `output` layer and returns `output` |
| CtcDecoder.GreedyUnitChoice | users/gaudino/models/asr/decoder/ctc_decoder.py:730-810 | the greedy choice reads the blank-penalised scores if blank_prob_scale > 0, else the prior-corrected scores with prior correction, else the posteriors; beam 1 with length normalisation, else 2 |
| CtcDecoder.Decoder.GetLmSubnetUnit | users/gaudino/models/asr/decoder/ctc_decoder.py:820-844 | returns the LM subnet unit or its error; rewires `ext_lm_opts` in place exactly as far as the source gets before failing |
| CtcDecoder.Decoder.AddGreedyWithExtLmDecoder | users/gaudino/models/asr/decoder/ctc_decoder.py:846-883 | succeeds iff the LM unit can be built; on failure the unit holds the CTC scores and masks only; on success the fused LM unit and the `output` layer |
| CtcDecoder.Decoder.AddGreedyDecoderWithAtt | users/gaudino/models/asr/decoder/ctc_decoder.py:885-900 | writes the attention-fused unit and the recurrent `output` layer |
| CtcDecoder.Decoder.AddGreedyDecoderWithLmAndAtt | users/gaudino/models/asr/decoder/ctc_decoder.py:902-935 | like the LM decoder, with the attention decoder dict before the LM entries |
| CtcDecoder.FusedUnitLayers | users/gaudino/models/asr/decoder/ctc_decoder.py:846-935 | in every fused unit the mask layers keep their definitions, `output` is the choice over `p_comb_sigma_prime`, or over `p_comb_sigma_prime_w_eos` when `remove_eos` is set, and `prev_output_reinterpret` reads `prev:output` |
| CtcDecoder.FusedUnitMasks | users/gaudino/models/asr/decoder/ctc_decoder.py:846-935 | in every fused unit, `curr_mask` and `prev_mask` evaluate to the CTC emission masks of the decided labels |
| CtcDecoder.FusedScoreTables | users/gaudino/models/asr/decoder/ctc_decoder.py:846-935 | in every fused unit each score table the source writes is present as written, with the attention and LM terms reading `trigg_att` and `lm_output_prob` |
| CtcDecoder.FusedUnitScores | users/gaudino/models/asr/decoder/ctc_decoder.py:846-935 | in the unit `create_network` builds for a fused decoder, a combined score exists and `p_comb_sigma_prime` is the score vector of each frame |
| CtcDecoder.FusedAttSubnet | users/gaudino/models/asr/decoder/ctc_decoder.py:885-935 | with attention fused, `trigg_att` is the attention subnetwork and the unit computes the masks, so `AttStatesGated` and `TargetEmbedGated` apply to it |
| CtcDecoder.LmReadsEmittedLabels | users/gaudino/models/asr/decoder/ctc_decoder.py:856-866 | a computation masked by `prev_mask` over `prev_output_reinterpret` reads exactly `LmInputs` of the decided output |
| CtcDecoder.FusedLmInputs | users/gaudino/models/asr/decoder/ctc_decoder.py:846-935 | with the LM fused, `lm_output` runs the LM unit under `prev_mask`, and the labels it reads are label 0 followed by the labels emitted before each step |
| CtcDecoder.MiddlesAvoidMasks | users/gaudino/models/asr/decoder/ctc_decoder.py:5-181 | neither the attention decoder dict nor the LM entries redefine a mask layer |
| CtcDecoder.AddEosRemapLayers | users/gaudino/models/asr/decoder/ctc_decoder.py:939-961 | the three slices, `zeros`, `ctc_blank_plus_eos` and `ctc_no_eos` written one by one leave the network as the old one merged with the remap table |
| CtcDecoder.Decoder.RemoveEosFromCtcLogits | users/gaudino/models/asr/decoder/ctc_decoder.py:937-972 | adds the remap layers to the base network and sets `ctc_source` to `ctc_no_eos_postfix_in_time` when attention or LM fusion is on, else `ctc_no_eos` |
| CtcDecoder.BaseNetworkRemovesEos | users/gaudino/models/asr/decoder/ctc_decoder.py:937-992 | after `create_network` with `remove_eos`, the base network's `ctc_no_eos` is the EOS-remapped posteriors with the same total |
| CtcDecoder.EosRemapAvoidsBase | users/gaudino/models/asr/decoder/ctc_decoder.py:937-992 | nothing the base network receives after the remap reuses a remap layer's name |
| CtcDecoder.Decoder.AddEncOutputForAtt | users/gaudino/models/asr/decoder/ctc_decoder.py:1051-1062 | fails with ZeroDivisionError iff there are no attention heads (after writing `enc_ctx`); otherwise adds the attention inputs |
| CtcDecoder.Decoder.AddFilterBlankAndMergeLabelsLayers | users/gaudino/models/asr/decoder/ctc_decoder.py:994-1049 | merges the collapse layers into the given network |
| CtcDecoder.Decoder.AddDecoder | users/gaudino/models/asr/decoder/ctc_decoder.py:974-988 | runs exactly the builder chosen by (`add_ext_lm`, `add_att_dec`) and ends as `CreateOutcome` says |
| CtcDecoder.Decoder.CreateNetwork | users/gaudino/models/asr/decoder/ctc_decoder.py:974-992 | runs the EOS removal first when configured, then one builder and the collapse layers; on success `decision_layer_name` is `out_best_wo_blank` and the decoder output is set |
| CtcDecoder.BaseNetworkCollapse | users/gaudino/models/asr/decoder/ctc_decoder.py:974-1049 | after `create_network`, `out_best_wo_blank` of the base network is the CTC collapse of the decided path |
| ReturnnNet.Network.Update | users/gaudino/models/asr/decoder/ctc_decoder.py:360-392 | `subnet_unit.update(d)`: later keys overwrite, everything else kept |
| ReturnnNet.GatedIsLastUpdate | users/gaudino/models/asr/decoder/ctc_decoder.py:124-153 | a hold `switch` holds the candidate of the last step whose condition held, else its initial value |
| ReturnnNet.GatedStep | users/gaudino/models/asr/decoder/ctc_decoder.py:39-44 | one step of a hold switch: the candidate when the condition holds, else the previous value |
| ReturnnNet.GatedValues | users/gaudino/models/asr/decoder/ctc_decoder.py:63-69 | every value a hold switch takes is its initial value or one of its candidates |
| ReturnnNet.HoldSwitchUnrolls | users/gaudino/models/asr/decoder/ctc_decoder.py:124-153 | frame by frame a `switch` with `false_from` its own previous value computes the gated sequence from zeros |
| ReturnnNet.EvalSwitch | users/gaudino/models/asr/decoder/ctc_decoder.py:39-44 | a switch layer evaluates to the selection of its condition and branches |
| ReturnnNet.LastTrue | users/gaudino/models/asr/decoder/ctc_decoder.py:124-153 | the position found is the last true condition at or before t, and none exists when it returns none |
| PyValues.SetAttr | users/zeineldeen/experiments/conformer_att_2023/tedlium2/configs/ted2_att_baseline.py:863-866 | `args[key].attr = v` succeeds iff the entry is a config object, sets that one attribute, and raises KeyError for a missing key |
| PyValues.SetAttrs | users/zeineldeen/experiments/conformer_att_2023/tedlium2/configs/ted2_att_baseline.py:332-334 | the decoder-argument overrides set every given attribute, keep the object's class and all other entries, and change nothing for no overrides |
| PyValues.GetAttr | users/zeineldeen/experiments/conformer_att_2023/tedlium2/configs/ted2_att_baseline.py:359-363 | reading an attribute succeeds iff the entry is a config object that has it, and yields that attribute |
| Ted2Schedule.DefaultRecogEpochsMembers | users/zeineldeen/experiments/conformer_att_2023/tedlium2/configs/ted2_att_baseline.py:455-461 | the default epochs are exactly 40, the multiples of 80 up to num_epochs, and num_epochs; 1 + n/80 entries plus one when n % 80 != 0; ending with num_epochs |
| Ted2Schedule.DefaultRecogEpochsIncreasing | users/zeineldeen/experiments/conformer_att_2023/tedlium2/configs/ted2_att_baseline.py:455-461 | with more than 40 epochs the default schedule is strictly increasing |
| Ted2Schedule.DefaultRecogEpochsFortyTwice | users/zeineldeen/experiments/conformer_att_2023/tedlium2/configs/ted2_att_baseline.py:455-461 | with 40 epochs the schedule searches epoch 40 twice |
| Ted2Schedule.OclrListShape | users/zeineldeen/experiments/conformer_att_2023/tedlium2/configs/ted2_att_baseline.py:853-858 | the OCLR list has exactly ep entries, rising from lr/10 to lr over cyc_ep, falling back to lr/10, ending at 1e-6 |
| Ted2Schedule.CycleEpochs | users/zeineldeen/experiments/conformer_att_2023/tedlium2/configs/ted2_att_baseline.py:853 | the cycle length is at most half the epochs, so the annealing part is never negative |
| Ted2Schedule.RetrainLrListShape | users/zeineldeen/experiments/conformer_att_2023/tedlium2/configs/ted2_att_baseline.py:946-948 | the retrain list has 200 entries, holds lr for the first 9, and ends at 1e-6 |
| Ted2Schedule.LinspaceEnds | users/zeineldeen/experiments/conformer_att_2023/tedlium2/configs/ted2_att_baseline.py:856-858 | `numpy.linspace` starts at its first argument and ends at its second |
| Ted2Schedule.BaseV1Args | users/zeineldeen/experiments/conformer_att_2023/tedlium2/configs/ted2_att_baseline.py:843-868 | succeeds iff `oclr_opts` and a dict `pretrain_opts` are present and the encoder and decoder arguments are config objects; a missing key raises KeyError, a non-dict or non-object TypeError; the name matches the f-string |
| Ted2Schedule.BaseV1ArgsKeys | users/zeineldeen/experiments/conformer_att_2023/tedlium2/configs/ted2_att_baseline.py:843-868 | the new arguments drop `oclr_opts`, add the OCLR list, `global_stats` and the pretraining entries, and copy every other key unchanged |
| Ted2Schedule.BaseV1ArgsValues | users/zeineldeen/experiments/conformer_att_2023/tedlium2/configs/ted2_att_baseline.py:843-868 | the OCLR learning rates, `global_stats` from mean and std, `pretrain_reps`, `ignored_keys_for_reduce_dim` in `pretrain_opts`, the three encoder dropouts and `use_zoneout_output` on the decoder are set as written |
| Ted2Schedule.ProductAt | users/zeineldeen/experiments/conformer_att_2023/tedlium2/configs/ted2_att_baseline.py:339-342 | `itertools.product` puts pair (i, j) at index i*|ys|+j |
| Ted2Schedule.GridIndex | users/zeineldeen/experiments/conformer_att_2023/tedlium2/configs/ted2_att_baseline.py:293-342 | without prior scales one run per LM scale, otherwise the full product of LM and prior scales in row-major order |
| Ted2Schedule.SizedArgs | users/zeineldeen/experiments/conformer_att_2023/tedlium2/configs/ted2_att_baseline.py:313-327 | beam set; a truthy `batch_size` kwarg overrides; otherwise trafo gives 4000*160 if beam <= 32 else 2000*160, lstm with beam > 128 gives 4000*160, lstm otherwise keeps the given batch size; all other keys kept |
| Ted2Schedule.SearchSetup | users/zeineldeen/experiments/conformer_att_2023/tedlium2/configs/ted2_att_baseline.py:313-334 | the sized arguments are kept apart from `decoder_args`, whose `length_normalization` is False on request unless a decoder override names it |
| Ted2Schedule.FusionCheckpoint | users/zeineldeen/experiments/conformer_att_2023/tedlium2/configs/ted2_att_baseline.py:301-307 | `avg` selects the averaged registry, `best` the best one (KeyError when absent); another string fails the assertion; an int selects that epoch's checkpoint |
| Ted2Schedule.Setup | users/zeineldeen/experiments/conformer_att_2023/tedlium2/configs/ted2_att_baseline.py:291-327 | succeeds iff the LM type is `lstm` or `trafo` and the test sets are a list (AssertionError otherwise); on success the base arguments are `SearchSetup`'s, the test sets normalised, and the grid, checkpoint, LM table entry and time requirement (2, or 3 if beam > 50, for trafo; a kwarg overrides) as specified |
| Ted2Schedule.PriorArgs | users/zeineldeen/experiments/conformer_att_2023/tedlium2/configs/ted2_att_baseline.py:351-384 | adds the ILM options (scale from the prior unless overridden) and the `prior_lm` preload; a mini-LSTM or FFN prior without its checkpoint fails |
| Ted2Schedule.PairArgsPrior | users/zeineldeen/experiments/conformer_att_2023/tedlium2/configs/ted2_att_baseline.py:350-384 | corrected half of the shared-`search_args` finding: arguments computed from the base for each point carry the LM options with its LM scale, and ILM options exactly when it uses a prior |
| Ted2Schedule.LoopRunsKept | users/zeineldeen/experiments/conformer_att_2023/tedlium2/configs/ted2_att_baseline.py:338-417 | the scale loop runs the kept points in order, each with its own arguments and a name built from its scales; without an error every kept point runs |
| Ted2Schedule.LoopStops | users/zeineldeen/experiments/conformer_att_2023/tedlium2/configs/ted2_att_baseline.py:338-417 | once the scale loop has raised, later points change nothing |
| Ted2Schedule.StalePriorOptions | users/zeineldeen/experiments/conformer_att_2023/tedlium2/configs/ted2_att_baseline.py:336-384 | as written, ILM options set for one grid point remain in the arguments of a later point without a prior |
| Ted2Schedule.EpochSearchesSpec | users/zeineldeen/experiments/conformer_att_2023/tedlium2/configs/ted2_att_baseline.py:467-476 | each listed epoch is searched with its own checkpoint under `/recogs/ep-{ep}`; the loop fails iff some epoch has no checkpoint |
| Ted2Schedule.EpochSearchesStop | users/zeineldeen/experiments/conformer_att_2023/tedlium2/configs/ted2_att_baseline.py:467-476 | once an epoch lacks a checkpoint, later epochs change nothing |
| Ted2Schedule.ScheduleEpochs | users/zeineldeen/experiments/conformer_att_2023/tedlium2/configs/ted2_att_baseline.py:467-476 | the loop schedules exactly the searches the per-epoch specification gives |
| Ted2Schedule.AveragePrefixBeam | users/zeineldeen/experiments/conformer_att_2023/tedlium2/configs/ted2_att_baseline.py:497-501 | the averaged search's prefix carries `_beam-{b}` iff the beam is not 12, followed by the coverage suffix when set |
| Ted2Schedule.SearchPlanShape | users/zeineldeen/experiments/conformer_att_2023/tedlium2/configs/ted2_att_baseline.py:455-510 | without an error: one search per recognition epoch, then last and best (unless only the average runs), ending with the averaged checkpoint under `/average_{n}` |
| Ted2Schedule.Experiments.constructor | users/zeineldeen/experiments/conformer_att_2023/tedlium2/configs/ted2_att_baseline.py:47-106 | empty checkpoint registries; LSTM table for BPE 10k, Transformer tables for 10k and 5k |
| Ted2Schedule.Experiments.RunSearch | users/zeineldeen/experiments/conformer_att_2023/tedlium2/configs/ted2_att_baseline.py:419-510 | the averaged checkpoint is registered iff num_avg == 4, the best always; the LM tables are unchanged; the searches are the plan's |
| Ted2Schedule.Experiments.RunLmFusion | users/zeineldeen/experiments/conformer_att_2023/tedlium2/configs/ted2_att_baseline.py:270-417 | a failed setup runs nothing and changes nothing; otherwise the runs and error are the scale loop's, and the LM table entry ends with the last LM scale visited |
| Ted2Schedule.Experiments.ScaleLoop | users/zeineldeen/experiments/conformer_att_2023/tedlium2/configs/ted2_att_baseline.py:338-417 | the nested loops over test sets and grid points compute the loop specification over their product |
| Ted2Schedule.Experiments.VisitRow | users/zeineldeen/experiments/conformer_att_2023/tedlium2/configs/ted2_att_baseline.py:343-417 | the inner loop over one test set's grid points extends the loop specification by that row |
| Ted2Schedule.Experiments.RunPoint | users/zeineldeen/experiments/conformer_att_2023/tedlium2/configs/ted2_att_baseline.py:344-417 | one grid point: skipped, or run with its arguments and name, and the LM scale written into the table |
| Ted2Schedule.Experiments.SetLmScale | users/zeineldeen/experiments/conformer_att_2023/tedlium2/configs/ted2_att_baseline.py:351-352 | `ext_lm_opts["lm_scale"] = lm_scale` updates the shared table entry of the LM in use and nothing else |
| Ted2Schedule.FfnLayer | users/zeineldeen/experiments/conformer_att_2023/tedlium2/configs/ted2_att_baseline.py:619-625 | FFN layer l exists iff there is an l-th dimension (IndexError otherwise) |
| Ted2Schedule.FfnNameInjective | users/zeineldeen/experiments/conformer_att_2023/tedlium2/configs/ted2_att_baseline.py:619 | `ffn_%02i` names of distinct layers differ |
| Ted2Schedule.FfnAsWrittenReadsInp | users/zeineldeen/experiments/conformer_att_2023/tedlium2/configs/ted2_att_baseline.py:615-626 | as written, every created FFN layer reads `inp` |
| Ted2Schedule.FfnAsWrittenDeadLayer | users/zeineldeen/experiments/conformer_att_2023/tedlium2/configs/ted2_att_baseline.py:613-634 | with two or more FFN layers, nothing reads `ffn_01` as written, while in the chained stack `ffn_02` does |
| Ted2Schedule.FfnStackOk | users/zeineldeen/experiments/conformer_att_2023/tedlium2/configs/ted2_att_baseline.py:618-626 | the FFN stack fails exactly when a dimension is missing |
| Ted2Schedule.FfnStackWiring | users/zeineldeen/experiments/conformer_att_2023/tedlium2/configs/ted2_att_baseline.py:613-626 | the chained stack holds layer l reading its predecessor (the first reads `inp`) and keeps every other unit entry |
| Ted2Schedule.FfnStackChained | users/zeineldeen/experiments/conformer_att_2023/tedlium2/configs/ted2_att_baseline.py:613-634 | in the chained stack every layer but the last feeds the next |
| Ted2Schedule.FreezeString | users/zeineldeen/experiments/conformer_att_2023/tedlium2/configs/ted2_att_baseline.py:574-580 | the freeze string by `w_drop` and `use_ffn`; `ffn_opts` None with both raises TypeError |
| Ted2Schedule.MiniLstmArgs | users/zeineldeen/experiments/conformer_att_2023/tedlium2/configs/ted2_att_baseline.py:582-597 | succeeds iff `encoder_args` is a config object; kwargs override; batch 20000*160, the lr, the freeze string set; other keys kept |
| Ted2Schedule.MiniLstmOutput | users/zeineldeen/experiments/conformer_att_2023/tedlium2/configs/ted2_att_baseline.py:599-651 | `att` has the encoder key dimension and reads `att_lstm` (which reads the decoder input) or the last FFN layer (the input when there are none) |
| Ted2Schedule.TrainMiniLstm | users/zeineldeen/experiments/conformer_att_2023/tedlium2/configs/ted2_att_baseline.py:559-661 | the loop builds exactly the specified plan |
| RnntSteps.MaskTensorRows | users/rossenbach/experiments/rescale/tedlium2_standalone_2023/pytorch_networks/rnnt/conformer_1023/i6modelsV1_VGG4LayerActFrontendV1_v6_transparent.py:31-44 | mask[b][t] iff t < seq_len[b]; trues form a prefix of each row, min(seq_len[b], T) of them |
| RnntSteps.MaskRowCount | users/rossenbach/experiments/rescale/tedlium2_standalone_2023/pytorch_networks/rnnt/conformer_1023/i6modelsV1_VGG4LayerActFrontendV1_v6_transparent.py:31-44 | a mask row has its length clamped to 0..T true entries |
| RnntSteps.RowCountsOfMask | users/rossenbach/experiments/rescale/tedlium2_standalone_2023/pytorch_networks/rnnt/conformer_1023/i6modelsV1_VGG4LayerActFrontendV1_v6_transparent.py:31-44 | the row counts of the mask `mask_tensor` builds (the conformer input mask of line 334) are the lengths clamped to the time axis |
| RnntSteps.LstmStackStates | users/rossenbach/experiments/rescale/tedlium2_standalone_2023/pytorch_networks/rnnt/conformer_1023/i6modelsV1_VGG4LayerActFrontendV1_v6_transparent.py:117-126 | the LSTM stack returns one state per layer, and fails iff a given state list is too short |
| RnntSteps.PredictorPassThrough | users/rossenbach/experiments/rescale/tedlium2_standalone_2023/pytorch_networks/rnnt/conformer_1023/i6modelsV1_VGG4LayerActFrontendV1_v6_transparent.py:85-131 | `Predictor.forward` returns the lengths unchanged and one state entry per LSTM layer |
| RnntSteps.PredictorForward | users/rossenbach/experiments/rescale/tedlium2_standalone_2023/pytorch_networks/rnnt/conformer_1023/i6modelsV1_VGG4LayerActFrontendV1_v6_transparent.py:119-131 | the loop over the layers computes the predictor specification |
| RnntSteps.LstmStackFails | users/rossenbach/experiments/rescale/tedlium2_standalone_2023/pytorch_networks/rnnt/conformer_1023/i6modelsV1_VGG4LayerActFrontendV1_v6_transparent.py:119-126 | a failed layer loop stays failed with more layers |
| RnntSteps.NewJoiner | users/rossenbach/experiments/rescale/tedlium2_standalone_2023/pytorch_networks/rnnt/conformer_1023/i6modelsV1_VGG4LayerActFrontendV1_v6_transparent.py:146-155 | accepts exactly `relu` and `tanh`; any other activation raises ValueError |
| RnntSteps.ModelJoiner | users/rossenbach/experiments/rescale/tedlium2_standalone_2023/pytorch_networks/rnnt/conformer_1023/i6modelsV1_VGG4LayerActFrontendV1_v6_transparent.py:282-286 | the model's joiner outputs label_target_size + 1 and uses no dropout |
| RnntSteps.JoinerForward | users/rossenbach/experiments/rescale/tedlium2_standalone_2023/pytorch_networks/rnnt/conformer_1023/i6modelsV1_VGG4LayerActFrontendV1_v6_transparent.py:157-195 | joint output has shape B x T x U with entry linear(act(src[b][t] + tgt[b][u])) (the output projection after the activation); source and target lengths pass through; mismatched batches raise RuntimeError |
| RnntSteps.ModelForwardLengths | users/rossenbach/experiments/rescale/tedlium2_standalone_2023/pytorch_networks/rnnt/conformer_1023/i6modelsV1_VGG4LayerActFrontendV1_v6_transparent.py:299-352 | the lengths the model returns are the row counts of the encoder's output mask (`out_mask`); for an encoder that hands back its input mask unchanged they are the feature lengths clamped to the time axis |
| RnntSteps.PrependedShape | users/rossenbach/experiments/rescale/tedlium2_standalone_2023/pytorch_networks/rnnt/conformer_1023/i6modelsV1_VGG4LayerActFrontendV1_v6_transparent.py:363-366 | the prepended targets have width N+1, column 0 is the blank `label_target_size`, columns 1..N are the labels |
| RnntSteps.PrependBlank | users/rossenbach/experiments/rescale/tedlium2_standalone_2023/pytorch_networks/rnnt/conformer_1023/i6modelsV1_VGG4LayerActFrontendV1_v6_transparent.py:363-365 | the freshly allocated tensor, filled in place, holds the prepended rows |
| RnntSteps.TrainStepLoss | users/rossenbach/experiments/rescale/tedlium2_standalone_2023/pytorch_networks/rnnt/conformer_1023/i6modelsV1_VGG4LayerActFrontendV1_v6_transparent.py:355-383 | the loss gets the original labels and lengths, the row counts of the encoder's output mask as logit lengths, and the sum of labels_len as normaliser; the model sees the prepended targets |
| RnntSteps.TrainStep | users/rossenbach/experiments/rescale/tedlium2_standalone_2023/pytorch_networks/rnnt/conformer_1023/i6modelsV1_VGG4LayerActFrontendV1_v6_transparent.py:355-383 | the step marks exactly the specified loss |
| RnntSteps.PriorContext.constructor | users/rossenbach/experiments/rescale/tedlium2_standalone_2023/pytorch_networks/rnnt/conformer_1023/i6modelsV1_VGG4LayerActFrontendV1_v6_transparent.py:386-390 | the counter starts at 0 frames and no probabilities |
| RnntSteps.PriorContext.Step | users/rossenbach/experiments/rescale/tedlium2_standalone_2023/pytorch_networks/rnnt/conformer_1023/i6modelsV1_VGG4LayerActFrontendV1_v6_transparent.py:404-418 | the frame counter grows by the batch's total length; the probabilities are set on the first call and summed afterwards; the totals are those of all batches seen |
| RnntSteps.TotalProbsAt | users/rossenbach/experiments/rescale/tedlium2_standalone_2023/pytorch_networks/rnnt/conformer_1023/i6modelsV1_VGG4LayerActFrontendV1_v6_transparent.py:414-418 | entry i of the accumulated probabilities is the sum of entry i over the batches |
| RnntSteps.TotalFramesAppend | users/rossenbach/experiments/rescale/tedlium2_standalone_2023/pytorch_networks/rnnt/conformer_1023/i6modelsV1_VGG4LayerActFrontendV1_v6_transparent.py:414 | the frame total over batches seen in two parts is the sum of both parts' totals |
| AuxLoss.SortByLayerSpec | users/jxu/experiments/ctc/lbs_960/pytorch_networks/baseline/conformer_ctc_d_model_512_num_layers_12_new_frontend_raw_wave_with_aux_loss.py:213 | the sorted aux-loss table is ordered by integer key, holds exactly the given entries, and keeps the table order among equal keys (Python's sort is stable) |
| AuxLoss.DefaultConfigSpec | users/jxu/experiments/ctc/lbs_960/pytorch_networks/baseline/conformer_ctc_d_model_512_num_layers_12_new_frontend_raw_wave_with_aux_loss.py:212-297 | 12 blocks of width 512 with 512//64 = 8 heads, and the aux-loss table sorted stably by key |
| AuxLoss.SortByLayerStable | users/jxu/experiments/ctc/lbs_960/pytorch_networks/baseline/conformer_ctc_d_model_512_num_layers_12_new_frontend_raw_wave_with_aux_loss.py:213 | entries with equal block numbers keep their table order after sorting |
| AuxLoss.TappedMembers | users/jxu/experiments/ctc/lbs_960/pytorch_networks/baseline/conformer_ctc_d_model_512_num_layers_12_new_frontend_raw_wave_with_aux_loss.py:93-101 | block i is collected iff 0 <= i < num_layers and i+1 is a key; collected blocks are in increasing order |
| AuxLoss.TappedCount | users/jxu/experiments/ctc/lbs_960/pytorch_networks/baseline/conformer_ctc_d_model_512_num_layers_12_new_frontend_raw_wave_with_aux_loss.py:93-101 | with distinct keys, the number of collected outputs is the number of keys in 1..num_layers |
| AuxLoss.TappedSortedKeys | users/jxu/experiments/ctc/lbs_960/pytorch_networks/baseline/conformer_ctc_d_model_512_num_layers_12_new_frontend_raw_wave_with_aux_loss.py:93-101 | for sorted keys in 1..num_layers, the k-th collected block is block key_k - 1 |
| AuxLoss.EncoderForward | users/jxu/experiments/ctc/lbs_960/pytorch_networks/baseline/conformer_ctc_d_model_512_num_layers_12_new_frontend_raw_wave_with_aux_loss.py:80-101 | the block loop returns the frontend's mask and exactly the tapped blocks' outputs |
| AuxLoss.LogProbs | users/jxu/experiments/ctc/lbs_960/pytorch_networks/baseline/conformer_ctc_d_model_512_num_layers_12_new_frontend_raw_wave_with_aux_loss.py:144-148 | log-prob i is projection i of collected output i; IndexError iff there are fewer outputs than aux losses |
| AuxLoss.IndexOf | users/jxu/experiments/ctc/lbs_960/pytorch_networks/baseline/conformer_ctc_d_model_512_num_layers_12_new_frontend_raw_wave_with_aux_loss.py:153-154 | `list.index` returns the first position of the value, and raises ValueError iff it is absent |
| AuxLoss.CtcModelForward | users/jxu/experiments/ctc/lbs_960/pytorch_networks/baseline/conformer_ctc_d_model_512_num_layers_12_new_frontend_raw_wave_with_aux_loss.py:126-155 | the forward loops compute the forward specification: training returns all log-probs and the mask, recognition the recog layer's log-probs and the lengths |
| AuxLoss.CtcForwardFails | users/jxu/experiments/ctc/lbs_960/pytorch_networks/baseline/conformer_ctc_d_model_512_num_layers_12_new_frontend_raw_wave_with_aux_loss.py:93-155 | with distinct keys, the forward succeeds iff every key is in 1..num_layers and, for recognition, `recog_num_layer` is a key |
| AuxLoss.CtcForwardSorted | users/jxu/experiments/ctc/lbs_960/pytorch_networks/baseline/conformer_ctc_d_model_512_num_layers_12_new_frontend_raw_wave_with_aux_loss.py:119-155 | for a sorted in-range table, log-prob i projects the output of block key_i; recognition returns the projection of block `recog_num_layer` or raises ValueError when it is not a key |
| AuxLoss.TrainStep | users/jxu/experiments/ctc/lbs_960/pytorch_networks/baseline/conformer_ctc_d_model_512_num_layers_12_new_frontend_raw_wave_with_aux_loss.py:300-334 | propagates a forward error; otherwise marks one loss per aux-loss entry: loss i is named `CTC_{key_i}`, scaled by that key's value, on log-prob i, with lengths counted from the mask and normalised by their total |
| AuxLoss.GetSerializerDispatch | users/jxu/experiments/ctc/lbs_960/pytorch_networks/baseline/conformer_ctc_d_model_512_num_layers_12_new_frontend_raw_wave_with_aux_loss.py:158-408 | the later definitions shadow the earlier: TRAIN imports this module's `train_step`, PRIOR adds the `rf` import, ALIGN and RECOG share the recognition serializer, anything else raises NotImplementedError |

## Left out

- Floating point: the numeric values of `numpy.linspace`, `safe_log`, `safe_exp`, log-sum-exp, softmax and the losses are exact reals or parameters; rounding is not modelled.
- RETURNN and torch: the RETURNN graph engine is modelled only for the layer classes the decoder uses, one frame at a time. Torch modules are function parameters.
- `ReturnnNetwork` (users/zeineldeen/modules/network.py) is not part of this model beyond `update`, item assignment and `get_net`. Its `add_*` helpers are written out as the layer dicts they produce.
- Job graph: `run_single_search`, `search`, `training`, `create_config`, `get_average_checkpoint`, `get_best_checkpoint` and the dataset builders are external. Their calls become returned values (`Run`, `Search`, `MiniLstmPlan`) or checkpoint constructors.
- The contents of the search configs are not modelled, nor are the datasets and the `seq_ordering` keyword.
- `max_seq_len` removal, L2, axis and dropout options of the layer dicts are carried as data but not given semantics.
- Dropout inside `JoinerForward` is not modelled.
- Aliasing of the unit dicts between the decoder's networks is not modelled: each network is its own object.
- The CTC source is an external input of the evaluator.
- `add_greedy_with_ext_lm_decoder` and the LM-and-attention variant write partial updates before an error in `get_lm_subnet_unit`. The model records those up to the point of failure. Partial writes inside the other builders on errors are not modelled.
- RnntSteps.JoinerForward: torch broadcasting of unequal batch sizes is modelled as a RuntimeError rather than a broadcast.
- `prior_step` calls the model without labels, which `Model.forward` requires. The model takes the batch's summed probabilities as given instead of calling the model.
- `prior_finish_hook` (averaging, logging, writing the prior file) is I/O and is left out.
- `ffn_opts` with a missing key is not modelled; `ffn_opts` is a record of its three fields.
- Aux-loss keys are parsed with `int(key)`. The model carries both the key string and its integer, so parse failures are left out.
- The feature extraction and SpecAugment in `ConformerCTCModel.forward`, including its dtype conversion, are left out. The export-mode branch assigns the converted features to the misspelt `queezed_features`, so the conversion has no effect there. `CtcForward` starts from the extracted features and their lengths.
- AuxLoss.TrainStep: the CTC loss's targets, target lengths and blank index are not recorded in `LossMark`; only the inputs the naming, scaling and normalisation depend on are.
- `forward_step` and `export` of the aux-loss module are thin torch/ONNX wrappers and are left out.
- CtcUnit: the attention and LM distributions (`trigg_att`, `lm_output_prob`) and the candidate states of the attention subnetwork (`_s`, `_s_c`, `_s_h`, `_accum_att_weights`, `_target_embed`) are given values of a frame, not evaluated: the evaluator does not model the LSTM, attention and linear layers.
- Ted2Schedule.TrainMiniLstm: builds the corrected, chained FFN stack (`FfnStack`), where the source makes every `ffn_XX` layer read `inp`; the source's wiring is `FfnStackAsWritten` (see Findings).
- MiniLstmSpec: specifies the corrected, chained FFN stack rather than the one the source writes, for the same reason.
- Visit: computes each grid point's arguments from the base arguments, where the source mutates one shared `search_args` (and `decoder_args`) across points; the source's threading is `ThreadedArgs` (see Findings).
- Loop: folds `Visit`, so each point carries only its own ILM options, not those left over from earlier points.
- LoopRunsKept: states the runs with per-point arguments, not the source's leftover options.
- Experiments.RunLmFusion: runs the scale loop with per-point arguments, as `Loop` does.
- Experiments.ScaleLoop: runs the scale loop with per-point arguments, as `Loop` does.
- Experiments.VisitRow: runs one test set's points with per-point arguments, as `Loop` does.
- Experiments.RunPoint: runs one point with arguments computed from the base arguments, not the shared `search_args`.
- EosForcingLayers: with `remove_eos`, the switch `p_comb_sigma_prime_w_eos` (which forces EOS on the last frame via `last_frame`, `ts_eos_prob` and `safe_log`) is carried as a layer table and named by `ScoreSource`, but not evaluated; the score lemmas cover `p_comb_sigma_prime` only.
- TsDiscountLayers: the `use_ts_discount` layers (`n_att_contrib`, `log_ts_discount`, marked as not working in the source) are carried as a layer table but given no semantics.
- AuxLoss.GetSerializerDispatch: the serializers' `model_config` is not carried in `Collection`; only the module path and the imports are.

## Findings

| source | as written | input that shows it | evidently intended | confidence | as-written member | corrected member |
|---|---|---|---|---|---|---|
| users/zeineldeen/experiments/conformer_att_2023/tedlium2/configs/ted2_att_baseline.py:613-634 | every `ffn_XX` layer reads `inp`; only `att` reads the last one | `use_ffn=True`, `ffn_opts` with `num_ffn_layers` 2 and two dims: `ffn_01` is read by no layer | a stack where `ffn_{l+1}` reads `ffn_l`, as the tracked variable `x` suggests | not executed | Ted2Schedule.FfnStackAsWritten (lemma Ted2Schedule.FfnAsWrittenDeadLayer) | Ted2Schedule.FfnStack (lemmas Ted2Schedule.FfnStackWiring, Ted2Schedule.FfnStackChained; used by Ted2Schedule.TrainMiniLstm) |
| users/zeineldeen/experiments/conformer_att_2023/tedlium2/configs/ted2_att_baseline.py:336-384 | `search_args` is shared across grid points, so `prior_lm_opts` and `preload_from_files` set for a point with a prior stay for later points without one | lm_scales [0.3, 0.4], prior_scales [0.0, 0.2]: the point (0.4, 0.0) runs with the ILM options of (0.3, 0.2) while its name has no prior | each point's arguments computed from the arguments before the loop | not executed | Ted2Schedule.ThreadedArgs (lemma Ted2Schedule.StalePriorOptions) | Ted2Schedule.PairArgs from the base arguments (used by Ted2Schedule.Loop, Ted2Schedule.Experiments.RunPoint; lemma Ted2Schedule.PairArgsPrior) |
