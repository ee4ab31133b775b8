/**
 * A conformer CTC model trained with auxiliary CTC losses on intermediate
 * encoder blocks: which blocks are tapped, how the projections and log
 * probabilities line up with the aux-loss table, which output recognition
 * uses, the losses the training step marks, the configuration's key sort,
 * and which serializer definitions `get_serializer` reaches. The torch
 * modules (frontend, conformer blocks, projections, CTC loss) are function
 * parameters.
 */
module AuxLoss {
  import opened Common

  // ---------------------------------------------------------------------
  // The aux-loss table and its sort
  // ---------------------------------------------------------------------

  /**
   * One `aux_losses` entry: the key as written (e.g. `"4"`), its integer
   * value `int(key)` (the 1-based block number), and the loss scale.
   */
  datatype AuxEntry = AuxEntry(key: string, layer: int, scale: real)

  /** The block numbers of the table, in table order. */
  function Layers(aux: seq<AuxEntry>): (ls: seq<int>)
    ensures |ls| == |aux| && forall i :: 0 <= i < |aux| ==> ls[i] == aux[i].layer
  {
    seq(|aux|, i requires 0 <= i < |aux| => aux[i].layer)
  }

  predicate SortedByLayer(aux: seq<AuxEntry>)
  {
    forall i, j :: 0 <= i < j < |aux| ==> aux[i].layer <= aux[j].layer
  }

  /** Insert `e` into a table sorted by layer, before the entries of equal layer. */
  function Insert(e: AuxEntry, sorted: seq<AuxEntry>): (r: seq<AuxEntry>)
    decreases |sorted|
  {
    if sorted == [] then [e]
    else if e.layer <= sorted[0].layer then [e] + sorted
    else [sorted[0]] + Insert(e, sorted[1..])
  }

  /** `sorted(aux_losses.items(), key=lambda x: int(x[0]))`. */
  function SortByLayer(aux: seq<AuxEntry>): seq<AuxEntry>
    decreases |aux|
  {
    if aux == [] then [] else Insert(aux[0], SortByLayer(aux[1..]))
  }

  /** Inserting keeps exactly the entries plus `e`. */
  lemma {:induction false} InsertPermutes(e: AuxEntry, sorted: seq<AuxEntry>)
    ensures multiset(Insert(e, sorted)) == multiset(sorted) + multiset{e}
    decreases |sorted|
  {
    if sorted != [] && e.layer > sorted[0].layer {
      InsertPermutes(e, sorted[1..]);
      assert sorted == [sorted[0]] + sorted[1..];
    }
  }

  /** A lower bound of `e` and of every entry bounds the result of inserting. */
  lemma {:induction false} InsertBound(e: AuxEntry, sorted: seq<AuxEntry>, b: int)
    requires e.layer >= b && forall i :: 0 <= i < |sorted| ==> sorted[i].layer >= b
    ensures forall i :: 0 <= i < |Insert(e, sorted)| ==> Insert(e, sorted)[i].layer >= b
    decreases |sorted|
  {
    if sorted != [] && e.layer > sorted[0].layer {
      InsertBound(e, sorted[1..], b);
    }
  }

  lemma {:induction false} InsertSorted(e: AuxEntry, sorted: seq<AuxEntry>)
    requires SortedByLayer(sorted)
    ensures SortedByLayer(Insert(e, sorted))
    decreases |sorted|
  {
    if sorted != [] && e.layer > sorted[0].layer {
      InsertSorted(e, sorted[1..]);
      InsertBound(e, sorted[1..], sorted[0].layer);
    }
  }

  lemma {:induction false} SortByLayerSorted(aux: seq<AuxEntry>)
    ensures SortedByLayer(SortByLayer(aux))
    decreases |aux|
  {
    if aux != [] {
      SortByLayerSorted(aux[1..]);
      InsertSorted(aux[0], SortByLayer(aux[1..]));
    }
  }

  lemma {:induction false} SortByLayerPermutes(aux: seq<AuxEntry>)
    ensures multiset(SortByLayer(aux)) == multiset(aux)
    decreases |aux|
  {
    if aux != [] {
      SortByLayerPermutes(aux[1..]);
      InsertPermutes(aux[0], SortByLayer(aux[1..]));
      assert aux == [aux[0]] + aux[1..];
    }
  }

  /** The entries of block number `layer`, in table order. */
  function WithLayer(aux: seq<AuxEntry>, layer: int): seq<AuxEntry>
    decreases |aux|
  {
    if aux == [] then [] else (if aux[0].layer == layer then [aux[0]] else []) + WithLayer(aux[1..], layer)
  }

  lemma {:induction false} WithLayerAppend(a: seq<AuxEntry>, b: seq<AuxEntry>, layer: int)
    ensures WithLayer(a + b, layer) == WithLayer(a, layer) + WithLayer(b, layer)
    decreases |a|
  {
    if a == [] {
      assert a + b == b;
    } else {
      assert (a + b)[0] == a[0] && (a + b)[1..] == a[1..] + b;
      WithLayerAppend(a[1..], b, layer);
    }
  }

  /** Inserting `e` puts it ahead of the entries of its own block number. */
  lemma {:induction false} InsertWithLayer(e: AuxEntry, sorted: seq<AuxEntry>, layer: int)
    ensures WithLayer(Insert(e, sorted), layer) == WithLayer([e], layer) + WithLayer(sorted, layer)
    decreases |sorted|
  {
    if sorted == [] {
      assert WithLayer([], layer) == [];
    } else if e.layer <= sorted[0].layer {
      WithLayerAppend([e], sorted, layer);
    } else {
      InsertWithLayer(e, sorted[1..], layer);
      WithLayerAppend([sorted[0]], Insert(e, sorted[1..]), layer);
      WithLayerAppend([sorted[0]], sorted[1..], layer);
      assert [sorted[0]] + sorted[1..] == sorted;
      assert WithLayer([e], layer) == [] || WithLayer([sorted[0]], layer) == [];
    }
  }

  /** Entries with equal block numbers keep their table order (Python's sort is stable). */
  lemma {:induction false} SortByLayerStable(aux: seq<AuxEntry>, layer: int)
    ensures WithLayer(SortByLayer(aux), layer) == WithLayer(aux, layer)
    decreases |aux|
  {
    if aux != [] {
      SortByLayerStable(aux[1..], layer);
      InsertWithLayer(aux[0], SortByLayer(aux[1..]), layer);
      WithLayerAppend([aux[0]], aux[1..], layer);
      assert [aux[0]] + aux[1..] == aux;
    }
  }

  /**
   * The sorted table is ordered by block number, holds exactly the given
   * entries, and keeps the table order among entries of one block number.
   */
  lemma SortByLayerSpec(aux: seq<AuxEntry>)
    ensures SortedByLayer(SortByLayer(aux))
    ensures multiset(SortByLayer(aux)) == multiset(aux)
    ensures forall layer :: WithLayer(SortByLayer(aux), layer) == WithLayer(aux, layer)
  {
    SortByLayerSorted(aux);
    SortByLayerPermutes(aux);
    forall layer
      ensures WithLayer(SortByLayer(aux), layer) == WithLayer(aux, layer)
    {
      SortByLayerStable(aux, layer);
    }
  }

  /** The configuration `get_default_config_v1` builds, as far as this model needs it. */
  datatype CtcConfig = CtcConfig(numLayers: nat, dModel: nat, numHeads: nat, targetSize: int,
                                 auxLosses: seq<AuxEntry>, recogNumLayer: int)

  function DefaultConfig(numOutputs: int, auxLosses: seq<AuxEntry>, recogNumLayer: int): CtcConfig
  {
    CtcConfig(12, 512, 512 / 64, numOutputs, SortByLayer(auxLosses), recogNumLayer)
  }

  /**
   * The default configuration has 12 blocks of width 512 with 8 heads,
   * and its aux-loss table is the given one sorted by block number.
   */
  lemma DefaultConfigSpec(numOutputs: int, auxLosses: seq<AuxEntry>, recogNumLayer: int)
    ensures var cfg := DefaultConfig(numOutputs, auxLosses, recogNumLayer);
            && cfg.numLayers == 12 && cfg.dModel == 512 && cfg.numHeads == 8
            && SortedByLayer(cfg.auxLosses) && multiset(cfg.auxLosses) == multiset(auxLosses)
            && (forall layer :: WithLayer(cfg.auxLosses, layer) == WithLayer(auxLosses, layer))
            && cfg.targetSize == numOutputs && cfg.recogNumLayer == recogNumLayer
  {
    SortByLayerSpec(auxLosses);
  }

  // ---------------------------------------------------------------------
  // ConformerEncoderV1.forward: which blocks are tapped
  // ---------------------------------------------------------------------

  /**
   * The torch modules: the frontend (returns the down-sampled frames and
   * mask), conformer block `i`, and projection `i` with its log-softmax.
   */
  datatype CtcNet<!H, !M, !P> = CtcNet(
    frontend: (H, M) -> (H, M),
    block: (nat, H, M) -> H,
    project: (nat, H) -> P)

  /** The frames after the first `n` blocks. */
  function BlockOutput<H, M, P>(net: CtcNet<H, M, P>, x: H, mask: M, n: nat): H
    decreases n
  {
    if n == 0 then x else net.block(n - 1, BlockOutput(net, x, mask, n - 1), mask)
  }

  /** The 0-based indices `i < n` of the blocks whose number `i + 1` is in `layers`, in increasing order. */
  function Tapped(n: nat, layers: seq<int>): seq<nat>
    decreases n
  {
    if n == 0 then [] else Tapped(n - 1, layers) + (if n in layers then [n - 1] else [])
  }

  /** The outputs collected from the tapped blocks. */
  function TappedOutputs<H, M, P>(net: CtcNet<H, M, P>, x: H, mask: M, n: nat, layers: seq<int>): (outs: seq<H>)
    ensures |outs| == |Tapped(n, layers)|
  {
    var t := Tapped(n, layers);
    seq(|t|, k requires 0 <= k < |t| => BlockOutput(net, x, mask, t[k] + 1))
  }

  /**
   * Block `i` is tapped exactly when `i + 1` is a key, and the tapped
   * blocks come in increasing order.
   */
  lemma {:induction false} TappedMembers(n: nat, layers: seq<int>)
    ensures forall i :: i in Tapped(n, layers) <==> 0 <= i < n && i + 1 in layers
    ensures forall a, b :: 0 <= a < b < |Tapped(n, layers)| ==> Tapped(n, layers)[a] < Tapped(n, layers)[b]
    ensures forall a :: 0 <= a < |Tapped(n, layers)| ==> Tapped(n, layers)[a] < n
    decreases n
  {
    if n > 0 {
      TappedMembers(n - 1, layers);
      var pre, t := Tapped(n - 1, layers), Tapped(n, layers);
      assert t == pre + (if n in layers then [n - 1] else []);
      forall i ensures i in t <==> 0 <= i < n && i + 1 in layers {
        if i == n - 1 {
          assert i !in pre;
          assert i in t <==> n in layers;
        } else {
          assert i in t <==> i in pre;
        }
      }
    }
  }

  /** Number of entries of `layers` in `1..n`. */
  function CountInRange(layers: seq<int>, n: nat): nat
    decreases |layers|
  {
    if layers == [] then 0
    else CountInRange(layers[..|layers| - 1], n) + (if 1 <= layers[|layers| - 1] <= n then 1 else 0)
  }

  lemma {:induction false} CountInRangeStep(layers: seq<int>, n: nat)
    requires n > 0
    ensures CountInRange(layers, n) == CountInRange(layers, n - 1) + multiset(layers)[n]
    decreases |layers|
  {
    if layers != [] {
      var pre := layers[..|layers| - 1];
      CountInRangeStep(pre, n);
      assert layers == pre + [layers[|layers| - 1]];
    }
  }

  lemma {:induction false} CountInRangeAll(layers: seq<int>, n: nat)
    ensures CountInRange(layers, n) <= |layers|
    ensures CountInRange(layers, n) == |layers| <==> forall i :: 0 <= i < |layers| ==> 1 <= layers[i] <= n
    decreases |layers|
  {
    if layers != [] {
      CountInRangeAll(layers[..|layers| - 1], n);
    }
  }

  /** No block number occurs twice. */
  predicate Distinct(layers: seq<int>)
  {
    forall i, j :: 0 <= i < j < |layers| ==> layers[i] != layers[j]
  }

  lemma {:induction false} DistinctOnce(layers: seq<int>, x: int)
    requires Distinct(layers)
    ensures multiset(layers)[x] == if x in layers then 1 else 0
    decreases |layers|
  {
    if layers != [] {
      var pre := layers[..|layers| - 1];
      DistinctOnce(pre, x);
      assert layers == pre + [layers[|layers| - 1]];
    }
  }

  /** With distinct block numbers, one block is tapped per key in `1..n`. */
  lemma {:induction false} TappedCount(n: nat, layers: seq<int>)
    requires Distinct(layers)
    ensures |Tapped(n, layers)| == CountInRange(layers, n)
    decreases n
  {
    if n > 0 {
      TappedCount(n - 1, layers);
      CountInRangeStep(layers, n);
      DistinctOnce(layers, n);
    } else {
      assert CountInRange(layers, 0) == 0 by { CountInRangeZero(layers); }
    }
  }

  lemma {:induction false} CountInRangeZero(layers: seq<int>)
    ensures CountInRange(layers, 0) == 0
    decreases |layers|
  {
    if layers != [] {
      CountInRangeZero(layers[..|layers| - 1]);
    }
  }

  /** Strictly increasing block numbers, all in `1..n`. */
  predicate IncreasingIn(layers: seq<int>, n: nat)
  {
    && (forall i, j :: 0 <= i < j < |layers| ==> layers[i] < layers[j])
    && (forall i :: 0 <= i < |layers| ==> 1 <= layers[i] <= n)
  }

  /** When `n` is a key of increasing keys in `1..n`, it is the last key and the others lie in `1..n-1`. */
  lemma LastKey(n: nat, layers: seq<int>)
    requires IncreasingIn(layers, n) && n in layers
    ensures |layers| > 0 && layers[|layers| - 1] == n
    ensures IncreasingIn(layers[..|layers| - 1], n - 1)
    ensures forall x :: 1 <= x < n ==> (x in layers[..|layers| - 1] <==> x in layers)
  {
    var last := |layers| - 1;
    var k :| 0 <= k < |layers| && layers[k] == n;
    assert layers[last] <= n;
    if k < last {
      assert false;
    }
    var pre := layers[..last];
    assert layers == pre + [n];
    forall i | 0 <= i < |pre|
      ensures 1 <= pre[i] <= n - 1
    {
      assert pre[i] == layers[i] < layers[last];
    }
  }

  /**
   * For increasing keys in `1..n` (a sorted table), the `k`-th tapped
   * block is the one numbered by the `k`-th key.
   */
  lemma {:induction false} TappedSortedKeys(n: nat, layers: seq<int>)
    requires IncreasingIn(layers, n)
    ensures |Tapped(n, layers)| == |layers|
    ensures forall k :: 0 <= k < |layers| ==> Tapped(n, layers)[k] == layers[k] - 1
    decreases n
  {
    if n == 0 {
      assert layers == [];
    } else if n in layers {
      var pre := layers[..|layers| - 1];
      LastKey(n, layers);
      TappedSortedKeys(n - 1, pre);
      TappedSame(n - 1, pre, layers);
      assert Tapped(n, layers) == Tapped(n - 1, pre) + [n - 1];
    } else {
      assert IncreasingIn(layers, n - 1);
      TappedSortedKeys(n - 1, layers);
    }
  }

  /** Only the keys in `1..n` matter for the first `n` blocks. */
  lemma {:induction false} TappedSame(n: nat, a: seq<int>, b: seq<int>)
    requires forall x :: 1 <= x <= n ==> (x in a <==> x in b)
    ensures Tapped(n, a) == Tapped(n, b)
    decreases n
  {
    if n > 0 {
      TappedSame(n - 1, a, b);
    }
  }

  /** `ConformerEncoderV1.forward`: the frontend, then every block, collecting the tapped blocks' outputs. */
  method EncoderForward<H, M, P>(net: CtcNet<H, M, P>, numLayers: nat, data: H, mask: M, aux: seq<AuxEntry>)
    returns (outputs: seq<H>, outMask: M)
    ensures outMask == net.frontend(data, mask).1
    ensures outputs == TappedOutputs(net, net.frontend(data, mask).0, outMask, numLayers, Layers(aux))
  {
    var fe := net.frontend(data, mask);
    var x := fe.0;
    outMask := fe.1;
    ghost var x0 := x;
    var indices := seq(|aux|, i requires 0 <= i < |aux| => aux[i].layer - 1);
    outputs := [];
    var i := 0;
    while i < numLayers
      invariant 0 <= i <= numLayers
      invariant x == BlockOutput(net, x0, outMask, i)
      invariant outputs == TappedOutputs(net, x0, outMask, i, Layers(aux))
    {
      x := net.block(i, x, outMask);
      assert (i in indices) <==> (i + 1 in Layers(aux)) by {
        if i in indices {
          var k :| 0 <= k < |aux| && indices[k] == i;
          assert Layers(aux)[k] == i + 1;
        }
        if i + 1 in Layers(aux) {
          var k :| 0 <= k < |aux| && Layers(aux)[k] == i + 1;
          assert indices[k] == i;
        }
      }
      if i in indices {
        outputs := outputs + [x];
      }
      i := i + 1;
    }
  }

  // ---------------------------------------------------------------------
  // ConformerCTCModel.forward
  // ---------------------------------------------------------------------

  /** What the model returns: all log-prob tensors and the mask when training, one tensor and the lengths otherwise. */
  datatype CtcOutput<!M, !P> = TrainOut(logProbs: seq<P>, mask: M) | RecogOut(recog: P, lens: seq<int>)

  /** Projection `i` applied to collected output `i`, one per aux-loss entry. */
  function LogProbs<H, M, P>(net: CtcNet<H, M, P>, outs: seq<H>, count: nat): (r: Result<seq<P>>)
    ensures r.Ok? <==> count <= |outs|
    ensures r.Ok? ==> |r.value| == count && forall i :: 0 <= i < count ==> r.value[i] == net.project(i, outs[i])
  {
    if count <= |outs| then Ok(seq(count, i requires 0 <= i < count => net.project(i, outs[i]))) else Err(IndexError)
  }

  /** `list.index(x)`: the first position of `x`, or `ValueError`. */
  function IndexOf(xs: seq<int>, x: int): (r: Result<nat>)
    ensures r.Ok? <==> x in xs
    ensures r.Err? ==> r.error.ValueError?
    ensures r.Ok? ==> r.value < |xs| && xs[r.value] == x && forall k :: 0 <= k < r.value ==> xs[k] != x
    decreases |xs|
  {
    if xs == [] then Err(ValueError("is not in list"))
    else if xs[0] == x then Ok(0)
    else match IndexOf(xs[1..], x)
      case Err(e) => Err(e)
      case Ok(k) => Ok(k + 1)
  }

  /**
   * `ConformerCTCModel.forward` after feature extraction: `x` are the
   * (augmented) features, `mask` their sequence mask and `lens` their
   * lengths.
   */
  function CtcForward<H, M, P>(net: CtcNet<H, M, P>, cfg: CtcConfig, training: bool, x: H, mask: M, lens: seq<int>)
    : Result<CtcOutput<M, P>>
  {
    var (x1, m1) := net.frontend(x, mask);
    var outs := TappedOutputs(net, x1, m1, cfg.numLayers, Layers(cfg.auxLosses));
    match LogProbs(net, outs, |cfg.auxLosses|)
    case Err(e) => Err(e)
    case Ok(lps) =>
      if training then Ok(TrainOut(lps, m1))
      else match IndexOf(Layers(cfg.auxLosses), cfg.recogNumLayer)
        case Err(e) => Err(e)
        case Ok(k) => Ok(RecogOut(lps[k], lens))
  }

  /** `ConformerCTCModel.forward`: the encoder call and the loop over the projections. */
  method CtcModelForward<H, M, P>(net: CtcNet<H, M, P>, cfg: CtcConfig, training: bool, x: H, mask: M, lens: seq<int>)
    returns (r: Result<CtcOutput<M, P>>)
    ensures r == CtcForward(net, cfg, training, x, mask, lens)
  {
    var outs, m1 := EncoderForward(net, cfg.numLayers, x, mask, cfg.auxLosses);
    var lps: seq<P> := [];
    var i := 0;
    while i < |cfg.auxLosses|
      invariant 0 <= i <= |cfg.auxLosses| && i <= |outs|
      invariant lps == seq(i, k requires 0 <= k < i => net.project(k, outs[k]))
    {
      if i >= |outs| {
        return Err(IndexError);
      }
      lps := lps + [net.project(i, outs[i])];
      i := i + 1;
    }
    if training {
      return Ok(TrainOut(lps, m1));
    }
    var k := IndexOf(Layers(cfg.auxLosses), cfg.recogNumLayer);
    if k.Err? {
      return Err(k.error);
    }
    r := Ok(RecogOut(lps[k.value], lens));
  }

  /**
   * With distinct block numbers the forward pass fails with `IndexError`
   * exactly when some key lies outside `1..num_layers`; recognition
   * additionally needs `recog_num_layer` among the keys.
   */
  lemma CtcForwardFails<H, M, P>(net: CtcNet<H, M, P>, cfg: CtcConfig, training: bool, x: H, mask: M, lens: seq<int>)
    requires Distinct(Layers(cfg.auxLosses))
    ensures CtcForward(net, cfg, training, x, mask, lens).Ok?
            <==> (forall i :: 0 <= i < |cfg.auxLosses| ==> 1 <= cfg.auxLosses[i].layer <= cfg.numLayers)
                 && (training || cfg.recogNumLayer in Layers(cfg.auxLosses))
  {
    var ls := Layers(cfg.auxLosses);
    TappedCount(cfg.numLayers, ls);
    CountInRangeAll(ls, cfg.numLayers);
  }

  /**
   * For a table sorted by block number with keys in `1..num_layers` (what
   * the default configuration produces for valid keys), log-prob `i` is
   * projection `i` of block `key_i`'s output, and recognition returns
   * the output of block `recog_num_layer` through its projection.
   */
  lemma CtcForwardSorted<H, M, P>(net: CtcNet<H, M, P>, cfg: CtcConfig, training: bool, x: H, mask: M, lens: seq<int>)
    requires IncreasingIn(Layers(cfg.auxLosses), cfg.numLayers)
    ensures var r := CtcForward(net, cfg, training, x, mask, lens);
            var (x1, m1) := net.frontend(x, mask);
            && (training ==> r.Ok? && r.value.TrainOut? && |r.value.logProbs| == |cfg.auxLosses|
                             && forall i :: 0 <= i < |cfg.auxLosses| ==>
                                  r.value.logProbs[i] == net.project(i, BlockOutput(net, x1, m1, cfg.auxLosses[i].layer)))
            && (!training && cfg.recogNumLayer in Layers(cfg.auxLosses) ==>
                  r.Ok? && r.value.RecogOut? && r.value.lens == lens
                  && exists k :: 0 <= k < |cfg.auxLosses| && cfg.auxLosses[k].layer == cfg.recogNumLayer
                                 && r.value.recog == net.project(k, BlockOutput(net, x1, m1, cfg.recogNumLayer)))
            && (!training && cfg.recogNumLayer !in Layers(cfg.auxLosses) ==> r.Err? && r.error.ValueError?)
  {
    var ls := Layers(cfg.auxLosses);
    TappedSortedKeys(cfg.numLayers, ls);
    if !training && cfg.recogNumLayer in ls {
      var k := IndexOf(ls, cfg.recogNumLayer).value;
      assert cfg.auxLosses[k].layer == cfg.recogNumLayer;
    }
  }

  // ---------------------------------------------------------------------
  // train_step
  // ---------------------------------------------------------------------

  /** One `mark_as_loss` call: name, scale, the log-probs and lengths the CTC loss gets, and its normaliser. */
  datatype LossMark<!P> = LossMark(name: string, scale: real, logProbs: P, inputLengths: seq<int>, normaliser: int)

  /** The losses `train_step` marks for the training output of the model. */
  function TrainLosses<P>(aux: seq<AuxEntry>, lps: seq<P>, seqLens: seq<int>): (marks: seq<LossMark<P>>)
    requires |lps| <= |aux|
    ensures |marks| == |lps|
  {
    seq(|lps|, i requires 0 <= i < |lps| => LossMark("CTC_" + aux[i].key, aux[i].scale, lps[i], seqLens, Sum(seqLens)))
  }

  /**
   * `train_step`: the model in training mode, the lengths counted from the
   * returned mask, then one loss per aux-loss entry, in table order, named
   * `CTC_{key}`, scaled by that entry's scale, on that entry's log-probs,
   * and normalised by the total output length.
   */
  method TrainStep<H, M, P>(net: CtcNet<H, M, P>, cfg: CtcConfig, lengthsOf: M -> seq<int>, x: H, mask: M, lens: seq<int>)
    returns (r: Result<seq<LossMark<P>>>)
    ensures match CtcForward(net, cfg, true, x, mask, lens)
            case Err(e) => r == Err(e)
            case Ok(out) => out.TrainOut? && |out.logProbs| == |cfg.auxLosses|
                            && r == Ok(TrainLosses(cfg.auxLosses, out.logProbs, lengthsOf(out.mask)))
                            && |r.value| == |cfg.auxLosses|
                            && forall i :: 0 <= i < |cfg.auxLosses| ==>
                                 && r.value[i].name == "CTC_" + cfg.auxLosses[i].key
                                 && r.value[i].scale == cfg.auxLosses[i].scale
                                 && r.value[i].logProbs == out.logProbs[i]
                                 && r.value[i].inputLengths == lengthsOf(out.mask)
                                 && r.value[i].normaliser == Sum(lengthsOf(out.mask))
  {
    var out := CtcModelForward(net, cfg, true, x, mask, lens);
    if out.Err? {
      return Err(out.error);
    }
    var lps, m := out.value.logProbs, out.value.mask;
    var seqLens := lengthsOf(m);
    var marks: seq<LossMark<P>> := [];
    var i := 0;
    while i < |lps|
      invariant 0 <= i <= |lps|
      invariant marks == TrainLosses(cfg.auxLosses, lps[..i], seqLens)
    {
      marks := marks + [LossMark("CTC_" + cfg.auxLosses[i].key, cfg.auxLosses[i].scale, lps[i], seqLens, Sum(seqLens))];
      i := i + 1;
      assert lps[..i] == lps[..i - 1] + [lps[i - 1]];
    }
    assert lps[..i] == lps;
    r := Ok(marks);
  }

  // ---------------------------------------------------------------------
  // get_serializer and the shadowed definitions
  // ---------------------------------------------------------------------

  datatype Variant = Train | Prior | Align | Recog | OtherVariant

  /** An object added to the serialized config: an import (optionally renamed) or verbatim code. */
  datatype SerialObject = Import(path: string, importAs: Option<string>) | NonhashedCode(code: string)

  /** `get_basic_pt_network_serializer(...)`: the model class path and the extra objects. */
  datatype Collection = Collection(modulePath: string, extras: seq<SerialObject>)

  /** The six serializer definitions of the module, in the order they appear. */
  datatype SerializerDef = TrainV1 | PriorV1 | RecogV1 | TrainV2 | PriorV2 | RecogV2

  const PytorchPackage: string := "i6_experiments.users.berger.pytorch"

  /** The module's top level: each `def` binds its name, a later one replacing an earlier one. */
  const ModuleDefs: seq<(string, SerializerDef)> := [
    ("get_train_serializer", TrainV1), ("get_prior_serializer", PriorV1), ("get_recog_serializer", RecogV1),
    ("get_train_serializer", TrainV2), ("get_prior_serializer", PriorV2), ("get_recog_serializer", RecogV2)]

  /** The module namespace after running `defs` in order. */
  function Namespace(defs: seq<(string, SerializerDef)>): map<string, SerializerDef>
    decreases |defs|
  {
    if defs == [] then map[] else Namespace(defs[..|defs| - 1])[defs[|defs| - 1].0 := defs[|defs| - 1].1]
  }

  /** What a serializer definition returns for the module named `moduleName`. */
  function Serialize(def: SerializerDef, moduleName: string): Collection
  {
    var model := moduleName + ".ConformerCTCModel";
    match def
    case TrainV1 => Collection(model, [Import(PytorchPackage + ".train_steps.ctc.train_step", None)])
    case PriorV1 => Collection(model, [Import(PytorchPackage + ".forward.basic.forward_step", None),
                                       Import(PytorchPackage + ".forward.prior_callback.ComputePriorCallback", Some("forward_callback"))])
    case RecogV1 => Collection(model, [Import(moduleName + ".export", None)])
    case TrainV2 => Collection(model, [Import(moduleName + ".train_step", None)])
    case PriorV2 => Collection(model, [NonhashedCode("import returnn.frontend as rf\n"),
                                       Import(PytorchPackage + ".forward.basic.forward_step", None),
                                       Import(PytorchPackage + ".forward.prior_callback.ComputePriorCallback", Some("forward_callback"))])
    case RecogV2 => Collection(model, [Import(moduleName + ".export", None)])
  }

  /** The global name `get_serializer` calls for a variant, or `NotImplementedError`. */
  function SerializerName(variant: Variant): Result<string>
  {
    match variant
    case Train => Ok("get_train_serializer")
    case Prior => Ok("get_prior_serializer")
    case Align => Ok("get_recog_serializer")
    case Recog => Ok("get_recog_serializer")
    case OtherVariant => Err(NotImplementedError)
  }

  /** `get_serializer`: the name is looked up in the module namespace when called. */
  function GetSerializer(variant: Variant, moduleName: string): Result<Collection>
  {
    match SerializerName(variant)
    case Err(e) => Err(e)
    case Ok(name) =>
      var ns := Namespace(ModuleDefs);
      if name in ns then Ok(Serialize(ns[name], moduleName)) else Err(AttributeError(name))
  }

  /**
   * The later definitions shadow the earlier ones: training imports this
   * module's own `train_step`, the prior serializer adds the `rf` import
   * before the forward step and the prior callback, alignment and
   * recognition share the recognition serializer (which imports this
   * module's `export`), and any other variant is not implemented.
   */
  lemma GetSerializerDispatch(moduleName: string)
    ensures GetSerializer(Train, moduleName) == Ok(Serialize(TrainV2, moduleName))
    ensures GetSerializer(Prior, moduleName) == Ok(Serialize(PriorV2, moduleName))
    ensures GetSerializer(Align, moduleName) == Ok(Serialize(RecogV2, moduleName))
    ensures GetSerializer(Recog, moduleName) == GetSerializer(Align, moduleName)
    ensures GetSerializer(OtherVariant, moduleName) == Err(NotImplementedError)
    ensures GetSerializer(Train, moduleName).value.extras == [Import(moduleName + ".train_step", None)]
  {
    var d := ModuleDefs;
    assert d[..1] == [d[0]] && d[..2] == d[..1] + [d[1]] && d[..3] == d[..2] + [d[2]];
    assert d[..4] == d[..3] + [d[3]] && d[..5] == d[..4] + [d[4]] && d == d[..5] + [d[5]];
    assert Namespace(d[..1]) == map["get_train_serializer" := TrainV1];
    assert Namespace(d[..3]) == map["get_train_serializer" := TrainV1, "get_prior_serializer" := PriorV1, "get_recog_serializer" := RecogV1];
    assert Namespace(d) == map["get_train_serializer" := TrainV2, "get_prior_serializer" := PriorV2, "get_recog_serializer" := RecogV2];
  }
}
