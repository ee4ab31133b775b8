/**
 * RETURNN network dictionaries as values, the `ReturnnNetwork` builder
 * object that accumulates them, and a per-frame evaluator for the layer
 * classes whose arithmetic the CTC decoder relies on.
 *
 * A layer dict is a `Layer`: its class with the options that matter
 * (`Kind`), its `from` list and its `initial_output`.  Layer names
 * `prev:X` denote layer X one step earlier; a name bound in the
 * environment's `inputs` (`data:source`, `base:...`, encoder outputs)
 * is an external value.
 */
module ReturnnNet {
  import opened Common

  /** An `initial_output` literal. */
  datatype Scalar = IntS(i: int) | BoolS(b: bool)

  /** The value of a layer at one frame; a scalar is a length-one tensor. */
  datatype Tensor = Ints(ints: seq<int>) | Bools(bools: seq<bool>) | Reals(reals: seq<real>)

  /** `true_from` / `false_from` of a switch: a layer name or a float constant. */
  datatype Src = From(name: string) | Value(c: real)

  datatype CompareKind = Equal | NotEqual
  datatype CombineKind = Add | Sub | LogicalAnd
  datatype Activation = SafeLog | SafeExp | Softmax | Tanh | Sigmoid
  datatype ReduceMode = LogSumExp | Max
  datatype InputType = LogProb | Logits
  datatype Position = AtIndex(index: int) | AtLayer(layer: string)

  /** The `eval` strings the decoder writes. */
  datatype EvalExpr =
    | ScaleBy(factor: real)      // "{c} * source(0)" and "source(0) * {c}"
    | Minus(c: real)             // "source(0) - {c}"
    | Power(exponent: int)       // "source(0) ** {e}"
    | TimesZero                  // "source(0)*0.0"
    | AccumAttWeights            // "source(0) + source(1) * source(2) * 0.5"
    | IsLastFrame                // "tf.equal(source(0)+1, source(1))"
    | Ratio                      // "source(0)/source(1)"

  /** `load_on_init` of a subnetwork: a checkpoint path or a dict of options. */
  datatype LoadOnInit = Checkpoint(path: string) | LoadOpts(opts: map<string, string>)

  datatype Kind =
    | Compare(cmp: CompareKind, value: Option<int>)
    | Combine(op: CombineKind)
    | Copy
    | CopyWithLoss(loss: string, target: string)
    | Reinterpret(sparseDim: Option<int>)
    | ShiftRight(pad: int)
    | Choice(target: string, beam: int, inputType: Option<InputType>, lengthNorm: Option<bool>)
    | Decide(target: string)
    | Switch(condition: string, trueFrom: Src, falseFrom: Src)
    | MaskedComputation(mask: string, maskedUnit: Layer, maskedTarget: Option<string>)
    | Slice(start: int, end: int)
    | Gather(position: Position)
    | ExpandDims
    | Concat
    | EvalLayerExpr(expr: EvalExpr)
    | Act(fn: Activation)
    | Reduce(mode: ReduceMode)
    | Range(limit: nat)
    | Constant(constValue: real, shape: Option<nat>)
    | Length
    | PostfixInTime
    | Linear(nOut: int, activation: Option<Activation>, withBias: bool)
    | RnnCell(nOut: int, state: seq<string>)
    | LastHiddenState(key: string)
    | GenericAttention(weights: string, base: string)
    | SplitDims(dims: seq<int>)
    | Subnetwork(net: map<string, Layer>, loadOnInit: Option<LoadOnInit>)
    | RecLayer(unit: map<string, Layer>, target: string)
    | Other(cls: string)

  datatype Layer = Layer(kind: Kind, from: seq<string>, initial: Option<Scalar>)

  /** A layer without `initial_output`. */
  function L(kind: Kind, from: seq<string>): Layer
  {
    Layer(kind, from, None)
  }

  /** The items of a dict literal, in the order they are written. */
  type Entries = seq<(string, Layer)>

  function Names(es: Entries): (r: seq<string>)
    ensures |r| == |es|
  {
    seq(|es|, i requires 0 <= i < |es| => es[i].0)
  }

  /** `d.update(es)`: the items are written in order, a later one overwriting an earlier one. */
  function Merge(d: map<string, Layer>, es: Entries): map<string, Layer>
    decreases |es|
  {
    if es == [] then d else Merge(d, es[..|es| - 1])[es[|es| - 1].0 := es[|es| - 1].1]
  }

  /** A table written only when `c` holds. */
  function When(c: bool, es: Entries): Entries
  {
    if c then es else []
  }

  /** The dict a literal denotes. */
  function Dict(es: Entries): map<string, Layer>
  {
    Merge(map[], es)
  }

  /** Two updates in a row are one update with the items of both. */
  lemma {:induction false} MergeAppend(d: map<string, Layer>, a: Entries, b: Entries)
    ensures Merge(d, a + b) == Merge(Merge(d, a), b)
    decreases |b|
  {
    if b == [] {
      assert a + b == a;
    } else {
      assert (a + b)[..|a + b| - 1] == a + b[..|b| - 1];
      MergeAppend(d, a, b[..|b| - 1]);
    }
  }

  /** Three updates in a row. */
  lemma MergeAppend3(d: map<string, Layer>, a: Entries, b: Entries, c: Entries)
    ensures Merge(d, a + b + c) == Merge(Merge(Merge(d, a), b), c)
  {
    MergeAppend(d, a, b);
    MergeAppend(d, a + b, c);
  }

  /** Four updates in a row. */
  lemma MergeAppend4(d: map<string, Layer>, a: Entries, b: Entries, c: Entries, e: Entries)
    ensures Merge(d, a + b + c + e) == Merge(Merge(Merge(Merge(d, a), b), c), e)
  {
    MergeAppend3(d, a, b, c);
    MergeAppend(d, a + b + c, e);
  }

  /** `d[k] = v` after an update is an update with one more item. */
  lemma MergeSnoc(d: map<string, Layer>, es: Entries, k: string, v: Layer)
    ensures Merge(d, es + [(k, v)]) == Merge(d, es)[k := v]
  {
    assert (es + [(k, v)])[..|es|] == es;
  }

  /** An update that does not name `k` leaves `k` as it was. */
  lemma {:induction false} MergeAvoids(d: map<string, Layer>, es: Entries, k: string)
    requires k !in Names(es)
    ensures k in Merge(d, es) <==> k in d
    ensures k in d ==> Merge(d, es)[k] == d[k]
    decreases |es|
  {
    if es != [] {
      assert Names(es[..|es| - 1]) == Names(es)[..|es| - 1];
      assert Names(es)[|es| - 1] == es[|es| - 1].0 != k;
      MergeAvoids(d, es[..|es| - 1], k);
    }
  }

  /** The last item naming a key decides its value. */
  lemma {:induction false} MergeLast(d: map<string, Layer>, es: Entries, i: nat)
    requires i < |es| && es[i].0 !in Names(es[i + 1..])
    ensures es[i].0 in Merge(d, es) && Merge(d, es)[es[i].0] == es[i].1
    decreases |es|
  {
    if i < |es| - 1 {
      var init := es[..|es| - 1];
      assert es[i + 1..] == init[i + 1..] + [es[|es| - 1]];
      assert Names(init[i + 1..]) == Names(es[i + 1..])[..|init| - i - 1];
      assert Names(es[i + 1..])[|es| - i - 2] == es[|es| - 1].0 != es[i].0;
      MergeLast(d, init, i);
    }
  }

  /** Every item of `es` is in `net` as written. */
  ghost predicate Holds(es: Entries, net: map<string, Layer>)
  {
    forall i :: 0 <= i < |es| ==> es[i].0 in net && net[es[i].0] == es[i].1
  }

  /** The items of two tables in a row hold when both tables' items do. */
  lemma HoldsSplit(a: Entries, b: Entries, net: map<string, Layer>)
    requires Holds(a + b, net)
    ensures Holds(a, net) && Holds(b, net)
  {
    forall i | 0 <= i < |a|
      ensures a[i].0 in net && net[a[i].0] == a[i].1
    {
      assert (a + b)[i] == a[i];
    }
    forall i | 0 <= i < |b|
      ensures b[i].0 in net && net[b[i].0] == b[i].1
    {
      assert (a + b)[|a| + i] == b[i];
    }
  }

  /** No name is written twice. */
  ghost predicate Distinct(es: Entries)
  {
    forall i, j :: 0 <= i < j < |es| ==> es[i].0 != es[j].0
  }

  /**
   * After `d.update(pre + es + post)`, the items of `es` hold when none of
   * its names repeats and `post` names none of them.
   */
  lemma MergeHolds(d: map<string, Layer>, pre: Entries, es: Entries, post: Entries)
    requires Distinct(es)
    requires forall i :: 0 <= i < |es| ==> es[i].0 !in Names(post)
    ensures Holds(es, Merge(d, pre + es + post))
  {
    MergeAppend(d, pre + es, post);
    MergeAppend(d, pre, es);
    forall i | 0 <= i < |es|
      ensures es[i].0 in Merge(d, pre + es + post) && Merge(d, pre + es + post)[es[i].0] == es[i].1
    {
      assert es[i].0 !in Names(es[i + 1..]);
      MergeLast(Merge(d, pre), es, i);
      MergeAvoids(Merge(d, pre + es), post, es[i].0);
    }
  }

  /** The last update writes its items (when none of its names repeats). */
  lemma MergeHoldsLast(d: map<string, Layer>, pre: Entries, es: Entries)
    requires Distinct(es)
    ensures Holds(es, Merge(d, pre + es))
  {
    MergeHolds(d, pre, es, []);
    assert pre + es + [] == pre + es;
  }

  /** Entries already written survive an update that names none of them. */
  lemma HoldsAfter(es: Entries, d: map<string, Layer>, post: Entries)
    requires Holds(es, d)
    requires forall i :: 0 <= i < |es| ==> es[i].0 !in Names(post)
    ensures Holds(es, Merge(d, post))
  {
    forall i | 0 <= i < |es|
      ensures es[i].0 in Merge(d, post) && Merge(d, post)[es[i].0] == es[i].1
    {
      MergeAvoids(d, post, es[i].0);
    }
  }

  /** Writing the items of a table one `net[name] = layer` at a time. */
  lemma MergeNext(d: map<string, Layer>, es: Entries, i: nat)
    requires i < |es|
    ensures Merge(d, es[..i + 1]) == Merge(d, es[..i])[es[i].0 := es[i].1]
  {
    assert es[..i + 1][..i] == es[..i];
  }

  /** The names of two tables in a row. */
  lemma NamesAppend(a: Entries, b: Entries)
    ensures Names(a + b) == Names(a) + Names(b)
  {
  }

  /** No name of `es` is written again by `post`. */
  ghost predicate Avoids(es: Entries, post: Entries)
  {
    forall i :: 0 <= i < |es| ==> es[i].0 !in Names(post)
  }

  lemma AvoidsWhen(es: Entries, c: bool, a: Entries)
    requires Avoids(es, a)
    ensures Avoids(es, When(c, a))
  {
  }

  lemma AvoidsAppend(es: Entries, a: Entries, b: Entries)
    requires Avoids(es, a) && Avoids(es, b)
    ensures Avoids(es, a + b)
  {
    NamesAppend(a, b);
  }

  /**
   * `ReturnnNetwork`: a mutable layer dictionary.  `update` merges a dict
   * (later keys overwrite), `net[name] = layer` sets one entry.
   */
  class Network {
    var layers: map<string, Layer>

    constructor ()
      ensures layers == map[]
    {
      layers := map[];
    }

    method Update(entries: Entries)
      modifies this
      ensures layers == Merge(old(layers), entries)
    {
      layers := Merge(layers, entries);
    }

    /** `if c: net.update(entries)`. */
    method UpdateIf(c: bool, entries: Entries)
      modifies this
      ensures layers == Merge(old(layers), When(c, entries))
    {
      if c {
        layers := Merge(layers, entries);
      }
    }

    method Set(name: string, layer: Layer)
      modifies this
      ensures layers == old(layers)[name := layer]
    {
      layers := layers[name := layer];
    }

    /** `get_net()`. */
    function Get(): map<string, Layer>
      reads this
    {
      layers
    }
  }

  // ---------------------------------------------------------------------
  // Per-frame evaluation
  // ---------------------------------------------------------------------

  /**
   * What a frame sees: the decided outputs (`output` / `decide`), the
   * external values per frame, and the numeric primitives RETURNN
   * provides (`safe_log`, `safe_exp`, `reduce_logsumexp`).
   */
  datatype Env = Env(out: seq<int>, inputs: map<string, seq<Tensor>>,
                     safeLog: real -> real, safeExp: real -> real, logSumExp: seq<real> -> real)

  /** Depth allowed for a chain of layers within one frame. */
  const MaxDepth: nat := 32

  predicate IsPrev(name: string)
  {
    |name| >= 5 && name[0] == 'p' && name[1] == 'r' && name[2] == 'e' && name[3] == 'v' && name[4] == ':'
  }

  function ScalarTensor(s: Scalar): Tensor
  {
    match s
    case IntS(i) => Ints([i])
    case BoolS(b) => Bools([b])
  }

  /** Entry i of a tensor broadcast along its only axis. */
  function At<T>(s: seq<T>, i: nat): T
    requires |s| > 0 && (|s| == 1 || i < |s|)
  {
    if |s| == 1 then s[0] else s[i]
  }

  /** Lengths a and b broadcast to a common length, if they do. */
  function Broadcast(a: nat, b: nat): Option<nat>
  {
    if a == b then Some(a) else if a == 1 then Some(b) else if b == 1 then Some(a) else None
  }

  function ZipReals(a: seq<real>, b: seq<real>, op: (real, real) -> real): Option<seq<real>>
  {
    if |a| == 0 || |b| == 0 then None
    else match Broadcast(|a|, |b|)
      case None => None
      case Some(n) => Some(seq(n, i requires 0 <= i < n => op(At(a, i), At(b, i))))
  }

  function CompareInts(a: seq<int>, b: seq<int>, cmp: CompareKind): Option<seq<bool>>
  {
    if |a| == 0 || |b| == 0 then None
    else match Broadcast(|a|, |b|)
      case None => None
      case Some(n) => Some(seq(n, i requires 0 <= i < n =>
                                 if cmp == Equal then At(a, i) == At(b, i) else At(a, i) != At(b, i)))
  }

  function AndBools(a: seq<bool>, b: seq<bool>): Option<seq<bool>>
  {
    if |a| == 0 || |b| == 0 then None
    else match Broadcast(|a|, |b|)
      case None => None
      case Some(n) => Some(seq(n, i requires 0 <= i < n => At(a, i) && At(b, i)))
  }

  /** The entry-wise operations of `combine` add and sub. */
  function AddReal(x: real, y: real): real { x + y }
  function SubReal(x: real, y: real): real { x - y }

  /** Element-wise sum of the `from` tensors of a `combine` add, left to right. */
  function AddAll(ts: seq<Tensor>): Option<seq<real>>
  {
    if ts == [] || !ts[|ts| - 1].Reals? then None
    else if |ts| == 1 then Some(ts[0].reals)
    else match AddAll(ts[..|ts| - 1])
      case None => None
      case Some(acc) => ZipReals(acc, ts[|ts| - 1].reals, AddReal)
  }

  function ConcatReals(ts: seq<Tensor>): Option<seq<real>>
  {
    if ts == [] then Some([])
    else if !ts[|ts| - 1].Reals? then None
    else match ConcatReals(ts[..|ts| - 1])
      case None => None
      case Some(acc) => Some(acc + ts[|ts| - 1].reals)
  }

  function MapReals(a: seq<real>, f: real -> real): (r: seq<real>)
    ensures |r| == |a|
  {
    seq(|a|, i requires 0 <= i < |a| => f(a[i]))
  }

  /** A switch: condition, true and false values broadcast to one length. */
  function Select3(c: seq<bool>, a: seq<real>, b: seq<real>): Option<seq<real>>
  {
    if |c| == 0 || |a| == 0 || |b| == 0 then None
    else match Broadcast(|a|, |b|)
      case None => None
      case Some(m) => match Broadcast(|c|, m)
        case None => None
        case Some(n) =>
          Some(seq(n, i requires 0 <= i < n => if At(c, i) then At(a, i) else At(b, i)))
  }

  /** Value of layer `name` at frame t. */
  function Eval(net: map<string, Layer>, env: Env, name: string, t: nat, fuel: nat): Option<Tensor>
    decreases t, fuel, 0, 0
  {
    if name in env.inputs then
      (if t < |env.inputs[name]| then Some(env.inputs[name][t]) else None)
    else if IsPrev(name) then
      var x := name[5..];
      if t == 0 then
        (if x !in net then None
         else match net[x].initial
           case Some(v) => Some(ScalarTensor(v))
           case None => Some(Reals([0.0])))
      else Eval(net, env, x, t - 1, MaxDepth)
    else if fuel == 0 || name !in net then None
    else EvalLayer(net, env, net[name], t, fuel - 1)
  }

  function EvalAll(net: map<string, Layer>, env: Env, names: seq<string>, t: nat, fuel: nat): Option<seq<Tensor>>
    decreases t, fuel, 1, |names|
  {
    if names == [] then Some([])
    else match EvalAll(net, env, names[..|names| - 1], t, fuel)
      case None => None
      case Some(vs) => match Eval(net, env, names[|names| - 1], t, fuel)
        case None => None
        case Some(v) => Some(vs + [v])
  }

  function EvalSrc(net: map<string, Layer>, env: Env, s: Src, t: nat, fuel: nat): Option<Tensor>
    decreases t, fuel, 1, 0
  {
    match s
    case Value(c) => Some(Reals([c]))
    case From(n) => Eval(net, env, n, t, fuel)
  }

  /** Classes evaluated from the values of their `from` list alone. */
  predicate Plain(k: Kind)
  {
    !(k.ShiftRight? || k.Switch? || (k.Gather? && k.position.AtLayer?) || k.Choice? || k.Decide?)
  }

  /** Value at frame t of a layer of `net`, for the classes the decoder's arithmetic uses. */
  function EvalLayer(net: map<string, Layer>, env: Env, l: Layer, t: nat, fuel: nat): Option<Tensor>
    decreases t, fuel, 2, 0
  {
    match l.kind
    case Choice(_, _, _, _) => if t < |env.out| then Some(Ints([env.out[t]])) else None
    case Decide(_) => if t < |env.out| then Some(Ints([env.out[t]])) else None
    case ShiftRight(pad) =>
      if |l.from| != 1 then None
      else if t == 0 then Some(Ints([pad]))
      else Eval(net, env, l.from[0], t - 1, MaxDepth)
    case Switch(cond, tf, ff) =>
      (match Eval(net, env, cond, t, fuel)
       case None => None
       case Some(c) =>
         (match EvalSrc(net, env, tf, t, fuel)
          case None => None
          case Some(a) =>
            (match EvalSrc(net, env, ff, t, fuel)
             case None => None
             case Some(b) => SwitchOp(c, a, b))))
    case _ =>
      (match EvalAll(net, env, l.from, t, fuel)
       case None => None
       case Some(vs) =>
         if l.kind.Gather? && l.kind.position.AtLayer? then
           (match Eval(net, env, l.kind.position.layer, t, fuel)
            case None => None
            case Some(p) => GatherAtOp(vs, p))
         else Apply(l.kind, vs, env))
  }

  function SwitchOp(c: Tensor, a: Tensor, b: Tensor): Option<Tensor>
  {
    if c.Bools? && a.Reals? && b.Reals? then
      (match Select3(c.bools, a.reals, b.reals) case Some(r) => Some(Reals(r)) case None => None)
    else None
  }

  /** `gather` at the position another layer holds. */
  function GatherAtOp(vs: seq<Tensor>, p: Tensor): Option<Tensor>
  {
    if |vs| == 1 && vs[0].Reals? && p.Ints? && |p.ints| == 1 && 0 <= p.ints[0] < |vs[0].reals|
    then Some(Reals([vs[0].reals[p.ints[0]]]))
    else None
  }

  function ExprOp(e: EvalExpr, v: seq<real>): Option<seq<real>>
  {
    match e
    case ScaleBy(c) => Some(MapReals(v, x => c * x))
    case Minus(c) => Some(MapReals(v, x => x - c))
    case Power(k) => if k == 1 then Some(v) else None
    case TimesZero => Some(MapReals(v, x => x * 0.0))
    case _ => None
  }

  function ActOp(fn: Activation, v: seq<real>, env: Env): Option<seq<real>>
  {
    match fn
    case SafeLog => Some(MapReals(v, env.safeLog))
    case SafeExp => Some(MapReals(v, env.safeExp))
    case _ => None
  }

  function AsReals(r: Option<seq<real>>): Option<Tensor>
  {
    match r case Some(x) => Some(Reals(x)) case None => None
  }

  function AsBools(r: Option<seq<bool>>): Option<Tensor>
  {
    match r case Some(x) => Some(Bools(x)) case None => None
  }

  /** The value of a plain layer of class `k` given the values of its `from` list. */
  function Apply(k: Kind, vs: seq<Tensor>, env: Env): Option<Tensor>
  {
    match k
    case Copy => if |vs| == 1 then Some(vs[0]) else None
    case Reinterpret(_) => if |vs| == 1 then Some(vs[0]) else None
    case ExpandDims => if |vs| == 1 then Some(vs[0]) else None
    case Compare(cmp, value) =>
      (match value
       case Some(c) =>
         if |vs| == 1 && vs[0].Ints? then AsBools(CompareInts(vs[0].ints, [c], cmp)) else None
       case None =>
         if |vs| == 2 && vs[0].Ints? && vs[1].Ints? then AsBools(CompareInts(vs[0].ints, vs[1].ints, cmp)) else None)
    case Combine(op) =>
      (match op
       case Add => AsReals(AddAll(vs))
       case Sub =>
         if |vs| == 2 && vs[0].Reals? && vs[1].Reals? then AsReals(ZipReals(vs[0].reals, vs[1].reals, SubReal))
         else None
       case LogicalAnd =>
         if |vs| == 2 && vs[0].Bools? && vs[1].Bools? then AsBools(AndBools(vs[0].bools, vs[1].bools)) else None)
    case Slice(s, e) =>
      if |vs| == 1 && vs[0].Reals? && 0 <= s <= e <= |vs[0].reals| then Some(Reals(vs[0].reals[s..e])) else None
    case Gather(pos) =>
      if |vs| == 1 && vs[0].Reals? && pos.AtIndex? && 0 <= pos.index < |vs[0].reals|
      then Some(Reals([vs[0].reals[pos.index]]))
      else None
    case Concat => AsReals(ConcatReals(vs))
    case EvalLayerExpr(e) => if |vs| == 1 && vs[0].Reals? then AsReals(ExprOp(e, vs[0].reals)) else None
    case Act(fn) => if |vs| == 1 && vs[0].Reals? then AsReals(ActOp(fn, vs[0].reals, env)) else None
    case Reduce(mode) =>
      if |vs| == 1 && vs[0].Reals? && mode == LogSumExp then Some(Reals([env.logSumExp(vs[0].reals)])) else None
    case Range(limit) => Some(Ints(seq(limit, i requires 0 <= i < limit => i)))
    case Constant(c, shape) =>
      (match shape
       case None => Some(Reals([c]))
       case Some(n) => Some(Reals(seq(n, _ => c))))
    case _ => None
  }

  /** A layer of `net` that is not bound externally and is not a `prev:` reference. */
  predicate Internal(net: map<string, Layer>, env: Env, name: string)
  {
    name in net && name !in env.inputs && !IsPrev(name)
  }

  /** A plain layer evaluates to `Apply` of the values of its `from` list. */
  lemma EvalPlain(net: map<string, Layer>, env: Env, name: string, t: nat, fuel: nat, vs: seq<Tensor>)
    requires Internal(net, env, name) && fuel >= 1 && Plain(net[name].kind)
    requires EvalAll(net, env, net[name].from, t, fuel - 1) == Some(vs)
    ensures Eval(net, env, name, t, fuel) == Apply(net[name].kind, vs, env)
  {
  }

  /** A plain layer one of whose sources has no value has none. */
  lemma EvalPlainNone(net: map<string, Layer>, env: Env, name: string, t: nat, fuel: nat)
    requires Internal(net, env, name) && fuel >= 1 && Plain(net[name].kind)
    requires EvalAll(net, env, net[name].from, t, fuel - 1).None?
    ensures Eval(net, env, name, t, fuel).None?
  {
  }

  /** A switch whose false branch has no value has none. */
  lemma EvalSwitchNone(net: map<string, Layer>, env: Env, name: string, t: nat, fuel: nat)
    requires Internal(net, env, name) && fuel >= 1 && net[name].kind.Switch?
    requires EvalSrc(net, env, net[name].kind.falseFrom, t, fuel - 1).None?
    ensures Eval(net, env, name, t, fuel).None?
  {
  }

  /** A choice or decision layer yields the decoder's output label of the frame. */
  lemma EvalChosen(net: map<string, Layer>, env: Env, name: string, t: nat, fuel: nat)
    requires Internal(net, env, name) && fuel >= 1 && (net[name].kind.Choice? || net[name].kind.Decide?)
    requires t < |env.out|
    ensures Eval(net, env, name, t, fuel) == Some(Ints([env.out[t]]))
  {
  }

  /** `shift_axis` by one frame: the pad value at frame 0, else the source one frame back. */
  lemma EvalShift(net: map<string, Layer>, env: Env, name: string, t: nat, fuel: nat)
    requires Internal(net, env, name) && fuel >= 1 && net[name].kind.ShiftRight? && |net[name].from| == 1
    ensures Eval(net, env, name, t, fuel) ==
            if t == 0 then Some(Ints([net[name].kind.pad])) else Eval(net, env, net[name].from[0], t - 1, MaxDepth)
  {
  }

  /** A switch evaluates to `SwitchOp` of its condition and branches. */
  lemma EvalSwitch(net: map<string, Layer>, env: Env, name: string, t: nat, fuel: nat, c: Tensor, a: Tensor, b: Tensor)
    requires Internal(net, env, name) && fuel >= 1 && net[name].kind.Switch?
    requires Eval(net, env, net[name].kind.condition, t, fuel - 1) == Some(c)
    requires EvalSrc(net, env, net[name].kind.trueFrom, t, fuel - 1) == Some(a)
    requires EvalSrc(net, env, net[name].kind.falseFrom, t, fuel - 1) == Some(b)
    ensures Eval(net, env, name, t, fuel) == SwitchOp(c, a, b)
  {
  }

  /** A gather at a layer-held position evaluates to `GatherAtOp`. */
  lemma EvalGatherAt(net: map<string, Layer>, env: Env, name: string, t: nat, fuel: nat, vs: seq<Tensor>, p: Tensor)
    requires Internal(net, env, name) && fuel >= 1 && net[name].kind.Gather? && net[name].kind.position.AtLayer?
    requires EvalAll(net, env, net[name].from, t, fuel - 1) == Some(vs)
    requires Eval(net, env, net[name].kind.position.layer, t, fuel - 1) == Some(p)
    ensures Eval(net, env, name, t, fuel) == GatherAtOp(vs, p)
  {
  }

  lemma CompareScalars(a: int, b: int, cmp: CompareKind)
    ensures CompareInts([a], [b], cmp) == Some([if cmp == Equal then a == b else a != b])
  {
    assert seq(1, i requires 0 <= i < 1 => if cmp == Equal then At([a], i) == At([b], i) else At([a], i) != At([b], i))
        == [if cmp == Equal then a == b else a != b];
  }

  lemma AndScalars(a: bool, b: bool)
    ensures AndBools([a], [b]) == Some([a && b])
  {
    assert seq(1, i requires 0 <= i < 1 => At([a], i) && At([b], i)) == [a && b];
  }

  lemma ZipScalars(a: real, b: real, op: (real, real) -> real)
    ensures ZipReals([a], [b], op) == Some([op(a, b)])
  {
    ZipSame([a], [b], op);
    assert ZipReals([a], [b], op).value == [op(a, b)];
  }

  /** Two vectors of one length combine entry by entry. */
  lemma ZipSame(a: seq<real>, b: seq<real>, op: (real, real) -> real)
    requires |a| == |b| > 0
    ensures ZipReals(a, b, op).Some? && |ZipReals(a, b, op).value| == |a|
    ensures forall i :: 0 <= i < |a| ==> ZipReals(a, b, op).value[i] == op(a[i], b[i])
  {
    var n := |a|;
    var s := seq(n, i requires 0 <= i < n => op(At(a, i), At(b, i)));
    assert ZipReals(a, b, op) == Some(s);
    forall i | 0 <= i < n
      ensures s[i] == op(a[i], b[i])
    {
      assert At(a, i) == a[i] && At(b, i) == b[i];
    }
  }

  lemma EvalAll1(net: map<string, Layer>, env: Env, a: string, t: nat, fuel: nat, va: Tensor)
    requires Eval(net, env, a, t, fuel) == Some(va)
    ensures EvalAll(net, env, [a], t, fuel) == Some([va])
  {
    var names := [a];
    assert names[..|names| - 1] == [];
    assert EvalAll(net, env, [], t, fuel) == Some([]);
    assert names[|names| - 1] == a;
    assert [] + [va] == [va];
  }

  lemma EvalAll2(net: map<string, Layer>, env: Env, a: string, b: string, t: nat, fuel: nat, va: Tensor, vb: Tensor)
    requires Eval(net, env, a, t, fuel) == Some(va) && Eval(net, env, b, t, fuel) == Some(vb)
    ensures EvalAll(net, env, [a, b], t, fuel) == Some([va, vb])
  {
    var names := [a, b];
    assert names[..|names| - 1] == [a];
    assert names[|names| - 1] == b;
    EvalAll1(net, env, a, t, fuel, va);
    assert [va] + [vb] == [va, vb];
  }

  lemma EvalAll3(net: map<string, Layer>, env: Env, a: string, b: string, c: string, t: nat, fuel: nat,
                 va: Tensor, vb: Tensor, vc: Tensor)
    requires Eval(net, env, a, t, fuel) == Some(va) && Eval(net, env, b, t, fuel) == Some(vb)
    requires Eval(net, env, c, t, fuel) == Some(vc)
    ensures EvalAll(net, env, [a, b, c], t, fuel) == Some([va, vb, vc])
  {
    var names := [a, b, c];
    assert names[..|names| - 1] == [a, b];
    assert names[|names| - 1] == c;
    EvalAll2(net, env, a, b, t, fuel, va, vb);
    assert [va, vb] + [vc] == [va, vb, vc];
  }

  /** A plain layer reading one layer evaluates to `Apply` of that layer's value. */
  lemma EvalFrom1(net: map<string, Layer>, env: Env, name: string, a: string, t: nat, fuel: nat, va: Tensor)
    requires Internal(net, env, name) && fuel >= 1 && Plain(net[name].kind) && net[name].from == [a]
    requires Eval(net, env, a, t, fuel - 1) == Some(va)
    ensures Eval(net, env, name, t, fuel) == Apply(net[name].kind, [va], env)
  {
    EvalAll1(net, env, a, t, fuel - 1, va);
    EvalPlain(net, env, name, t, fuel, [va]);
  }

  /** A plain layer reading two layers evaluates to `Apply` of their values. */
  lemma EvalFrom2(net: map<string, Layer>, env: Env, name: string, a: string, b: string, t: nat, fuel: nat,
                  va: Tensor, vb: Tensor)
    requires Internal(net, env, name) && fuel >= 1 && Plain(net[name].kind) && net[name].from == [a, b]
    requires Eval(net, env, a, t, fuel - 1) == Some(va) && Eval(net, env, b, t, fuel - 1) == Some(vb)
    ensures Eval(net, env, name, t, fuel) == Apply(net[name].kind, [va, vb], env)
  {
    EvalAll2(net, env, a, b, t, fuel - 1, va, vb);
    EvalPlain(net, env, name, t, fuel, [va, vb]);
  }

  /** A plain layer reading no layer evaluates to `Apply` of nothing. */
  lemma EvalFrom0(net: map<string, Layer>, env: Env, name: string, t: nat, fuel: nat)
    requires Internal(net, env, name) && fuel >= 1 && Plain(net[name].kind) && net[name].from == []
    ensures Eval(net, env, name, t, fuel) == Apply(net[name].kind, [], env)
  {
    EvalPlain(net, env, name, t, fuel, []);
  }

  /** The values of two lists of layers, one after the other. */
  lemma {:induction false} EvalAllAppend(net: map<string, Layer>, env: Env, a: seq<string>, b: seq<string>, t: nat, fuel: nat,
                                         va: seq<Tensor>, vb: seq<Tensor>)
    requires EvalAll(net, env, a, t, fuel) == Some(va) && EvalAll(net, env, b, t, fuel) == Some(vb)
    ensures EvalAll(net, env, a + b, t, fuel) == Some(va + vb)
    decreases |b|
  {
    if b == [] {
      assert a + b == a && va + vb == va;
    } else {
      var b0 := b[..|b| - 1];
      var vb0 := EvalAll(net, env, b0, t, fuel).value;
      EvalAllAppend(net, env, a, b0, t, fuel, va, vb0);
      assert (a + b)[..|a + b| - 1] == a + b0 && (a + b)[|a + b| - 1] == b[|b| - 1];
      assert va + vb0 + [vb[|vb| - 1]] == va + vb;
    }
  }

  /** A list of layers one of which has no value has no values. */
  lemma {:induction false} EvalAllNone(net: map<string, Layer>, env: Env, names: seq<string>, i: nat, t: nat, fuel: nat)
    requires i < |names| && Eval(net, env, names[i], t, fuel).None?
    ensures EvalAll(net, env, names, t, fuel).None?
    decreases |names|
  {
    if i < |names| - 1 {
      assert names[..|names| - 1][i] == names[i];
      EvalAllNone(net, env, names[..|names| - 1], i, t, fuel);
    }
  }

  /** A vector and a scalar combine entry by entry (the scalar broadcast). */
  lemma ZipScalarRight(a: seq<real>, c: real, op: (real, real) -> real)
    requires |a| > 0
    ensures ZipReals(a, [c], op) == Some(seq(|a|, i requires 0 <= i < |a| => op(a[i], c)))
    ensures |ZipReals(a, [c], op).value| == |a|
    ensures forall i :: 0 <= i < |a| ==> ZipReals(a, [c], op).value[i] == op(a[i], c)
  {
    var n := |a|;
    var z := seq(n, i requires 0 <= i < n => op(At(a, i), At([c], i)));
    var w := seq(n, i requires 0 <= i < n => op(a[i], c));
    assert ZipReals(a, [c], op) == Some(z);
    forall i | 0 <= i < n
      ensures z[i] == w[i]
    {
      assert At(a, i) == a[i] && At([c], i) == c;
    }
    assert z == w;
  }

  /** A scalar and a vector combine entry by entry (the scalar broadcast). */
  lemma ZipScalarLeft(c: real, a: seq<real>, op: (real, real) -> real)
    requires |a| > 0
    ensures ZipReals([c], a, op) == Some(seq(|a|, i requires 0 <= i < |a| => op(c, a[i])))
    ensures |ZipReals([c], a, op).value| == |a|
    ensures forall i :: 0 <= i < |a| ==> ZipReals([c], a, op).value[i] == op(c, a[i])
  {
    var n := |a|;
    var z := seq(n, i requires 0 <= i < n => op(At([c], i), At(a, i)));
    var w := seq(n, i requires 0 <= i < n => op(c, a[i]));
    assert ZipReals([c], a, op) == Some(z);
    forall i | 0 <= i < n
      ensures z[i] == w[i]
    {
      assert At(a, i) == a[i] && At([c], i) == c;
    }
    assert z == w;
  }

  /** A switch over vectors of one length selects entry by entry. */
  lemma SelectSame(c: seq<bool>, a: seq<real>, b: seq<real>)
    requires |c| == |a| == |b| > 0
    ensures Select3(c, a, b) == Some(seq(|a|, i requires 0 <= i < |a| => if c[i] then a[i] else b[i]))
  {
    var n := |a|;
    var z := seq(n, i requires 0 <= i < n => if At(c, i) then At(a, i) else At(b, i));
    var w := seq(n, i requires 0 <= i < n => if c[i] then a[i] else b[i]);
    assert Select3(c, a, b) == Some(z);
    forall i | 0 <= i < n
      ensures z[i] == w[i]
    {
      assert At(c, i) == c[i] && At(a, i) == a[i] && At(b, i) == b[i];
    }
    assert z == w;
  }

  /** A switch over scalars. */
  lemma SelectScalars(c: bool, a: real, b: real)
    ensures Select3([c], [a], [b]) == Some([if c then a else b])
  {
    assert seq(1, i requires 0 <= i < 1 => if At([c], i) then At([a], i) else At([b], i)) == [if c then a else b];
  }

  /** Comparing a scalar with `range(n)` compares it with every position. */
  lemma CompareRange(p: int, r: seq<int>, cmp: CompareKind)
    requires |r| > 0 && forall i :: 0 <= i < |r| ==> r[i] == i
    ensures CompareInts([p], r, cmp) ==
            Some(seq(|r|, i requires 0 <= i < |r| => if cmp == Equal then p == i else p != i))
  {
    var n := |r|;
    var z := seq(n, i requires 0 <= i < n => if cmp == Equal then At([p], i) == At(r, i) else At([p], i) != At(r, i));
    var w := seq(n, i requires 0 <= i < n => if cmp == Equal then p == i else p != i);
    assert CompareInts([p], r, cmp) == Some(z);
    forall i | 0 <= i < n
      ensures z[i] == w[i]
    {
      assert At([p], i) == p && At(r, i) == i;
    }
    assert z == w;
  }

  /** Two vectors one after the other. */
  lemma ConcatTwo(a: seq<real>, b: seq<real>)
    ensures ConcatReals([Reals(a), Reals(b)]) == Some(a + b)
  {
    var vs := [Reals(a), Reals(b)];
    assert vs[..1] == [Reals(a)] && [Reals(a)][..0] == [];
    assert ConcatReals([Reals(a)]) == Some([] + a);
    assert [] + a == a;
  }

  /** A `combine` add of two vectors. */
  lemma AddTwo(a: seq<real>, b: seq<real>)
    ensures AddAll([Reals(a), Reals(b)]) == ZipReals(a, b, AddReal)
  {
    assert [Reals(a), Reals(b)][..1] == [Reals(a)];
  }

  /** One column of the network: layer `name` at every frame of the decided output. */
  function Frames(net: map<string, Layer>, env: Env, name: string): (r: seq<Option<Tensor>>)
    ensures |r| == |env.out|
  {
    seq(|env.out|, t requires 0 <= t < |env.out| => Eval(net, env, name, t, MaxDepth))
  }

  /**
   * A `masked_computation` whose unit is a plain copy, over time: the
   * frames of its source at which its mask is true.
   */
  function MaskedCopy(net: map<string, Layer>, env: Env, l: Layer): Option<seq<Option<Tensor>>>
  {
    match l.kind
    case MaskedComputation(mask, unit, _) =>
      if unit.kind == Copy && |l.from| == 1 then Some(MaskedFrames(net, env, mask, l.from[0])) else None
    case _ => None
  }

  /** The frames of layer `src` at which layer `mask` is true: what a masked computation under `mask` reads of `src`. */
  function MaskedFrames(net: map<string, Layer>, env: Env, mask: string, src: string): seq<Option<Tensor>>
  {
    var m := Frames(net, env, mask);
    Select(Frames(net, env, src), seq(|m|, t requires 0 <= t < |m| => m[t] == Some(Bools([true]))))
  }

  // ---------------------------------------------------------------------
  // Hold switches: `switch` layers whose false branch is `prev:` of themselves
  // ---------------------------------------------------------------------

  function Last<T>(init: T, r: seq<T>): T
  {
    if r == [] then init else r[|r| - 1]
  }

  /**
   * A `switch` on condition c with `true_from` = candidate and `false_from` =
   * `prev:<itself>`, unrolled over the steps; `init` is the initial output.
   */
  function Gated<T>(init: T, cond: seq<bool>, cand: seq<T>): (r: seq<T>)
    requires |cond| == |cand|
    ensures |r| == |cond|
  {
    if cond == [] then []
    else
      var before := Gated(init, cond[..|cond| - 1], cand[..|cand| - 1]);
      before + [if cond[|cond| - 1] then cand[|cand| - 1] else Last(init, before)]
  }

  /** Position of the last true condition at or before step t, if any. */
  function LastTrue(cond: seq<bool>, t: nat): (r: Option<nat>)
    requires t < |cond|
    ensures r.Some? ==> r.value <= t && cond[r.value]
    ensures r.Some? ==> forall u :: r.value < u <= t ==> !cond[u]
    ensures r.None? ==> forall u :: 0 <= u <= t ==> !cond[u]
  {
    if cond[t] then Some(t) else if t == 0 then None else LastTrue(cond, t - 1)
  }

  lemma {:induction false} GatedPrefix<T>(init: T, cond: seq<bool>, cand: seq<T>, n: nat)
    requires |cond| == |cand| && n <= |cond|
    ensures Gated(init, cond, cand)[..n] == Gated(init, cond[..n], cand[..n])
    decreases |cond|
  {
    if n < |cond| {
      var k := |cond| - 1;
      GatedPrefix(init, cond[..k], cand[..k], n);
      assert cond[..k][..n] == cond[..n] && cand[..k][..n] == cand[..n];
    } else {
      assert cond[..n] == cond && cand[..n] == cand;
    }
  }

  /** A gated state holds the candidate of the last step whose condition held, else its initial value. */
  lemma {:induction false} GatedIsLastUpdate<T>(init: T, cond: seq<bool>, cand: seq<T>, t: nat)
    requires |cond| == |cand| && t < |cond|
    ensures Gated(init, cond, cand)[t] ==
              match LastTrue(cond, t) case Some(u) => cand[u] case None => init
    decreases t
  {
    var r := Gated(init, cond, cand);
    GatedPrefix(init, cond, cand, t + 1);
    var r1 := Gated(init, cond[..t + 1], cand[..t + 1]);
    assert r[t] == r1[t];
    if !cond[t] && t > 0 {
      GatedPrefix(init, cond, cand, t);
      assert r1[..t] == Gated(init, cond[..t + 1][..t], cand[..t + 1][..t]);
      assert cond[..t + 1][..t] == cond[..t] && cand[..t + 1][..t] == cand[..t];
      assert r1[t] == r[t - 1];
      GatedIsLastUpdate(init, cond, cand, t - 1);
    }
  }


  /** One step of a hold switch: the candidate when the condition holds, else the previous value. */
  lemma GatedStep<T>(init: T, cond: seq<bool>, cand: seq<T>, t: nat)
    requires |cond| == |cand| && t < |cond|
    ensures Gated(init, cond, cand)[t] ==
              if cond[t] then cand[t] else if t == 0 then init else Gated(init, cond, cand)[t - 1]
  {
    GatedPrefix(init, cond, cand, t + 1);
    GatedPrefix(init, cond, cand, t);
    assert cond[..t + 1][..t] == cond[..t] && cand[..t + 1][..t] == cand[..t];
  }

  /** Every value a hold switch takes is its initial value or one of its candidates. */
  lemma GatedValues<T>(init: T, cond: seq<bool>, cand: seq<T>, t: nat)
    requires |cond| == |cand| && t < |cond|
    ensures Gated(init, cond, cand)[t] == init || exists u :: 0 <= u <= t && Gated(init, cond, cand)[t] == cand[u]
  {
    GatedIsLastUpdate(init, cond, cand, t);
  }

  /** A `switch` on `cond` with true branch `cand` and false branch `prev:<name>`, no initial output. */
  predicate IsHoldSwitch(net: map<string, Layer>, name: string, cond: string, cand: string)
  {
    name in net && net[name].kind == Switch(cond, From(cand), From("prev:" + name)) && net[name].initial == None
  }

  function Zeros(n: nat): (z: seq<real>)
    ensures |z| == n
  {
    seq(n, _ => 0.0)
  }

  /**
   * One step of a hold switch on vectors: selecting between the candidate
   * and the previous value (a zero scalar before the first frame) yields
   * the gated value of the step.
   */
  lemma GatedSelect(conds: seq<bool>, cands: seq<seq<real>>, n: nat, t: nat, prev: seq<real>)
    requires |conds| == |cands| && t < |conds| && n > 0
    requires forall u :: 0 <= u < |conds| ==> |cands[u]| == n
    requires prev == if t == 0 then [0.0] else Gated(Zeros(n), conds, cands)[t - 1]
    ensures Select3([conds[t]], cands[t], prev) == Some(Gated(Zeros(n), conds, cands)[t])
  {
    var g := Gated(Zeros(n), conds, cands);
    if t > 0 {
      GatedValues(Zeros(n), conds, cands, t - 1);
    }
    GatedStep(Zeros(n), conds, cands, t);
    assert |prev| == 1 || |prev| == n;
    GatedValues(Zeros(n), conds, cands, t);
    if g[t] != Zeros(n) {
      var u :| 0 <= u <= t && g[t] == cands[u];
      assert |g[t]| == n;
    }
    var sel := Select3([conds[t]], cands[t], prev);
    assert sel.Some? && |sel.value| == n;
    forall i | 0 <= i < n
      ensures sel.value[i] == g[t][i]
    {
      if !conds[t] && t == 0 {
        assert g[t] == Zeros(n);
      }
    }
    assert |g[t]| == n;
    assert sel.value == g[t];
  }

  /**
   * Frame by frame, a hold switch whose condition and candidate are given
   * takes the values of `Gated`, starting from RETURNN's default initial
   * output (zeros).
   */
  lemma {:induction false} HoldSwitchUnrolls(net: map<string, Layer>, env: Env, name: string, cond: string, cand: string,
                                             conds: seq<bool>, cands: seq<seq<real>>, n: nat, t: nat, fuel: nat)
    requires IsHoldSwitch(net, name, cond, cand) && !IsPrev(name)
    requires cond in env.inputs && cand in env.inputs && name !in env.inputs && "prev:" + name !in env.inputs
    requires |conds| == |cands| && t < |conds| && n > 0 && fuel >= 1
    requires |env.inputs[cond]| >= |conds| && |env.inputs[cand]| >= |conds|
    requires forall u :: 0 <= u < |conds| ==> env.inputs[cond][u] == Bools([conds[u]])
    requires forall u :: 0 <= u < |conds| ==> env.inputs[cand][u] == Reals(cands[u]) && |cands[u]| == n
    ensures Eval(net, env, name, t, fuel) == Some(Reals(Gated(Zeros(n), conds, cands)[t]))
    decreases t
  {
    var g := Gated(Zeros(n), conds, cands);
    var p := "prev:" + name;
    assert IsPrev(p) && p[5..] == name;
    var prev: seq<real> := if t == 0 then [0.0] else g[t - 1];
    if t > 0 {
      HoldSwitchUnrolls(net, env, name, cond, cand, conds, cands, n, t - 1, MaxDepth);
    }
    assert Eval(net, env, p, t, fuel - 1) == Some(Reals(prev));
    GatedSelect(conds, cands, n, t, prev);
    assert Eval(net, env, cond, t, fuel - 1) == Some(Bools([conds[t]]));
    assert EvalSrc(net, env, From(cand), t, fuel - 1) == Some(Reals(cands[t]));
    assert EvalSrc(net, env, From(p), t, fuel - 1) == Some(Reals(prev));
    EvalSwitch(net, env, name, t, fuel, Bools([conds[t]]), Reals(cands[t]), Reals(prev));
  }
}
