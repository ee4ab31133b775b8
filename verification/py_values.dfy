/**
 * Python values as the experiment configurations hold them: argument
 * dicts, the attribute objects stored in them (`encoder_args`,
 * `decoder_args`), checkpoints, and the truthiness and `str()` rules the
 * configuration code relies on.
 */
module PyValues {
  import opened Common

  /** A checkpoint handle; where it comes from is all the model needs. */
  datatype Ckpt =
    | EpochCkpt(job: string, epoch: int)      // `train_job.out_checkpoints[epoch]`
    | AveragedCkpt(job: string, numAvg: int)  // `get_average_checkpoint(train_job, num_average=...)`
    | BestCkpt(job: string)                   // `get_best_checkpoint(train_job)`
    | CkptFile(path: string)                  // a checkpoint given by the caller

  datatype Val =
    | VNone
    | VBool(b: bool)
    | VInt(i: int)
    | VReal(r: real)
    | VStr(s: string)
    | VList(items: seq<Val>)
    | VDict(entries: map<string, Val>)
    | VObj(cls: string, attrs: map<string, Val>)   // an instance of a config class
    | VCkpt(ckpt: Ckpt)

  type Dict = map<string, Val>

  /** Python's `bool(v)`. */
  predicate Truthy(v: Val)
  {
    match v
    case VNone => false
    case VBool(b) => b
    case VInt(i) => i != 0
    case VReal(r) => r != 0.0
    case VStr(s) => s != []
    case VList(xs) => xs != []
    case VDict(d) => d != map[]
    case VObj(_, _) => true
    case VCkpt(_) => true
  }

  /** `v == n` for a Python number `n` (`12.0 == 12` and `True == 1` hold). */
  predicate NumEq(v: Val, n: int)
  {
    match v
    case VInt(i) => i == n
    case VReal(r) => r == n as real
    case VBool(b) => (if b then 1 else 0) == n
    case _ => false
  }

  /**
   * How floats and containers render under `str()`: a float's shortest
   * round-trip decimal form and a container's item order are not modelled,
   * so the caller supplies them.
   */
  datatype Fmt = Fmt(showReal: real -> string, showOther: Val -> string)

  /** `str(v)` (equivalently `f"{v}"`). */
  function Render(v: Val, fmt: Fmt): string
  {
    match v
    case VNone => "None"
    case VBool(b) => if b then "True" else "False"
    case VInt(i) => IntToString(i)
    case VReal(r) => fmt.showReal(r)
    case VStr(s) => s
    case _ => fmt.showOther(v)
  }

  /** `d[key].attr = v`: a missing key raises `KeyError`, a non-object `AttributeError`. */
  function SetAttr(d: Dict, key: string, attr: string, v: Val): (r: Result<Dict>)
    ensures r.Ok? <==> key in d && d[key].VObj?
    ensures r.Ok? ==> r.value == d[key := VObj(d[key].cls, d[key].attrs[attr := v])]
    ensures key !in d ==> r == Err(KeyError(key))
  {
    if key !in d then Err(KeyError(key))
    else match d[key]
      case VObj(c, a) => Ok(d[key := VObj(c, a[attr := v])])
      case _ => Err(AttributeError(attr))
  }

  /**
   * `for k, v in kw.items(): setattr(d[key], k, v)`: nothing is looked up
   * when `kw` is empty; the attribute named in the error of a failing
   * `setattr` depends on the iteration order and is left blank.
   */
  function SetAttrs(d: Dict, key: string, kw: Dict): (r: Result<Dict>)
    ensures r.Ok? <==> kw == map[] || (key in d && d[key].VObj?)
    ensures kw != map[] && key !in d ==> r == Err(KeyError(key))
    ensures r.Ok? && kw != map[] ==> key in r.value && r.value[key].VObj? && r.value[key].cls == d[key].cls
    ensures r.Ok? && kw != map[] ==> forall a :: a in kw ==> a in r.value[key].attrs && r.value[key].attrs[a] == kw[a]
    ensures r.Ok? && kw != map[] ==>
              forall a :: a !in kw && a in d[key].attrs ==> a in r.value[key].attrs && r.value[key].attrs[a] == d[key].attrs[a]
    ensures r.Ok? ==> forall k :: k in d && k != key ==> k in r.value && r.value[k] == d[k]
    ensures r.Ok? && kw == map[] ==> r.value == d
  {
    if kw == map[] then Ok(d)
    else if key !in d then Err(KeyError(key))
    else match d[key]
      case VObj(c, a) => Ok(d[key := VObj(c, a + kw)])
      case _ => Err(AttributeError(""))
  }

  /** `d[key].attr`. */
  function GetAttr(d: Dict, key: string, attr: string): (r: Result<Val>)
    ensures r.Ok? <==> key in d && d[key].VObj? && attr in d[key].attrs
    ensures r.Ok? ==> r.value == d[key].attrs[attr]
  {
    if key !in d then Err(KeyError(key))
    else match d[key]
      case VObj(_, a) => if attr in a then Ok(a[attr]) else Err(AttributeError(attr))
      case _ => Err(AttributeError(attr))
  }

  /** `hasattr(d[key], attr)` once `d[key]` exists. */
  predicate HasAttr(v: Val, attr: string)
  {
    v.VObj? && attr in v.attrs
  }

  /** `os.path.join(a, b)`: an absolute `b` replaces `a`. */
  function Join(a: string, b: string): string
  {
    if |b| > 0 && b[0] == '/' then b
    else if |a| > 0 && a[|a| - 1] == '/' then a + b
    else a + "/" + b
  }
}
