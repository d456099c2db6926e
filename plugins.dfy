/**
 * Opening paths through reader plugins: add_path, `_add_layers_with_plugins` and
 * `_add_layer_from_data`. The readers, `magic_imread`, the layer names and the viewer's
 * dims are collaborators this model does not see; they are the uninterpreted fields of `Env`.
 */
module Plugins {
  import opened Base
  import opened PyValues
  import opened Layers
  import opened Calls

  /** What a reader is given: one path, or the whole list of paths as a stack. */
  datatype PathArg = One(path: string) | Stack(paths: seq<string>)

  /** One `(data, meta, layer_type)` item of a reader's result; missing items are None. */
  datatype LayerTuple = LayerTuple(data: Option<Data>, meta: Option<map<string, Value>>, layerType: Option<string>)

  /** The collaborators of the add-layer code. */
  datatype Env = Env(
    /** `layers.NAMES`: the recognised layer type names. */
    names: set<string>,
    /** `io.magic_imread`. */
    imread: Value -> Data,
    /** `read_data_with_plugins`; None and an empty list are both "nothing read". */
    reader: PathArg -> seq<LayerTuple>,
    /** `dims.ndim` of a viewer holding the given layers. */
    ndimOf: seq<Layer> -> nat)

  /**
   * The layer type `_add_layer_from_data` uses: the given type lower-cased; when it is
   * missing or empty, labels for int32, uint32, int64 and uint64 arrays and image otherwise.
   */
  function ResolveType(layerType: Option<string>, data: Option<Data>): (r: string)
    ensures r != "" && IsLower(r)
    ensures layerType.Some? && layerType.value != "" ==> r == Lower(layerType.value)
    ensures layerType.None? || layerType.value == "" ==>
              (r == "labels" || r == "image")
              && (r == "labels" <==> data.Some? && data.value.NdArray? && IsWideInteger(data.value.dtype))
  {
    var given := if layerType.Some? then layerType.value else "";
    LowerIsLower(given);
    var lowered := Lower(given);
    if lowered != "" then lowered
    else if data.Some? && data.value.NdArray? && IsWideInteger(data.value.dtype) then "labels"
    else "image"
  }

  function Lift(r: Result<Layer>): Result<Returned> {
    if r.Ok? then Ok(Single(r.value)) else Err(r.error)
  }

  /** `getattr(self, 'add_' + layer_type)(data, **kw)` on a viewer holding `current`. */
  function Call(env: Env, current: seq<Layer>, layerType: string, data: Option<Data>, kw: map<string, Value>): (r: Result<Returned>)
    requires layerType in ADD_METHODS
    ensures r == Err(BadKeywords(layerType, kw.Keys - Params(layerType))) <==> !(kw.Keys <= Params(layerType))
    ensures r.Ok? ==> forall l :: l in r.value.AsList() ==> l.kind == KindOf(layerType)
    ensures r.Ok? && layerType != "image" ==> r.value.Single?
  {
    if layerType == "image" then ImageCall(env.imread, data, kw)
    else if layerType == "labels" then Lift(LabelsCall(env.imread, data, kw))
    else if layerType == "points" then Lift(PointsCall(env.ndimOf(current), data, kw))
    else if layerType == "shapes" then Lift(ShapesCall(env.ndimOf(current), data, kw))
    else if layerType == "surface" then Lift(SurfaceCall(data, kw))
    else Lift(VectorsCall(data, kw))
  }

  /** `_add_layer_from_data(*t)` on a viewer holding `current`. */
  function FromData(env: Env, current: seq<Layer>, t: LayerTuple): (r: Result<Returned>)
    ensures var lt := ResolveType(t.layerType, t.data);
      && (lt !in env.names ==> r == Err(UnrecognizedLayerType(lt)))
      && (lt in env.names && lt !in ADD_METHODS ==> r == Err(NoAddMethod(lt)))
      && (lt in env.names && lt in ADD_METHODS ==>
            r == Call(env, current, lt, t.data, if t.meta.Some? then t.meta.value else map[]))
  {
    var layerType := ResolveType(t.layerType, t.data);
    if layerType !in env.names then Err(UnrecognizedLayerType(layerType))
    else if layerType !in ADD_METHODS then Err(NoAddMethod(layerType))
    else Call(env, current, layerType, t.data, if t.meta.Some? then t.meta.value else map[])
  }

  /**
   * A `meta` holding a keyword the resolved `add_<type>` method does not take (`data`
   * included) raises TypeError, and only then is that the exception raised.
   */
  lemma FromDataRejectsUnknownKeywords(env: Env, current: seq<Layer>, t: LayerTuple)
    requires ResolveType(t.layerType, t.data) in env.names
    requires ResolveType(t.layerType, t.data) in ADD_METHODS
    ensures var lt := ResolveType(t.layerType, t.data);
            var keys := if t.meta.Some? then t.meta.value.Keys else {};
            FromData(env, current, t) == Err(BadKeywords(lt, keys - Params(lt))) <==> !(keys <= Params(lt))
  {
    var kw: map<string, Value> := if t.meta.Some? then t.meta.value else map[];
    assert kw.Keys == if t.meta.Some? then t.meta.value.Keys else {};
  }

  /** The layer type a reader reports is matched without regard to ASCII case. */
  lemma LayerTypeIgnoresCase(env: Env, current: seq<Layer>, t: LayerTuple, u: LayerTuple)
    requires t.data == u.data && t.meta == u.meta
    requires t.layerType.Some? && u.layerType.Some?
    requires Lower(t.layerType.value) == Lower(u.layerType.value)
    ensures FromData(env, current, t) == FromData(env, current, u)
  {
    LowerIsLower(t.layerType.value);
    LowerIsLower(u.layerType.value);
  }

  /** The layers a sequence of steps added, and the exception that stopped it, if any. */
  datatype Batch = Batch(added: seq<Layer>, failure: Option<Error>)

  /** The result the Python code returns for a batch: the added layers, or the exception. */
  function Outcome(b: Batch): Result<seq<Layer>> {
    if b.failure.Some? then Err(b.failure.value) else Ok(b.added)
  }

  /**
   * Running `step` on each item in order, each on the layers as they stand after the
   * earlier ones, and stopping at the first exception (the layers added before it stay).
   */
  function Fold<T>(step: (seq<Layer>, T) -> Batch, base: seq<Layer>, items: seq<T>): (r: Batch)
    ensures items == [] ==> r == Batch([], None)
    ensures |items| == 1 ==> r == step(base, items[0])
    decreases |items|
  {
    if items == [] then Batch([], None)
    else
      var before := Fold(step, base, items[..|items| - 1]);
      if before.failure.Some? then before
      else
        var last := step(base + before.added, items[|items| - 1]);
        assert |items| == 1 ==> base + before.added == base && before.added + last.added == last.added;
        Batch(before.added + last.added, last.failure)
  }

  /**
   * Regrouping appended layer lists. Stated apart so that the loops in `Viewer` use it
   * without re-deriving sequence equality in their own, much larger, proof context.
   */
  lemma AppendAssoc(a: seq<Layer>, b: seq<Layer>, c: seq<Layer>)
    ensures (a + b) + c == a + (b + c)
  {
  }

  /** Extending a prefix that raised nothing by one item runs the step once more. */
  lemma FoldStep<T>(step: (seq<Layer>, T) -> Batch, base: seq<Layer>, items: seq<T>, i: nat, added: seq<Layer>)
    requires i < |items|
    requires Fold(step, base, items[..i]) == Batch(added, None)
    ensures var last := step(base + added, items[i]);
            Fold(step, base, items[..i + 1]) == Batch(added + last.added, last.failure)
  {
    assert items[..i + 1][..i] == items[..i];
  }

  /** Once a prefix has raised, the later items change nothing. */
  lemma {:induction false} FoldFailureSticks<T>(step: (seq<Layer>, T) -> Batch, base: seq<Layer>, items: seq<T>, k: nat)
    requires k <= |items|
    requires Fold(step, base, items[..k]).failure.Some?
    ensures Fold(step, base, items) == Fold(step, base, items[..k])
  {
    if k == |items| {
      assert items[..k] == items;
    } else {
      var front := items[..|items| - 1];
      assert front[..k] == items[..k];
      FoldFailureSticks(step, base, front, k);
    }
  }

  /**
   * Running over `xs + ys` adds the layers of `xs` followed by those of `ys` run on the
   * layers as `xs` left them.
   */
  lemma {:induction false} FoldAppend<T>(step: (seq<Layer>, T) -> Batch, base: seq<Layer>, xs: seq<T>, ys: seq<T>)
    requires Fold(step, base, xs).failure.None?
    ensures var a := Fold(step, base, xs);
            var b := Fold(step, base + a.added, ys);
            Fold(step, base, xs + ys) == Batch(a.added + b.added, b.failure)
  {
    var a := Fold(step, base, xs);
    if ys == [] {
      assert xs + ys == xs;
    } else {
      var front := ys[..|ys| - 1];
      assert (xs + ys)[..|xs + ys| - 1] == xs + front;
      assert (xs + ys)[|xs + ys| - 1] == ys[|ys| - 1];
      FoldAppend(step, base, xs, front);
      var b' := Fold(step, base + a.added, front);
      if b'.failure.None? {
        assert base + (a.added + b'.added) == (base + a.added) + b'.added;
        assert (a.added + b'.added) + step((base + a.added) + b'.added, ys[|ys| - 1]).added
            == a.added + (b'.added + step((base + a.added) + b'.added, ys[|ys| - 1]).added);
      }
    }
  }

  /** One `_add_layer_from_data` call as a step: a raised exception stops the batch. */
  function TupleStep(env: Env): (seq<Layer>, LayerTuple) -> Batch {
    (current: seq<Layer>, t: LayerTuple) =>
      var r := FromData(env, current, t);
      if r.Ok? then Batch(r.value.AsList(), None) else Batch([], Some(r.error))
  }

  /**
   * `_add_layers_with_plugins(arg)`: nothing read adds nothing (reporting a stack of an empty
   * list indexes its first path and raises); otherwise every item read is added in order.
   */
  function PluginBatch(env: Env, current: seq<Layer>, arg: PathArg): (r: Batch)
    ensures env.reader(arg) == [] ==> r.added == [] && (r.failure.Some? <==> arg == Stack([]))
    ensures env.reader(arg) == [] && r.failure.Some? ==> r.failure.value == IndexOutOfRange
    ensures |env.reader(arg)| == 1 ==> r == TupleStep(env)(current, env.reader(arg)[0])
    ensures env.reader(arg) != [] ==> r == Fold(TupleStep(env), current, env.reader(arg))
  {
    var layerData := env.reader(arg);
    if layerData == [] then
      if arg == Stack([]) then Batch([], Some(IndexOutOfRange)) else Batch([], None)
    else Fold(TupleStep(env), current, layerData)
  }

  /** The paths of a list, when every item is a string. */
  function Strings(items: seq<Value>): (r: Option<seq<string>>)
    ensures r.Some? <==> forall i :: 0 <= i < |items| ==> items[i].Str?
    ensures r.Some? ==> |r.value| == |items| && forall i :: 0 <= i < |items| ==> r.value[i] == items[i].s
  {
    if items == [] then Some([])
    else if !items[0].Str? then None
    else
      var rest := Strings(items[1..]);
      assert forall i :: 1 <= i < |items| ==> items[i] == items[1..][i - 1];
      if rest.None? then None else Some([items[0].s] + rest.value)
  }

  /** add_path's `path` as a list: a string is a list of one; a list must hold strings only. */
  function NormalisePaths(path: Value): (r: Result<seq<string>>)
    ensures path.Str? ==> r == Ok([path.s])
    ensures r.Ok? <==> path.Str? || (path.List? && forall i :: 0 <= i < |path.items| ==> path.items[i].Str?)
    ensures path.List? && r.Ok? ==> |r.value| == |path.items| && forall i :: 0 <= i < |path.items| ==> r.value[i] == path.items[i].s
    ensures r.Err? ==> r.error == NotAPath
  {
    match path
    case Str(s) => Ok([s])
    case List(items) => if Strings(items).Some? then Ok(Strings(items).value) else Err(NotAPath)
    case _ => Err(NotAPath)
  }

  /** One path of an unstacked add_path as a step. */
  function PathStep(env: Env): (seq<Layer>, string) -> Batch {
    (current: seq<Layer>, p: string) => PluginBatch(env, current, One(p))
  }

  /** `add_path(path, stack)` on a viewer holding `current`. */
  function PathBatch(env: Env, current: seq<Layer>, path: Value, stack: bool): (r: Batch)
    ensures NormalisePaths(path).Err? ==> r == Batch([], Some(NotAPath))
    ensures NormalisePaths(path).Ok? && stack ==> r == PluginBatch(env, current, Stack(NormalisePaths(path).value))
    ensures NormalisePaths(path).Ok? && !stack ==> r == Fold(PathStep(env), current, NormalisePaths(path).value)
  {
    match NormalisePaths(path)
    case Err(e) => Batch([], Some(e))
    case Ok(paths) =>
      if stack then PluginBatch(env, current, Stack(paths))
      else Fold(PathStep(env), current, paths)
  }

  /** An unstacked add_path of one string is the plugin call on that string alone. */
  lemma SinglePathReadsOnce(env: Env, current: seq<Layer>, s: string)
    ensures PathBatch(env, current, Str(s), false) == PluginBatch(env, current, One(s))
  {
    var b := PluginBatch(env, current, One(s));
    assert [s][..0] == [];
    assert current + [] == current;
    assert PathStep(env)(current, s) == b;
    assert Fold(PathStep(env), current, [s]) == Batch([] + b.added, b.failure);
    assert [] + b.added == b.added;
  }

  /**
   * An unstacked add_path adds the layers of its first path, then those of the remaining
   * paths read on the layers as the first left them.
   */
  lemma PathsInOrder(env: Env, current: seq<Layer>, p: string, rest: seq<string>)
    requires PluginBatch(env, current, One(p)).failure.None?
    ensures var first := PluginBatch(env, current, One(p));
            var after := Fold(PathStep(env), current + first.added, rest);
            Fold(PathStep(env), current, [p] + rest) == Batch(first.added + after.added, after.failure)
  {
    var first := PluginBatch(env, current, One(p));
    assert [p][..0] == [];
    assert current + [] == current;
    assert Fold(PathStep(env), current, [p]) == Batch(first.added, None);
    FoldAppend(PathStep(env), current, [p], rest);
  }

  /** Paths no plugin can read add nothing and raise nothing. */
  lemma {:induction false} UnreadablePathsAddNothing(env: Env, current: seq<Layer>, paths: seq<string>)
    requires forall p :: p in paths ==> env.reader(One(p)) == []
    ensures Fold(PathStep(env), current, paths) == Batch([], None)
  {
    if paths != [] {
      var front := paths[..|paths| - 1];
      assert forall p :: p in front ==> p in paths;
      UnreadablePathsAddNothing(env, current, front);
      assert current + [] == current;
      assert paths[|paths| - 1] in paths;
    }
  }
}
