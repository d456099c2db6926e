/**
 * The viewer's add-layer methods: the layer list they append to, the `reset_view` call that
 * the first layer triggers, and the loops that add the channels of an image and the items
 * read by plugins. Each method is proved to append exactly the layers its specification
 * function in `Calls` or `Plugins` describes.
 */
module Viewer {
  import opened Base
  import opened PyValues
  import opened Streams
  import opened Layers
  import opened Calls
  import opened Plugins

  class ViewerModel {
    /** The collaborators: layer names, image reader, plugin readers and dims. */
    const env: Env
    /** `self.layers`, oldest first. */
    var layers: seq<Layer>
    /** How many times `reset_view` has been called. */
    var resetCount: nat

    /** `reset_view` has run once since the list became non-empty, and never before. */
    ghost predicate Valid()
      reads this
    {
      resetCount == if layers == [] then 0 else 1
    }

    constructor (env: Env)
      ensures Valid()
      ensures this.env == env && layers == [] && resetCount == 0
    {
      this.env := env;
      layers := [];
      resetCount := 0;
    }

    /** `add_layer`: append the layer; reset the view when it is the only one. */
    method AddLayer(layer: Layer)
      requires Valid()
      modifies this
      ensures Valid()
      ensures layers == old(layers) + [layer]
      ensures resetCount == old(resetCount) + (if |layers| == 1 then 1 else 0)
    {
      layers := layers + [layer];
      if |layers| == 1 {
        resetCount := resetCount + 1;
      }
    }

    /** `add_image`: one layer, or one layer per channel when `channel_axis` is given. */
    method AddImage(data: Option<Data>, kw: map<string, Value>) returns (r: Result<Returned>)
      requires Valid()
      modifies this
      ensures Valid()
      ensures r == ImageCall(env.imread, data, kw)
      ensures layers == old(layers) + Added(r)
    {
      if !(kw.Keys <= IMAGE_PARAMS) {
        return Err(BadKeywords("image", kw.Keys - IMAGE_PARAMS));
      }
      var path := Arg(kw, "path", Nothing);
      var d: Data;
      if data.None? && path == Nothing {
        return Err(NeitherDataNorPath);
      } else if data.Some? && path != Nothing {
        return Err(BothDataAndPath);
      } else if data.None? {
        d := env.imread(path);
      } else {
        d := data.value;
      }

      var channelAxis := Arg(kw, "channel_axis", Nothing);
      if channelAxis == Nothing {
        var layer := SingleImage(d, kw);
        AddLayer(layer);
        return Ok(Single(layer));
      }

      var pyramid := IsPyramid(kw);
      var counted := ChannelCount(d, pyramid, channelAxis);
      if counted.Err? {
        return Err(counted.error);
      }
      var n := counted.value;
      var streams := ChannelStreams(kw, n);
      if streams.Err? {
        return Err(streams.error);
      }
      var z := streams.value;
      var blending := OrDefault(Arg(kw, "blending", Nothing), ADDITIVE);

      var layerList := AddChannels(d, channelAxis, pyramid, z, blending, n);
      return Ok(Several(layerList));
    }

    /** The channel loop of add_image: one layer per channel the zip yields, in channel order. */
    method AddChannels(d: Data, axis: Value, pyramid: bool, z: ChannelArgs, blending: Value, n: nat)
      returns (layerList: seq<Layer>)
      requires Valid()
      modifies this
      ensures Valid()
      ensures layerList == ChannelImages(d, axis, pyramid, z, blending, n)
      ensures layers == old(layers) + layerList
    {
      var count := z.Count(n);
      layerList := [];
      var k := 0;
      while k < count
        invariant 0 <= k <= count
        invariant |layerList| == k
        invariant forall i :: 0 <= i < k ==> layerList[i] == ChannelLayer(d, axis, pyramid, z, blending, i)
        invariant layers == old(layers) + layerList
        invariant Valid()
      {
        var layer := ChannelLayer(d, axis, pyramid, z, blending, k);
        AddLayer(layer);
        layerList := layerList + [layer];
        k := k + 1;
      }
    }

    /** `add_labels`. */
    method AddLabels(data: Option<Data>, kw: map<string, Value>) returns (r: Result<Layer>)
      requires Valid()
      modifies this
      ensures Valid()
      ensures r == LabelsCall(env.imread, data, kw)
      ensures layers == old(layers) + (if r.Ok? then [r.value] else [])
    {
      r := LabelsCall(env.imread, data, kw);
      if r.Ok? {
        AddLayer(r.value);
      }
    }

    /** `add_points`: without data, an empty set of points in `max(ndim, 2)` dimensions. */
    method AddPoints(data: Option<Data>, kw: map<string, Value>) returns (r: Result<Layer>)
      requires Valid()
      modifies this
      ensures Valid()
      ensures r == PointsCall(env.ndimOf(old(layers)), data, kw)
      ensures layers == old(layers) + (if r.Ok? then [r.value] else [])
    {
      r := PointsCall(env.ndimOf(layers), data, kw);
      if r.Ok? {
        AddLayer(r.value);
      }
    }

    /** `add_shapes`: without data, no shapes of no vertices in `max(ndim, 2)` dimensions. */
    method AddShapes(data: Option<Data>, kw: map<string, Value>) returns (r: Result<Layer>)
      requires Valid()
      modifies this
      ensures Valid()
      ensures r == ShapesCall(env.ndimOf(old(layers)), data, kw)
      ensures layers == old(layers) + (if r.Ok? then [r.value] else [])
    {
      r := ShapesCall(env.ndimOf(layers), data, kw);
      if r.Ok? {
        AddLayer(r.value);
      }
    }

    /** `add_surface`. */
    method AddSurface(data: Option<Data>, kw: map<string, Value>) returns (r: Result<Layer>)
      requires Valid()
      modifies this
      ensures Valid()
      ensures r == SurfaceCall(data, kw)
      ensures layers == old(layers) + (if r.Ok? then [r.value] else [])
    {
      r := SurfaceCall(data, kw);
      if r.Ok? {
        AddLayer(r.value);
      }
    }

    /** `add_vectors`. */
    method AddVectors(data: Option<Data>, kw: map<string, Value>) returns (r: Result<Layer>)
      requires Valid()
      modifies this
      ensures Valid()
      ensures r == VectorsCall(data, kw)
      ensures layers == old(layers) + (if r.Ok? then [r.value] else [])
    {
      r := VectorsCall(data, kw);
      if r.Ok? {
        AddLayer(r.value);
      }
    }

    /** `_add_layer_from_data`: resolve the layer type and call its `add_<type>` method. */
    method AddLayerFromData(t: LayerTuple) returns (r: Result<Returned>)
      requires Valid()
      modifies this
      ensures Valid()
      ensures r == FromData(env, old(layers), t)
      ensures layers == old(layers) + Added(r)
    {
      var layerType := ResolveType(t.layerType, t.data);
      if layerType !in env.names {
        return Err(UnrecognizedLayerType(layerType));
      }
      if layerType !in ADD_METHODS {
        return Err(NoAddMethod(layerType));
      }
      var kw := if t.meta.Some? then t.meta.value else map[];
      if layerType == "image" {
        r := AddImage(t.data, kw);
      } else if layerType == "labels" {
        var added := AddLabels(t.data, kw);
        r := Lift(added);
      } else if layerType == "points" {
        var added := AddPoints(t.data, kw);
        r := Lift(added);
      } else if layerType == "shapes" {
        var added := AddShapes(t.data, kw);
        r := Lift(added);
      } else if layerType == "surface" {
        var added := AddSurface(t.data, kw);
        r := Lift(added);
      } else {
        var added := AddVectors(t.data, kw);
        r := Lift(added);
      }
    }

    /** `_add_layers_with_plugins`: add every item the readers return, in order. */
    method AddLayersWithPlugins(arg: PathArg) returns (r: Result<seq<Layer>>)
      requires Valid()
      modifies this
      ensures Valid()
      ensures r == Outcome(PluginBatch(env, old(layers), arg))
      ensures layers == old(layers) + PluginBatch(env, old(layers), arg).added
    {
      var layerData := env.reader(arg);
      if layerData == [] {
        if arg == Stack([]) {
          return Err(IndexOutOfRange);
        }
        return Ok([]);
      }
      var added: seq<Layer> := [];
      var i := 0;
      while i < |layerData|
        invariant 0 <= i <= |layerData|
        invariant Fold(TupleStep(env), old(layers), layerData[..i]) == Batch(added, None)
        invariant layers == old(layers) + added
        invariant Valid()
      {
        ghost var before := layers;
        var res := AddLayerFromData(layerData[i]);
        ghost var b := TupleStep(env)(before, layerData[i]);
        assert b == if res.Ok? then Batch(res.value.AsList(), None) else Batch([], Some(res.error));
        FoldStep(TupleStep(env), old(layers), layerData, i, added);
        assert layers == before + b.added;
        AppendAssoc(old(layers), added, b.added);
        if res.Err? {
          FoldFailureSticks(TupleStep(env), old(layers), layerData, i + 1);
          return Err(res.error);
        }
        added := added + res.value.AsList();
        i := i + 1;
      }
      assert layerData[..i] == layerData;
      return Ok(added);
    }

    /** `add_path`: read the paths as one stack, or one after another. */
    method AddPath(path: Value, stack: bool) returns (r: Result<seq<Layer>>)
      requires Valid()
      modifies this
      ensures Valid()
      ensures r == Outcome(PathBatch(env, old(layers), path, stack))
      ensures layers == old(layers) + PathBatch(env, old(layers), path, stack).added
    {
      var normalised := NormalisePaths(path);
      if normalised.Err? {
        return Err(normalised.error);
      }
      if stack {
        r := AddLayersWithPlugins(Stack(normalised.value));
      } else {
        r := AddEachPath(normalised.value);
      }
    }

    /** The unstacked loop of `add_path`: each path read in turn, stopping at the first exception. */
    method AddEachPath(paths: seq<string>) returns (r: Result<seq<Layer>>)
      requires Valid()
      modifies this
      ensures Valid()
      ensures r == Outcome(Fold(PathStep(env), old(layers), paths))
      ensures layers == old(layers) + Fold(PathStep(env), old(layers), paths).added
    {
      var added: seq<Layer> := [];
      var i := 0;
      while i < |paths|
        invariant 0 <= i <= |paths|
        invariant Fold(PathStep(env), old(layers), paths[..i]) == Batch(added, None)
        invariant layers == old(layers) + added
        invariant Valid()
      {
        ghost var before := layers;
        var res := AddLayersWithPlugins(One(paths[i]));
        ghost var b := PathStep(env)(before, paths[i]);
        assert b == PluginBatch(env, before, One(paths[i]));
        FoldStep(PathStep(env), old(layers), paths, i, added);
        assert layers == before + b.added;
        AppendAssoc(old(layers), added, b.added);
        if res.Err? {
          FoldFailureSticks(PathStep(env), old(layers), paths, i + 1);
          return Err(res.error);
        }
        added := added + res.value;
        i := i + 1;
      }
      assert paths[..i] == paths;
      return Ok(added);
    }
  }
}
