/**
 * What each `add_<kind>` method of the viewer hands to the layer constructors, as a function
 * of its arguments: the argument checks, the defaults and, for add_image with a
 * `channel_axis`, the split into one layer per channel. The methods of `Viewer.ViewerModel`
 * append exactly these layers.
 */
module Calls {
  import opened Base
  import opened PyValues
  import opened Streams
  import opened Layers

  /** `add_image` and `add_labels` take exactly one of `data` and `path`; a path is read with `imread`. */
  function LoadData(imread: Value -> Data, data: Option<Data>, path: Value): (r: Result<Data>)
    ensures r == Err(NeitherDataNorPath) <==> data.None? && path == Nothing
    ensures r == Err(BothDataAndPath) <==> data.Some? && path != Nothing
    ensures r.Ok? <==> (data.Some? <==> path == Nothing)
    ensures r.Ok? && data.Some? ==> r.value == data.value
    ensures r.Ok? && data.None? ==> r.value == imread(path)
  {
    if data.None? && path == Nothing then Err(NeitherDataNorPath)
    else if data.Some? && path != Nothing then Err(BothDataAndPath)
    else if data.None? then Ok(imread(path))
    else Ok(data.value)
  }

  /** The data handed to a constructor that takes `data` as it was given. */
  function Supplied(data: Option<Data>): LayerData {
    if data.Some? then Given(data.value) else NoData
  }

  function IsPyramid(kw: map<string, Value>): bool {
    Truthy(Arg(kw, "is_pyramid", Nothing))
  }

  /** The layer add_image makes when no `channel_axis` is given. */
  function SingleImage(d: Data, kw: map<string, Value>): Layer {
    Layer(Image, Given(d),
      Arg(kw, "name", Nothing),
      OrDefault(Arg(kw, "colormap", Nothing), GRAY),
      Arg(kw, "contrast_limits", Nothing),
      Arg(kw, "gamma", Int(1)),
      OrDefault(Arg(kw, "blending", Nothing), TRANSLUCENT),
      None)
  }

  /** `data[0]`. */
  function Item0(d: Data): (r: Result<Data>)
    ensures r.Ok? <==> (d.ArrayList? && d.items != []) || (d.NdArray? && d.shape != [] && d.shape[0] > 0)
    ensures d.ArrayList? && d.items != [] ==> r == Ok(d.items[0])
    ensures d.NdArray? && d.shape != [] && d.shape[0] > 0 ==> r == Ok(NdArray(d.id, d.shape[1..], d.dtype))
    ensures (d.ArrayList? && d.items == []) || (d.NdArray? && (d.shape == [] || d.shape[0] == 0)) ==> r == Err(IndexOutOfRange)
    ensures d.OtherObject? ==> r == Err(NotSubscriptable)
  {
    match d
    case ArrayList(items) => if items == [] then Err(IndexOutOfRange) else Ok(items[0])
    case NdArray(id, shape, dtype) =>
      if shape == [] || shape[0] == 0 then Err(IndexOutOfRange) else Ok(NdArray(id, shape[1..], dtype))
    case OtherObject(_) => Err(NotSubscriptable)
  }

  /**
   * `n_channels`: the extent of the channel axis, `data.shape[channel_axis]`, or that of the
   * first level, `data[0].shape[channel_axis]`, for a pyramid.
   */
  function ChannelCount(d: Data, pyramid: bool, axis: Value): (r: Result<nat>)
    ensures var target := if pyramid then Item0(d) else Ok(d);
      && (r.Ok? <==> target.Ok? && target.value.NdArray? && AsIndex(axis).Some?
                     && -|target.value.shape| <= AsIndex(axis).value < |target.value.shape|)
      && (r.Ok? ==> r.value == target.value.shape[(AsIndex(axis).value + |target.value.shape|) % |target.value.shape|])
      // data[0] raised
      && (target.Err? ==> r == Err(target.error))
      // AttributeError: no `.shape`
      && (target.Ok? && !target.value.NdArray? ==> r == Err(NoShape))
      // TypeError: the axis is not an integer
      && (target.Ok? && target.value.NdArray? && AsIndex(axis).None? ==> r == Err(NotAnIndex))
      // IndexError: the axis is out of range
      && (target.Ok? && target.value.NdArray? && AsIndex(axis).Some? && r.Err? ==> r == Err(IndexOutOfRange))
  {
    var target := if pyramid then Item0(d) else Ok(d);
    if target.Err? then Err(target.error)
    else if !target.value.NdArray? then Err(NoShape)
    else match AsIndex(axis)
      case None => Err(NotAnIndex)
      case Some(i) => PyIndex(target.value.shape, i)
  }

  /** The colormaps of a channel split: the defaults when none is given, else `ensure_iterable`. */
  function ColormapStream(colormap: Value, n: nat): (r: Stream)
    ensures colormap == Nothing && n < 3 ==> r.Reaches(n) && forall k: nat :: k < n ==> r.At(k) == MAGENTA_GREEN[k]
    ensures colormap == Nothing && n >= 3 ==> r.Length().None? && forall k: nat :: r.At(k) == CYMRGB[k % |CYMRGB|]
    ensures colormap != Nothing ==> r == EnsureIterable(colormap)
  {
    if colormap == Nothing then
      if n < 3 then Items(MAGENTA_GREEN) else Cycle(CYMRGB)
    else EnsureIterable(colormap)
  }

  /**
   * The contrast limits of a channel split: a single pair (its first item is not iterable)
   * is repeated for every channel, a list of pairs gives pair `i` to channel `i`, and None
   * is None for every channel. Indexing an empty list or string raises.
   */
  function ClimsStream(v: Value): (r: Result<Stream>)
    ensures v == Nothing ==> r == Ok(Repeat(Nothing))
    ensures v.List? && v.items != [] && !IsIterable(v.items[0]) ==> r == Ok(Repeat(v))
    ensures v.List? && v.items != [] && IsIterable(v.items[0]) ==> r == Ok(Items(v.items))
    ensures v == List([]) || v == Str("") ==> r == Err(IndexOutOfRange)
    ensures v.Int? || v.Real? || v.Bool? ==> r == Err(NotSubscriptable)
    ensures v.Str? && v.s != "" ==> r == Ok(Repeat(v))
  {
    if v != Nothing then
      match First(v)
      case Err(e) => Err(e)
      case Ok(first) => if !IsIterable(first) then Ok(Repeat(v)) else Ok(EnsureIterable(v))
    else Ok(EnsureIterable(v))
  }

  /** The four per-channel argument streams zipped with `range(n_channels)`. */
  datatype ChannelArgs = ChannelArgs(colormaps: Stream, clims: Stream, gammas: Stream, names: Stream) {
    predicate Reaches(c: nat) {
      colormaps.Reaches(c) && clims.Reaches(c) && gammas.Reaches(c) && names.Reaches(c)
    }

    /** How many channels the zip yields: the minimum of `n` and every finite stream's length. */
    function Count(n: nat): (c: nat)
      ensures c <= n && Reaches(c)
      ensures c == n || colormaps.Length() == Some(c) || clims.Length() == Some(c)
                     || gammas.Length() == Some(c) || names.Length() == Some(c)
    {
      var streams := [colormaps, clims, gammas, names];
      var c := ZipCount(n, streams);
      assert streams[0].Reaches(c) && streams[1].Reaches(c) && streams[2].Reaches(c) && streams[3].Reaches(c);
      c
    }
  }

  /** The argument streams of a channel split of `n` channels. */
  function ChannelStreams(kw: map<string, Value>, n: nat): (r: Result<ChannelArgs>)
    ensures var clims := ClimsStream(Arg(kw, "contrast_limits", Nothing));
      && (r.Ok? <==> clims.Ok?)
      && (clims.Err? ==> r == Err(clims.error))
    ensures r.Ok? ==>
      && r.value.colormaps == ColormapStream(Arg(kw, "colormap", Nothing), n)
      && Ok(r.value.clims) == ClimsStream(Arg(kw, "contrast_limits", Nothing))
      && r.value.gammas == EnsureIterable(Arg(kw, "gamma", Int(1)))
      && r.value.names == EnsureIterable(Arg(kw, "name", Nothing))
  {
    match ClimsStream(Arg(kw, "contrast_limits", Nothing))
    case Err(e) => Err(e)
    case Ok(clims) =>
      Ok(ChannelArgs(
        ColormapStream(Arg(kw, "colormap", Nothing), n),
        clims,
        EnsureIterable(Arg(kw, "gamma", Int(1))),
        EnsureIterable(Arg(kw, "name", Nothing))))
  }

  /** The layer for channel `k` of a channel split. */
  function ChannelLayer(d: Data, axis: Value, pyramid: bool, z: ChannelArgs, blending: Value, k: nat): Layer
    requires z.Reaches(k + 1)
  {
    Layer(Image, ChannelOf(d, axis, k, pyramid),
      z.names.At(k), z.colormaps.At(k), z.clims.At(k), z.gammas.At(k), blending, Some(k))
  }

  /** The layers of a channel split, in channel order. */
  function ChannelImages(d: Data, axis: Value, pyramid: bool, z: ChannelArgs, blending: Value, n: nat): seq<Layer> {
    var c := z.Count(n);
    seq(c, k requires 0 <= k < c => ChannelLayer(d, axis, pyramid, z, blending, k))
  }

  /** The channel-split branch of add_image: one layer per channel, blending defaulting to additive. */
  function ChannelSplit(d: Data, kw: map<string, Value>): (r: Result<seq<Layer>>)
    ensures var counted := ChannelCount(d, IsPyramid(kw), Arg(kw, "channel_axis", Nothing));
      && (counted.Err? ==> r == Err(counted.error))
      && (r.Ok? ==> counted.Ok? && |r.value| <= counted.value)
    ensures var counted := ChannelCount(d, IsPyramid(kw), Arg(kw, "channel_axis", Nothing));
      var clims := ClimsStream(Arg(kw, "contrast_limits", Nothing));
      && (r.Ok? <==> counted.Ok? && clims.Ok?)
      && (counted.Ok? && clims.Err? ==> r == Err(clims.error))
    ensures r.Ok? ==> forall k :: 0 <= k < |r.value| ==>
      && r.value[k].kind == Image && r.value[k].channel == Some(k)
      && r.value[k].data == ChannelOf(d, Arg(kw, "channel_axis", Nothing), k, IsPyramid(kw))
      && r.value[k].blending == OrDefault(Arg(kw, "blending", Nothing), ADDITIVE)
  {
    var axis := Arg(kw, "channel_axis", Nothing);
    match ChannelCount(d, IsPyramid(kw), axis)
    case Err(e) => Err(e)
    case Ok(n) =>
      match ChannelStreams(kw, n)
      case Err(e) => Err(e)
      case Ok(z) =>
        Ok(ChannelImages(d, axis, IsPyramid(kw), z, OrDefault(Arg(kw, "blending", Nothing), ADDITIVE), n))
  }

  /** `add_image(data, **kw)`. */
  function ImageCall(imread: Value -> Data, data: Option<Data>, kw: map<string, Value>): (r: Result<Returned>)
    ensures r == Err(BadKeywords("image", kw.Keys - IMAGE_PARAMS)) <==> !(kw.Keys <= IMAGE_PARAMS)
    ensures var loaded := LoadData(imread, data, Arg(kw, "path", Nothing));
      && (kw.Keys <= IMAGE_PARAMS && loaded.Err? ==> r == Err(loaded.error))
      && (r.Ok? ==> loaded.Ok? && forall l :: l in r.value.AsList() ==> l.kind == Image)
    ensures r.Ok? ==> (r.value.Single? <==> Arg(kw, "channel_axis", Nothing) == Nothing)
    ensures var loaded := LoadData(imread, data, Arg(kw, "path", Nothing));
      kw.Keys <= IMAGE_PARAMS && loaded.Ok? && Arg(kw, "channel_axis", Nothing) != Nothing ==>
        var split := ChannelSplit(loaded.value, kw);
        && (r.Ok? <==> split.Ok?)
        && (split.Err? ==> r == Err(split.error))
  {
    if !(kw.Keys <= IMAGE_PARAMS) then Err(BadKeywords("image", kw.Keys - IMAGE_PARAMS))
    else match LoadData(imread, data, Arg(kw, "path", Nothing))
      case Err(e) => Err(e)
      case Ok(d) =>
        if Arg(kw, "channel_axis", Nothing) == Nothing then Ok(Single(SingleImage(d, kw)))
        else match ChannelSplit(d, kw)
          case Err(e) => Err(e)
          case Ok(ls) => Ok(Several(ls))
  }

  /** `add_labels(data, **kw)`. */
  function LabelsCall(imread: Value -> Data, data: Option<Data>, kw: map<string, Value>): (r: Result<Layer>)
    ensures r == Err(BadKeywords("labels", kw.Keys - LABELS_PARAMS)) <==> !(kw.Keys <= LABELS_PARAMS)
    ensures var loaded := LoadData(imread, data, Arg(kw, "path", Nothing));
      && (kw.Keys <= LABELS_PARAMS ==> (r.Ok? <==> loaded.Ok?))
      && (kw.Keys <= LABELS_PARAMS && loaded.Err? ==> r == Err(loaded.error))
      && (r.Ok? ==> r.value.kind == Labels && r.value.data == Given(loaded.value) && r.value.channel == None)
    ensures r.Ok? ==> r.value.name == Arg(kw, "name", Nothing) && r.value.blending == Arg(kw, "blending", TRANSLUCENT)
  {
    if !(kw.Keys <= LABELS_PARAMS) then Err(BadKeywords("labels", kw.Keys - LABELS_PARAMS))
    else match LoadData(imread, data, Arg(kw, "path", Nothing))
      case Err(e) => Err(e)
      case Ok(d) =>
        Ok(Layer(Labels, Given(d), Arg(kw, "name", Nothing), Nothing, Nothing, Nothing,
          Arg(kw, "blending", TRANSLUCENT), None))
  }

  /** `max(ndim, 2)`: the dimensionality of empty points or shapes data. */
  function EmptyDims(ndim: nat): (r: nat)
    ensures r >= 2 && r >= ndim && (r == 2 || r == ndim)
  {
    if ndim < 2 then 2 else ndim
  }

  /** `add_points(data, **kw)` on a viewer whose dims have `ndim` dimensions. */
  function PointsCall(ndim: nat, data: Option<Data>, kw: map<string, Value>): (r: Result<Layer>)
    ensures r.Err? <==> !(kw.Keys <= POINTS_PARAMS)
    ensures r.Err? ==> r == Err(BadKeywords("points", kw.Keys - POINTS_PARAMS))
    ensures r.Ok? ==> (r.value.kind == Points && r.value.channel == None
        && r.value.data == (if data.Some? then Given(data.value) else EmptyArray([0, EmptyDims(ndim)]))
        && r.value.name == Arg(kw, "name", Nothing) && r.value.blending == Arg(kw, "blending", TRANSLUCENT))
  {
    if !(kw.Keys <= POINTS_PARAMS) then Err(BadKeywords("points", kw.Keys - POINTS_PARAMS))
    else
      Ok(Layer(Points, if data.None? then EmptyArray([0, EmptyDims(ndim)]) else Given(data.value),
        Arg(kw, "name", Nothing), Nothing, Nothing, Nothing, Arg(kw, "blending", TRANSLUCENT), None))
  }

  /** `add_shapes(data, **kw)` on a viewer whose dims have `ndim` dimensions. */
  function ShapesCall(ndim: nat, data: Option<Data>, kw: map<string, Value>): (r: Result<Layer>)
    ensures r.Err? <==> !(kw.Keys <= SHAPES_PARAMS)
    ensures r.Err? ==> r == Err(BadKeywords("shapes", kw.Keys - SHAPES_PARAMS))
    ensures r.Ok? ==> (r.value.kind == Shapes && r.value.channel == None
        && r.value.data == (if data.Some? then Given(data.value) else EmptyArray([0, 0, EmptyDims(ndim)]))
        && r.value.name == Arg(kw, "name", Nothing) && r.value.blending == Arg(kw, "blending", TRANSLUCENT))
  {
    if !(kw.Keys <= SHAPES_PARAMS) then Err(BadKeywords("shapes", kw.Keys - SHAPES_PARAMS))
    else
      Ok(Layer(Shapes, if data.None? then EmptyArray([0, 0, EmptyDims(ndim)]) else Given(data.value),
        Arg(kw, "name", Nothing), Nothing, Nothing, Nothing, Arg(kw, "blending", TRANSLUCENT), None))
  }

  /** `add_surface(data, **kw)`. */
  function SurfaceCall(data: Option<Data>, kw: map<string, Value>): (r: Result<Layer>)
    ensures r.Err? <==> !(kw.Keys <= SURFACE_PARAMS)
    ensures r.Err? ==> r == Err(BadKeywords("surface", kw.Keys - SURFACE_PARAMS))
    ensures r.Ok? ==> (r.value.kind == Surface && r.value.channel == None
        && r.value.data == (if data.Some? then Given(data.value) else NoData)
        && r.value.name == Arg(kw, "name", Nothing)
        && r.value.colormap == Arg(kw, "colormap", GRAY) && r.value.gamma == Arg(kw, "gamma", Int(1))
        && r.value.contrastLimits == Arg(kw, "contrast_limits", Nothing)
        && r.value.blending == Arg(kw, "blending", TRANSLUCENT))
  {
    if !(kw.Keys <= SURFACE_PARAMS) then Err(BadKeywords("surface", kw.Keys - SURFACE_PARAMS))
    else
      Ok(Layer(Surface, Supplied(data), Arg(kw, "name", Nothing), Arg(kw, "colormap", GRAY),
        Arg(kw, "contrast_limits", Nothing), Arg(kw, "gamma", Int(1)), Arg(kw, "blending", TRANSLUCENT), None))
  }

  /** `add_vectors(data, **kw)`. */
  function VectorsCall(data: Option<Data>, kw: map<string, Value>): (r: Result<Layer>)
    ensures r.Err? <==> !(kw.Keys <= VECTORS_PARAMS)
    ensures r.Err? ==> r == Err(BadKeywords("vectors", kw.Keys - VECTORS_PARAMS))
    ensures r.Ok? ==> (r.value.kind == Vectors && r.value.channel == None
        && r.value.data == (if data.Some? then Given(data.value) else NoData)
        && r.value.name == Arg(kw, "name", Nothing) && r.value.blending == Arg(kw, "blending", TRANSLUCENT))
  {
    if !(kw.Keys <= VECTORS_PARAMS) then Err(BadKeywords("vectors", kw.Keys - VECTORS_PARAMS))
    else
      Ok(Layer(Vectors, Supplied(data), Arg(kw, "name", Nothing), Nothing, Nothing, Nothing,
        Arg(kw, "blending", TRANSLUCENT), None))
  }

  /** add_image raises ValueError unless exactly one of `data` and `path` is given. */
  lemma ImageNeedsDataOrPath(imread: Value -> Data, data: Option<Data>, kw: map<string, Value>)
    requires kw.Keys <= IMAGE_PARAMS
    ensures ImageCall(imread, data, kw) == Err(NeitherDataNorPath) <==> data.None? && Arg(kw, "path", Nothing) == Nothing
    ensures ImageCall(imread, data, kw) == Err(BothDataAndPath) <==> data.Some? && Arg(kw, "path", Nothing) != Nothing
  {
  }

  /**
   * Without `channel_axis`, add_image makes exactly one layer of the data (or of the file
   * read from `path`), colormap defaulting to gray and blending to translucent.
   */
  lemma SingleImageLayer(imread: Value -> Data, data: Option<Data>, kw: map<string, Value>)
    requires kw.Keys <= IMAGE_PARAMS
    requires data.Some? <==> Arg(kw, "path", Nothing) == Nothing
    requires Arg(kw, "channel_axis", Nothing) == Nothing
    ensures ImageCall(imread, data, kw).Ok?
    ensures var r := ImageCall(imread, data, kw).value;
      && r.Single? && |r.AsList()| == 1
      && r.layer.kind == Image && r.layer.channel == None
      && r.layer.data == Given(if data.Some? then data.value else imread(Arg(kw, "path", Nothing)))
      && r.layer.colormap == (if Arg(kw, "colormap", Nothing) == Nothing then GRAY else Arg(kw, "colormap", Nothing))
      && r.layer.blending == (if Arg(kw, "blending", Nothing) == Nothing then TRANSLUCENT else Arg(kw, "blending", Nothing))
      && r.layer.contrastLimits == Arg(kw, "contrast_limits", Nothing)
      && r.layer.gamma == Arg(kw, "gamma", Int(1))
      && r.layer.name == Arg(kw, "name", Nothing)
  {
  }

  /**
   * With `channel_axis`, add_image makes as many layers as `zip` yields, the minimum of
   * `n_channels` and of the lengths of the finite argument lists; layer `k` is channel `k`
   * of the data with the `k`-th colormap, contrast limits, gamma and name, and blending
   * defaults to additive.
   */
  lemma ChannelSplitLayers(imread: Value -> Data, data: Option<Data>, kw: map<string, Value>, d: Data, n: nat, z: ChannelArgs)
    requires kw.Keys <= IMAGE_PARAMS
    requires Arg(kw, "channel_axis", Nothing) != Nothing
    requires LoadData(imread, data, Arg(kw, "path", Nothing)) == Ok(d)
    requires ChannelCount(d, IsPyramid(kw), Arg(kw, "channel_axis", Nothing)) == Ok(n)
    requires ChannelStreams(kw, n) == Ok(z)
    ensures ImageCall(imread, data, kw).Ok? && ImageCall(imread, data, kw).value.Several?
    ensures var ls := ImageCall(imread, data, kw).value.layers;
      && |ls| <= n && z.Reaches(|ls|)
      && (|ls| == n || z.colormaps.Length() == Some(|ls|) || z.clims.Length() == Some(|ls|)
                    || z.gammas.Length() == Some(|ls|) || z.names.Length() == Some(|ls|))
      && forall k :: 0 <= k < |ls| ==>
           ls[k] == Layer(Image, ChannelOf(d, Arg(kw, "channel_axis", Nothing), k, IsPyramid(kw)),
                      z.names.At(k), z.colormaps.At(k), z.clims.At(k), z.gammas.At(k),
                      if Arg(kw, "blending", Nothing) == Nothing then ADDITIVE else Arg(kw, "blending", Nothing),
                      Some(k))
  {
  }

  /**
   * Without a colormap, the channels of a split are magenta and green when there are fewer
   * than three, and otherwise cycle through cyan, yellow, magenta, red, green and blue.
   */
  lemma DefaultChannelColormaps(imread: Value -> Data, data: Option<Data>, kw: map<string, Value>, d: Data, n: nat, k: nat)
    requires kw.Keys <= IMAGE_PARAMS
    requires Arg(kw, "channel_axis", Nothing) != Nothing
    requires Arg(kw, "colormap", Nothing) == Nothing
    requires LoadData(imread, data, Arg(kw, "path", Nothing)) == Ok(d)
    requires ChannelCount(d, IsPyramid(kw), Arg(kw, "channel_axis", Nothing)) == Ok(n)
    requires ImageCall(imread, data, kw).Ok?
    requires k < |ImageCall(imread, data, kw).value.AsList()|
    ensures ImageCall(imread, data, kw).value.AsList()[k].colormap
              == if n < 3 then MAGENTA_GREEN[k] else CYMRGB[k % |CYMRGB|]
  {
    var z := ChannelStreams(kw, n).value;
    ChannelSplitLayers(imread, data, kw, d, n, z);
  }

  /**
   * A single contrast-limit pair goes unchanged to every channel; a list of pairs gives
   * pair `k` to channel `k`; no contrast limits gives None to every channel.
   */
  lemma ChannelContrastLimits(imread: Value -> Data, data: Option<Data>, kw: map<string, Value>, d: Data, n: nat, k: nat)
    requires kw.Keys <= IMAGE_PARAMS
    requires Arg(kw, "channel_axis", Nothing) != Nothing
    requires LoadData(imread, data, Arg(kw, "path", Nothing)) == Ok(d)
    requires ChannelCount(d, IsPyramid(kw), Arg(kw, "channel_axis", Nothing)) == Ok(n)
    requires ImageCall(imread, data, kw).Ok?
    requires k < |ImageCall(imread, data, kw).value.AsList()|
    ensures var clims := Arg(kw, "contrast_limits", Nothing);
            var layer := ImageCall(imread, data, kw).value.AsList()[k];
      && (clims == Nothing ==> layer.contrastLimits == Nothing)
      && (clims.List? && clims.items != [] && !IsIterable(clims.items[0]) ==> layer.contrastLimits == clims)
      && (clims.List? && clims.items != [] && IsIterable(clims.items[0]) ==> k < |clims.items| && layer.contrastLimits == clims.items[k])
  {
    var z := ChannelStreams(kw, n).value;
    ChannelSplitLayers(imread, data, kw, d, n, z);
  }

  /**
   * Without data, add_points makes an empty `(0, d)` array and add_shapes an empty
   * `(0, 0, d)` array, where `d` is the larger of the viewer's dimensionality and 2.
   */
  lemma EmptyPointsAndShapes(ndim: nat, kw: map<string, Value>)
    ensures kw.Keys <= POINTS_PARAMS ==>
      PointsCall(ndim, None, kw).Ok? && PointsCall(ndim, None, kw).value.kind == Points
      && var shape := PointsCall(ndim, None, kw).value.data.shape;
         |shape| == 2 && shape[0] == 0 && shape[1] >= 2 && shape[1] >= ndim && (shape[1] == 2 || shape[1] == ndim)
    ensures kw.Keys <= SHAPES_PARAMS ==>
      ShapesCall(ndim, None, kw).Ok? && ShapesCall(ndim, None, kw).value.kind == Shapes
      && var shape := ShapesCall(ndim, None, kw).value.data.shape;
         |shape| == 3 && shape[0] == 0 && shape[1] == 0 && shape[2] >= 2 && shape[2] >= ndim && (shape[2] == 2 || shape[2] == ndim)
  {
  }
}
