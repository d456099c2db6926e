/**
 * The layers a viewer holds, as the add-layer operations build them. A layer is the record
 * of what was handed to its constructor (`layers.Image(...)`, `layers.Points(...)`, ...);
 * the constructors themselves are not modelled.
 */
module Layers {
  import opened Base
  import opened PyValues

  /** numpy element types, as far as the type inference tells them apart. */
  datatype DType = SignedInt(bits: nat) | UnsignedInt(bits: nat) | FloatingPoint(bits: nat) | Boolean

  /** int32, uint32, int64 or uint64: data of these types is taken to be labels. */
  predicate IsWideInteger(t: DType) {
    t == SignedInt(32) || t == UnsignedInt(32) || t == SignedInt(64) || t == UnsignedInt(64)
  }

  /** The data handed to an add-layer operation. */
  datatype Data =
    | NdArray(id: nat, shape: seq<nat>, dtype: DType)   // an array with a shape and a dtype
    | ArrayList(items: seq<Data>)                       // a list of arrays, e.g. a pyramid
    | OtherObject(id: nat)                              // anything else: no shape, no dtype, no indexing

  /** The data a layer constructor receives. */
  datatype LayerData =
    | Given(data: Data)
      /** `data=None` passed through to the constructor. */
    | NoData
      /** `np.take(source, index, axis)`, or with `perLevel` the list of takes of every level. */
    | ChannelOf(source: Data, axis: Value, index: nat, perLevel: bool)
      /** `np.empty(shape)`: an empty array known only by its shape. */
    | EmptyArray(shape: seq<nat>)

  datatype Kind = Image | Labels | Points | Shapes | Surface | Vectors

  /**
   * A layer: its kind, its data and the arguments the add-layer code decides on. An argument
   * the kind's constructor does not take is `Nothing`; `channel` is the channel index of a
   * layer made by splitting an image along its channel axis.
   */
  datatype Layer = Layer(
    kind: Kind,
    data: LayerData,
    name: Value,
    colormap: Value,
    contrastLimits: Value,
    gamma: Value,
    blending: Value,
    channel: Option<nat>)

  /** What an add-layer method returns: one layer, or the list add_image returns when it splits channels. */
  datatype Returned = Single(layer: Layer) | Several(layers: seq<Layer>) {
    /** The returned layers as a list, as `_add_layers_with_plugins` normalises them. */
    function AsList(): (r: seq<Layer>)
      ensures Single? ==> r == [layer]
      ensures Several? ==> r == layers
    {
      match this
      case Single(l) => [l]
      case Several(ls) => ls
    }
  }

  /** The layers an operation added: none when it raised. */
  function Added(r: Result<Returned>): seq<Layer> {
    if r.Ok? then r.value.AsList() else []
  }

  /** The keyword parameters of each add-layer method (all after the bare `*`). */
  const IMAGE_PARAMS: set<string> := {
    "channel_axis", "rgb", "is_pyramid", "colormap", "contrast_limits", "gamma",
    "interpolation", "rendering", "iso_threshold", "attenuation", "name", "metadata",
    "scale", "translate", "opacity", "blending", "visible", "path"}

  const POINTS_PARAMS: set<string> := {
    "properties", "symbol", "size", "edge_width", "edge_color", "edge_color_cycle",
    "edge_colormap", "edge_contrast_limits", "face_color", "face_color_cycle",
    "face_colormap", "face_contrast_limits", "n_dimensional", "name", "metadata",
    "scale", "translate", "opacity", "blending", "visible"}

  const LABELS_PARAMS: set<string> := {
    "is_pyramid", "num_colors", "seed", "name", "metadata", "scale", "translate",
    "opacity", "blending", "visible", "path"}

  const SHAPES_PARAMS: set<string> := {
    "shape_type", "edge_width", "edge_color", "face_color", "z_index", "name",
    "metadata", "scale", "translate", "opacity", "blending", "visible"}

  const SURFACE_PARAMS: set<string> := {
    "colormap", "contrast_limits", "gamma", "name", "metadata", "scale", "translate",
    "opacity", "blending", "visible"}

  const VECTORS_PARAMS: set<string> := {
    "edge_width", "edge_color", "length", "name", "metadata", "scale", "translate",
    "opacity", "blending", "visible"}

  /** The layer types that have an `add_<type>` method on the viewer. */
  const ADD_METHODS: set<string> := {"image", "labels", "points", "shapes", "surface", "vectors"}

  /** The kind of layer `add_<layerType>` makes. */
  function KindOf(layerType: string): Kind
    requires layerType in ADD_METHODS
  {
    match layerType
    case "image" => Image
    case "labels" => Labels
    case "points" => Points
    case "shapes" => Shapes
    case "surface" => Surface
    case _ => Vectors
  }

  /** The keyword parameters `add_<layerType>` takes. */
  function Params(layerType: string): set<string>
    requires layerType in ADD_METHODS
  {
    match layerType
    case "image" => IMAGE_PARAMS
    case "labels" => LABELS_PARAMS
    case "points" => POINTS_PARAMS
    case "shapes" => SHAPES_PARAMS
    case "surface" => SURFACE_PARAMS
    case _ => VECTORS_PARAMS
  }

  /** Default colormaps of a channel split: `colormaps.MAGENTA_GREEN` and `colormaps.CYMRGB`. */
  const MAGENTA_GREEN: seq<Value> := [Str("magenta"), Str("green")]
  const CYMRGB: seq<Value> := [Str("cyan"), Str("yellow"), Str("magenta"), Str("red"), Str("green"), Str("blue")]

  const GRAY: Value := Str("gray")
  const TRANSLUCENT: Value := Str("translucent")
  const ADDITIVE: Value := Str("additive")
}
