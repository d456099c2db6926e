# napari viewer: adding layers

A Dafny model of `napari/components/add_layers_mixin.py`. This is the mixin that gives napari's
`ViewerModel` its `add_*` methods. The model covers:

- the viewer's layer list and `add_layer`, including the `reset_view` call that the first layer triggers;
- the argument rules of `add_image`: exactly one of `data` and `path`, defaults for colormap and
  blending, and the split of an image into one layer per channel along `channel_axis`;
- the empty-data defaults of `add_points` and `add_shapes`, and the single-layer methods
  `add_labels`, `add_surface` and `add_vectors`;
- opening files through reader plugins: `add_path`, `_add_layers_with_plugins` and the type
  resolution and dispatch of `_add_layer_from_data`.

Modules, one per concern:

- `Base` (base.dfy): `Option`, `Result` and the exceptions the code raises (`Error`).
- `PyValues` (py_values.dfy): the Python values the code inspects (None, booleans, numbers,
  strings, lists). Also `is_iterable`, truthiness, tuple indexing and ASCII `lower()`.
- `Streams` (streams.dfy): the per-channel argument streams (`ensure_iterable`, `itertools.repeat`,
  `itertools.cycle`) and the length of their `zip`.
- `Layers` (layers.dfy): data, layer records, the keyword parameters of each `add_*` method and the
  default colormap names.
- `Calls` (calls.dfy): a function per `add_*` method giving the layers it hands to the layer
  constructors, or the exception it raises. Also the lemmas about `add_image`.
- `Plugins` (plugins.dfy): type resolution, dispatch, and `Fold`, which runs plugin results and paths
  one after another and stops at the first exception.
- `Viewer` (viewer.dfy): the class `ViewerModel`. It holds the layer list and a count of `reset_view`
  calls. Its methods append layers; the channel, plugin and path loops are written as loops. Each
  method is proved to return what the matching function in `Calls` or `Plugins` returns, and to
  append exactly the layers that function lists.

Keyword arguments are modelled as a `map<string, Value>`, because `_add_layer_from_data` forwards
`meta` as `**meta`. A keyword that the called method does not take raises `BadKeywords` (Python's
TypeError).

The collaborators the file calls but does not define are the fields of `Plugins.Env`, taken as
uninterpreted functions:

- `io.magic_imread` is `imread`;
- `read_data_with_plugins` is `reader`;
- `layers.NAMES` is `names`;
- the viewer's `dims.ndim` is `ndimOf`, a function of the current layer list.

Because `ndimOf` can change as layers are added, the plugin and path loops are specified as folds
over the growing layer list.

## Model

| member | source | states |
|---|---|---|
| Viewer.ViewerModel.AddLayer | napari/components/add_layers_mixin.py:47-51 | The layer is appended at the end and earlier layers keep their order. `reset_view` runs exactly when the list becomes one long, so `Valid` (reset once since the list became non-empty) is kept. |
| Viewer.ViewerModel.AddImage | napari/components/add_layers_mixin.py:151-244 | Returns what `ImageCall` returns. The layers appended are exactly the returned layer or list: nothing on an exception, the whole returned list as a suffix otherwise. The channel loop, `AddChannels`, adds exactly `ChannelImages`, in channel order. |
| Calls.LoadData | napari/components/add_layers_mixin.py:151-156 | Neither `data` nor `path` raises one ValueError, and both raise the other. Otherwise the data is `data`, or `magic_imread(path)`. |
| Calls.ImageNeedsDataOrPath | napari/components/add_layers_mixin.py:151-154 | `add_image` raises each of the two ValueErrors exactly when neither, or both, of `data` and `path` are given. |
| Calls.SingleImageLayer | napari/components/add_layers_mixin.py:158-183 | Without `channel_axis`, with known keywords and exactly one of `data` and `path`, add_image succeeds with one layer of the data. Colormap defaults to gray and blending to translucent; given values pass through; contrast limits, gamma and name are forwarded. |
| Calls.Item0 | napari/components/add_layers_mixin.py:186 | `data[0]`: the first level of a list, or the first sub-array of an array. It succeeds exactly on a non-empty list or array. An empty list or array raises IndexError, and any other object TypeError. |
| Calls.ChannelCount | napari/components/add_layers_mixin.py:185-188 | Succeeds exactly when the data (its first level for a pyramid) is an array, `channel_axis` is an int or bool, and the axis is in range. The count is then the shape's extent at that axis, Python-indexed (negative counts from the end). Otherwise: the IndexError or TypeError of `data[0]`, AttributeError without `.shape`, TypeError for a non-integer axis, IndexError for an axis out of range. |
| PyValues.PyIndex | napari/components/add_layers_mixin.py:186-188 | Tuple indexing succeeds exactly for `-len <= i < len` and gives the item at `i mod len`; otherwise IndexError. |
| Calls.ColormapStream | napari/components/add_layers_mixin.py:195-201 | No colormap: fewer than 3 channels get magenta and green; otherwise the stream is endless and channel k gets `CYMRGB[k mod 6]`. A given colormap goes through `ensure_iterable`. |
| Calls.ClimsStream | napari/components/add_layers_mixin.py:203-210 | A pair whose first item is not iterable repeats for every channel, and so does a non-empty string. A list of pairs is iterated. None repeats None. An empty list or string raises IndexError, and a number raises TypeError. |
| PyValues.First | napari/components/add_layers_mixin.py:206 | `contrast_limits[0]` succeeds exactly on a non-empty list or string. An empty one raises IndexError, anything else TypeError. |
| Streams.ZipCount | napari/components/add_layers_mixin.py:215-218 | `zip(range(n), ...)` yields at most `n` tuples, and no more than any finite argument holds. It yields exactly `n` or the length of some finite argument, so the count is the minimum. |
| Calls.ChannelStreams | napari/components/add_layers_mixin.py:190-212 | The per-channel arguments: the colormap stream (given or defaulted), the contrast-limit stream, `ensure_iterable(gamma)` and `ensure_iterable(name)`. It fails exactly when `contrast_limits[0]` raises, with that exception. |
| Calls.ChannelSplit | napari/components/add_layers_mixin.py:185-244 | It succeeds exactly when the channels can be counted and `contrast_limits[0]` does not raise. A failure to count channels is the exception raised, and otherwise the IndexError or TypeError of `contrast_limits[0]`. On success there are at most `n_channels` layers, and layer k is an image of channel k of the data, with channel index k and blending defaulting to additive. |
| Calls.ImageCall | napari/components/add_layers_mixin.py:151-244 | An unknown keyword raises TypeError, and only then is that the exception. With known keywords, a data/path error is raised as such. With `channel_axis` and loadable data, it succeeds exactly when the channel split does, and raises the split's exception otherwise. On success every layer is an image, and the result is a single layer exactly when `channel_axis` is None. |
| Calls.ChannelArgs.Count | napari/components/add_layers_mixin.py:214-218 | The same minimum for the colormap, contrast-limit, gamma and name streams of a channel split. |
| Calls.ChannelSplitLayers | napari/components/add_layers_mixin.py:185-244 | With `channel_axis`, the layer count is the minimum of `n_channels` and the finite stream lengths. Layer k is channel k of the data (per level for a pyramid) and carries the k-th colormap, contrast limits, gamma and name. Blending defaults to additive. |
| Calls.DefaultChannelColormaps | napari/components/add_layers_mixin.py:195-199 | Without a colormap, channel k of a split gets `MAGENTA_GREEN[k]` when there are fewer than 3 channels, and `CYMRGB[k mod 6]` otherwise. |
| Calls.ChannelContrastLimits | napari/components/add_layers_mixin.py:203-210 | A single pair goes unchanged to every channel layer. A list of pairs gives pair k to channel k, and the list is at least as long as the layer count. None gives None to every layer. |
| Calls.EmptyPointsAndShapes | napari/components/add_layers_mixin.py:346-348 | Without data, points get an empty `(0, max(ndim, 2))` array and shapes an empty `(0, 0, max(ndim, 2))` array. |
| Calls.PointsCall | napari/components/add_layers_mixin.py:346-374 | Fails exactly on an unknown keyword, with TypeError. Otherwise one points layer of the given data, or of an empty `(0, max(ndim, 2))` array without data; name is forwarded and blending defaults to translucent. |
| Calls.ShapesCall | napari/components/add_layers_mixin.py:545-565 | Fails exactly on an unknown keyword, with TypeError. Otherwise one shapes layer of the given data, or of an empty `(0, 0, max(ndim, 2))` array without data; name is forwarded and blending defaults to translucent. |
| Calls.LabelsCall | napari/components/add_layers_mixin.py:446-467 | An unknown keyword raises TypeError, and only then is that the exception. With known keywords, it succeeds exactly when one of data and path is given, and raises the data/path error otherwise. On success one labels layer of the loaded data, name forwarded, blending defaulting to translucent. |
| Calls.SurfaceCall | napari/components/add_layers_mixin.py:627-641 | Fails exactly on an unknown keyword, with TypeError. Otherwise one surface layer of the data, name forwarded, with colormap gray, gamma 1 and blending translucent unless given, and contrast limits forwarded. |
| Calls.VectorsCall | napari/components/add_layers_mixin.py:696-710 | Fails exactly on an unknown keyword, with TypeError. Otherwise one vectors layer of the data, name forwarded and blending defaulting to translucent. |
| Viewer.ViewerModel.AddPoints | napari/components/add_layers_mixin.py:346-374 | Appends the one points layer `PointsCall` describes. The viewer's dimensionality is read before the append. |
| Viewer.ViewerModel.AddShapes | napari/components/add_layers_mixin.py:545-565 | Appends the one shapes layer `ShapesCall` describes. |
| Viewer.ViewerModel.AddLabels | napari/components/add_layers_mixin.py:446-467 | Same data-or-path rule as `add_image`. On success it appends one labels layer; on an exception it appends nothing. |
| Viewer.ViewerModel.AddSurface | napari/components/add_layers_mixin.py:627-641 | Returns what `SurfaceCall` returns. An unknown keyword raises TypeError and appends nothing. Otherwise it appends one surface layer, with colormap gray, gamma 1 and blending translucent unless given. |
| Viewer.ViewerModel.AddVectors | napari/components/add_layers_mixin.py:696-710 | Returns what `VectorsCall` returns. An unknown keyword raises TypeError and appends nothing. Otherwise it appends one vectors layer with blending translucent unless given. |
| PyValues.Lower | napari/components/add_layers_mixin.py:841 | `lower()` keeps the length and lower-cases each ASCII letter in place. |
| PyValues.LowerIsLower | napari/components/add_layers_mixin.py:841 | Lower-casing leaves no upper-case letter and is idempotent. |
| Plugins.ResolveType | napari/components/add_layers_mixin.py:841-853 | The type used is never empty and is lower case. A given non-empty type is lower-cased. A missing or empty type is labels exactly for int32/uint32/int64/uint64 arrays, and image otherwise. |
| Plugins.FromData | napari/components/add_layers_mixin.py:855-870 | A type not in `NAMES` raises ValueError. A known type with no `add_` method raises NotImplementedError. Otherwise the `add_<type>` method is called with the data and `meta or {}`. |
| Plugins.Call | napari/components/add_layers_mixin.py:862-870 | The `add_<type>` method raises TypeError for `meta` keys it does not take, and only then is that the exception. Every layer it makes is of that type's kind, and every method but `add_image` returns one layer. |
| Plugins.FromDataRejectsUnknownKeywords | napari/components/add_layers_mixin.py:818-824 | For a recognised type with an `add_` method, `_add_layer_from_data` raises TypeError naming the unexpected keys exactly when `meta or {}` holds a key the method does not take. |
| Plugins.LayerTypeIgnoresCase | napari/components/add_layers_mixin.py:841 | Two layer types that agree up to ASCII case dispatch identically. |
| Viewer.ViewerModel.AddLayerFromData | napari/components/add_layers_mixin.py:796-881 | Returns what `FromData` returns, on the layers as they stood, and appends exactly the layers it returns. |
| Plugins.Fold | napari/components/add_layers_mixin.py:788-794 | Running no items adds nothing and raises nothing. Running one item is that one step on the layers as they stand. |
| Plugins.FoldFailureSticks | napari/components/add_layers_mixin.py:789-793 | Once an item raises, the later items are not run. The layers added before the exception stay. |
| Plugins.FoldAppend | napari/components/add_layers_mixin.py:788-794 | Running `xs + ys` adds the layers of `xs` and then those of `ys`, run on the layers as `xs` left them. |
| Plugins.PluginBatch | napari/components/add_layers_mixin.py:773-794 | Nothing read adds nothing and raises nothing, except that a stack of no paths raises IndexError. An item whose `_add_layer_from_data` raises stops the batch with that exception. One item read is one `_add_layer_from_data` call on it. Several items are added one after another, each on the layers as the earlier ones left them. |
| Viewer.ViewerModel.AddLayersWithPlugins | napari/components/add_layers_mixin.py:773-794 | Nothing read adds nothing and returns `[]`, except that reporting a stack of no paths indexes `[0]` and raises. Otherwise every item read is added in order and flattened to one list. The list returned equals the suffix appended. |
| Plugins.NormalisePaths | napari/components/add_layers_mixin.py:737-738 | A string becomes a list of one. A list must hold only strings and keeps its order and length. Anything else raises TypeError. |
| Plugins.Strings | napari/components/add_layers_mixin.py:738 | The conversion of a list of paths succeeds exactly when every item is a string, and keeps each item at its index. |
| Plugins.SinglePathReadsOnce | napari/components/add_layers_mixin.py:737-751 | A single string path without stacking is one reader call on that path. |
| Plugins.PathsInOrder | napari/components/add_layers_mixin.py:747-751 | Without stacking, the layers of the first path come first, followed by those of the other paths in order. |
| Plugins.UnreadablePathsAddNothing | napari/components/add_layers_mixin.py:775-785 | Paths no plugin can read add nothing and raise nothing. |
| Plugins.PathBatch | napari/components/add_layers_mixin.py:737-751 | A path that is not a string or a list of strings raises TypeError and adds nothing. `stack=True` makes one plugin call with the whole list. Otherwise the paths are read one after another, in order. |
| Viewer.ViewerModel.AddPath | napari/components/add_layers_mixin.py:737-751 | Returns the concatenation of the per-path results in input order, or the single stacked result. The list returned equals the suffix appended. An exception leaves the layers of the paths before it in place. The unstacked loop, `AddEachPath`, is proved equal to the `Fold` over the paths. |

## Left out

- Event wiring in `add_layer` (lines 36-46), `_update_layers`, and the body of `reset_view`. The model records only that `reset_view` was called.
- The layer constructors (`layers.Image`, `Points`, `Labels`, `Shapes`, `Surface`, `Vectors`) are not modelled. A layer is the record of the arguments the add-layer code decides on, and constructors are taken to succeed.
- Pass-through arguments are accepted as keywords but not recorded in the layer: is_pyramid (beyond choosing how channels are counted and taken), opacity, scale, translate, metadata, interpolation, rendering, iso_threshold, attenuation, rgb, visible, and the points/shapes/labels/vectors styling arguments.
- numpy: `np.take` is recorded as "channel k of the data along the axis" (`ChannelOf`), and `np.empty` as a shape. An error from `np.take` on a pyramid level with fewer channels than the first is not modelled.
- Layer removal is not modelled, since other code does it. With only appends, `reset_view` runs once in the life of a viewer (`ViewerModel.Valid`).
- `io.magic_imread`, `read_data_with_plugins`, `layers.NAMES` and `dims.ndim` are uninterpreted (`Plugins.Env`). A reader returning None is modelled as an empty list. `imread` and `reader` are total functions, so an exception raised while reading a file is not modelled.
- Python values outside the modelled ones are left out: dicts, vispy Colormap objects and numpy arrays passed as colormap, name or gamma. So `is_iterable` is decided by list versus non-list only.
- `pathlib.Path` arguments and `fspath` are left out: only strings are paths.
- Logging of unread paths, and the formatting and parsing of exception messages (the TypeError re-raise at lines 869-879). `BadKeywords` stands for every TypeError from binding `meta` to the method's keywords, including a `data` key.
- The type check at lines 739-742 is left out because it cannot fail: `paths` is always a list there.
- `lower()` is modelled on ASCII letters only.
- The names in `MAGENTA_GREEN` and `CYMRGB` (layers.dfy) are the values `napari.utils.colormaps` defines. That module is not part of this model, so the model fixes them as constants.
- `getattr(self, 'add_' + layer_type)` is modelled as the six layer methods. A `NAMES` holding `layer` or `path` would reach `add_layer` or `add_path` in the source, and the model does not cover that.
- The viewer's constructor is not part of this file; `ViewerModel.constructor` only starts from an empty list.
