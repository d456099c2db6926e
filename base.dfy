/** Option, Result and the exceptions raised by the add-layer operations of the viewer. */
module Base {

  datatype Option<+T> = None | Some(value: T)

  /** The outcome of an operation that may raise: a value, or the exception it raised. */
  datatype Result<+T> = Ok(value: T) | Err(error: Error)

  /** The exceptions the modelled code raises, tagged by the condition that raises them. */
  datatype Error =
      /** ValueError: neither `data` nor `path` was given to add_image / add_labels. */
    | NeitherDataNorPath
      /** ValueError: both `data` and `path` were given to add_image / add_labels. */
    | BothDataAndPath
      /** ValueError: the (lower-cased) layer type is not one of the known layer names. */
    | UnrecognizedLayerType(layerType: string)
      /** NotImplementedError: a known layer name with no `add_<name>` method. */
    | NoAddMethod(layerType: string)
      /** TypeError: keyword arguments the called `add_<kind>` method does not take. */
    | BadKeywords(kind: string, keys: set<string>)
      /** TypeError: the `path` argument of add_path is not a string or a list of strings. */
    | NotAPath
      /** IndexError: an index past the end of a list, tuple, string or array. */
    | IndexOutOfRange
      /** TypeError: indexing (`x[0]`) an object that cannot be indexed. */
    | NotSubscriptable
      /** TypeError: indexing a tuple with something that is not an integer. */
    | NotAnIndex
      /** AttributeError: the object has no `shape` attribute. */
    | NoShape
}
