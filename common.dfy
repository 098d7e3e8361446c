/** Values shared by every module of the model: Python's `None`, its exceptions,
    and the opaque numbers (prices, volumes, market capitalisations) that the
    ingestion code stores and forwards but never computes with. */
module Common {

  /** A value that may be Python's `None`. */
  datatype Option<+T> = None | Some(value: T)

  /** The Python exceptions that the modelled code raises, catches or lets escape. */
  datatype PyError =
    | KeyError(key: string)
    | TypeError
    | ValueError
    | AttributeError(name: string)
    | OverflowError
    | SqliteError

  /** The outcome of a Python call: a value, or an exception that escapes it. */
  datatype Result<+T> = Ok(value: T) | Err(error: PyError)

  /** Prices, volumes and capitalisations: carried from input to storage unchanged. */
  type Amount = real

  /** A field of a decoded JSON object: absent, present as `null`, or present with a value. */
  datatype Field<+T> = Missing | Null | Present(value: T)
}
