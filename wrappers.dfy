/** Option and Result, and the Python exceptions that the modelled code can raise. */
module Wrappers {

  datatype Option<+T> = None | Some(value: T)

  /** The exceptions that escape from the modelled functions and views. */
  datatype Exception =
    | IndexError      // `restaurants[0]` on an empty list
    | KeyError        // a missing key in a request body
    | TypeError       // unpacking `None` into two names
    | ValueError      // unpacking the wrong number of parts, or float() of a non-number
    | AttributeError  // reading an attribute nobody set
    | DoesNotExist    // `Model.objects.get` matched no row
    | FieldError      // a queryset lookup that names no field of the model
    | IntegrityError  // the database refused an insert (NOT NULL, UNIQUE or CHECK)

  /** A value, or the exception raised instead of returning one. */
  datatype Result<+T> = Ok(value: T) | Raise(exc: Exception)
}
