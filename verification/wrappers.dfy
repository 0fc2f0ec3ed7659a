/** Option and Result values, and the Python exceptions the client raises. */
module Wrappers {

  datatype Option<+T> = None | Some(value: T)

  /** The exceptions a parameter client lets escape to its caller. */
  datatype Error =
    | ValueError(name: string)      // unknown backend name in the factory
    | AttributeError(name: string)  // attribute looked up by a name built at run time
    | NotImplementedError           // operation the class deliberately does not provide
    | IndexError                    // element [0, 0] of an empty row
    | TypeError                     // a required argument was not passed

  datatype Result<+T> = Ok(value: T) | Err(error: Error)
}
