/** Failure-carrying values shared by the tree walker, the redefinition
    analysis and the dumper. Python exceptions become `Err`/`Failed` values. */
module Errors {

  datatype Option<+T> = None | Some(value: T)

  /** The exceptions the modelled code raises, one constructor per cause. */
  datatype Error =
    | MissingHandler(kind: string)            // ValueError: strict mode, no visit_<Kind>
    | HandlerRaised(message: string)          // a handler's own exception, propagated
    | Unreachable(kind: string)               // RuntimeError: bad element in a FlowContainer
    | NotABlock(kind: string)                 // AssertionError in generic_visit
    | Unset(attribute: string)                // AttributeError: `scope`/`block` read while unset
    | Malformed(kind: string, attribute: string)  // AttributeError on a node attribute
    | WrongType(typeName: string)             // TypeError raised by dump

  datatype Result<+T> = Ok(value: T) | Err(error: Error)

  /** Outcome of a step that returns nothing useful (Python `None`). */
  datatype Status = Done | Failed(error: Error)
}
