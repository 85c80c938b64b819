/** The Python exceptions the core raises or lets propagate. */
module Errors {

  datatype Exception =
    | ValueError(message: string)
    | KeyError(key: string)
    | IndexError
    | AttributeError(model: string, attribute: string)
    | TypeError
    | SearchProviderError(message: string)
      /** An exception raised inside an opaque collaborator (a subgraph, a crawler, a model call). */
    | Raised(message: string)
}
