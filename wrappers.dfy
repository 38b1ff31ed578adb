/** Optional values, standing in for Go's `nil` results and `(value, found)` pairs. */
module Wrappers {

  datatype Option<+T> = None | Some(value: T)

}

/** The errors the core returns to its callers at configuration time or records per request. */
module Errors {

  datatype Error =
    | IDNotFound                                           // ErrIDNotFound
    | BadPattern(pattern: string)                          // the identifier pattern does not compile
    | NilResource                                          // "cannot add a nil resource"
    | ResourceAlreadyExists(resource: string, host: string) // FmtResourceAlreadyExists
    | HostAlreadyExists(host: string)                      // "host '%s' already exists"

}
