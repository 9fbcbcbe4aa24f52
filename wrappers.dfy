/** Optional values: TypeScript's `T | undefined` and optional object keys. */
module Wrappers {

  datatype Option<+T> = None | Some(value: T)
}
