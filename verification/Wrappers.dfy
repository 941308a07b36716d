// The optional value shared by every other module: SQL's NULL and TypeScript's `undefined`.
module Wrappers {

  datatype Option<+T> = None | Some(value: T)
}
