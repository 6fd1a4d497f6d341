/** What several components name: stream identifiers, octets and optional values. */
module Basics {

  type Byte = bv8

  type StreamId = nat

  datatype Option<T> = None | Some(value: T)
}
