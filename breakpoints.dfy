// Shared value types: an optional value (a null pointer or a failed lookup)
// and a breakpoint, the (sample offset, value) pair a parameter queue delivers.
module Breakpoints {

  datatype Option<T> = None | Some(value: T)

  /** One automation point: a sample offset inside the current block and a value. */
  datatype Breakpoint = Breakpoint(offset: int, value: real)
}
