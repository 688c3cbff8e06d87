/** Completion codes and their classification (tcp_service.cpp, connecting.cpp). */
module Errors {
  import opened Options

  datatype Category = SystemCategory | MiscCategory | OtherCategory

  /** A failed completion; success is `None`. The values are those of Linux and of `asio::error::misc_errors`. */
  datatype ErrorCode = ErrorCode(category: Category, value: int)

  type Completion = Option<ErrorCode>

  const EOF: int := 2
  const BROKEN_PIPE: int := 32
  const CONNECTION_RESET: int := 104
  const TIMED_OUT: int := 110
  const CONNECTION_REFUSED: int := 111

  /** Errors on which `tcp_socket` raises `on_disconnected`; any other is only reported. */
  predicate IsDisconnect(code: ErrorCode) {
    || (code.category == MiscCategory && code.value == EOF)
    || (code.category == SystemCategory && code.value == CONNECTION_RESET)
    || (code.category == SystemCategory && code.value == BROKEN_PIPE)
  }

  /** Errors on which `async_connector` raises `on_refused`; any other is only reported. */
  predicate IsRefusal(code: ErrorCode) {
    || (code.category == SystemCategory && code.value == CONNECTION_REFUSED)
    || (code.category == SystemCategory && code.value == TIMED_OUT)
  }
}
