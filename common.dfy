/** Platform constants shared by every endpoint (include/namedpipe/core/common.hpp),
    and the error kinds the endpoint raises. */
module Common {

  /** The library is built for one of two targets, chosen by `#ifdef _WIN32`. */
  datatype Platform = Posix | Windows

  /** An OS handle: a file descriptor on POSIX, a HANDLE on Windows. */
  type PipeId = int

  /** VSOCK_INVALID_HANDLE_VALUE: -1 on POSIX, INVALID_HANDLE_VALUE ((HANDLE)-1) on Windows. */
  const InvalidHandle: PipeId := -1

  /** The NULL a freshly constructed endpoint stores in its handle. */
  const NullHandle: PipeId := 0

  /** A timeout in milliseconds, `std::uint32_t` in the source. */
  newtype Uint32 = x: int | 0 <= x < 0x1_0000_0000

  /** VSOCK_NAMED_PIPE_PATH: the namespace root a logical name is appended to. */
  function PathPrefix(p: Platform): (prefix: string)
    ensures |prefix| > 0 && prefix[|prefix| - 1] == (if p.Posix? then '/' else '\\')
  {
    match p
    case Posix => "/tmp/"
    case Windows => "\\\\.\\pipe\\"
  }

  /** The operating-system call whose failure an `OsFailure` reports. */
  datatype OsCall =
    | CreatePipe      // socket() or CreateNamedPipeA returned the invalid handle
    | BindCall        // ::bind
    | ListenCall      // ::listen
    | AcceptCall      // ::accept, or ConnectNamedPipe in the blocking accept
    | AsyncConnect    // overlapped ConnectNamedPipe did not report a pending wait
    | SetEventCall    // SetEvent on an already connected pipe
    | SelectCall      // select() reported readiness but not on the listening socket
    | OpenPipe        // socket() or CreateFileA on the client side
    | SetHandleState  // SetNamedPipeHandleState
    | ConnectCall     // ::connect

  /** The kinds of RuntimeError the endpoint throws. */
  datatype Failure =
    | NotServer
    | NotClient
    | AlreadyOpened
    | NotOpened
    | OsFailure(call: OsCall)

  /** A failure raised by a role or state check, before any OS call. */
  predicate IsGuardFailure(f: Failure) {
    !f.OsFailure?
  }

  datatype Option<+T> = None | Some(value: T)

  /** A call that either returns `value` or throws a RuntimeError of kind `failure`. */
  datatype Result<+T> = Ok(value: T) | Err(failure: Failure)
}
