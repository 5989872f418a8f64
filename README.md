# vsock::NamedPipe lifecycle, modelled in Dafny

`vsock::NamedPipe` is a local inter-process endpoint. On POSIX it is a Unix domain stream
socket under `/tmp/`; on Windows it is a named pipe under `\\.\pipe\`. A pipe is built as a
server or a client from a short name. A server is opened with `Listen` and hands out
connected endpoints with `Accept()` or `Accept(timeout)`. A client is opened with `Connect`.
Either kind is released with `Close`, which the destructor calls when the pipe is still
opened. Each endpoint keeps three flags (`is_server_`, `is_client_of_server_`, `is_opened_`),
a `path_` and an OS handle `pipe_id_`.

This project models that lifecycle for both build targets:

- `common.dfy` (module `Common`): the platform, the handle sentinels (invalid = -1,
  NULL = 0), the namespace prefixes, and the error kinds. The kinds are NotServer,
  NotClient, AlreadyOpened and NotOpened, plus OsFailure, which names the failing call.
- `pipe_spec.dfy` (module `PipeSpec`): each operation is a pure transition over the
  endpoint's fields and the set of POSIX socket files. The result of every OS call is an
  input (an "oracle" record), so the model never performs I/O. These functions carry the
  guards, the error cases and the new state in their contracts.
- `vsock.dfy` (module `Vsock`): class `NamedPipe` holds the same fields and updates them in
  place, in the source's order. For example, `Accept` re-enters `Listen` on the same
  object, and `Connect` runs the Windows busy-retry loop. Each method is proved to perform
  the `PipeSpec` transition of the same name. Class `Namespace` holds the filesystem
  entries that `bind` creates and `unlink` removes.
- `pipe_properties.dfy` (module `PipeProperties`): lemmas that relate several calls. They
  cover rendezvous on a name, double `Listen` and double `Close`, a POSIX server's restart
  after destruction, the retry loop, and the demonstration's connection sequence. An
  invariant of one endpoint, kept by every sequence of calls on it, is proved by induction,
  assuming no other endpoint uses the same path. The two defects below are exhibited here
  too.

## Model

| member | source | states |
|---|---|---|
| `Common.PathPrefix` | include/namedpipe/core/common.hpp:15-27 | the namespace root is non-empty and ends in the platform's separator |
| `PipeSpec.Created` | include/namedpipe/namedpipe/pipe.cpp:10-20 | a new pipe has the requested role, is not opened, is not an accepted endpoint, holds NULL, and its path is the platform prefix followed by exactly the name |
| `PipeProperties.CreatedRendezvous` | include/namedpipe/namedpipe/pipe.cpp:14 | two pipes share a namespace path if and only if they were built from the same name |
| `Vsock.NamedPipe.constructor` | include/namedpipe/namedpipe/pipe.cpp:10-20 | the public constructor sets the fields to `PipeSpec.Created` of its arguments |
| `PipeSpec.Accepted` | include/namedpipe/namedpipe/pipe.cpp:22-31 | the endpoint the private constructor builds is opened, not a server, marked as accepted, has no path, and holds the given handle |
| `Vsock.NamedPipe.FromHandle` | include/namedpipe/namedpipe/pipe.cpp:22-31 | the private constructor yields an opened, non-server endpoint marked as accepted, with no path and the given handle |
| `PipeSpec.Listen` | include/namedpipe/namedpipe/pipe.cpp:39-92 | NotServer exactly on a client; AlreadyOpened exactly on an opened server; both leave everything unchanged. Success exactly when creation (and on POSIX bind and listen) succeed; any other failure past the guards is an OsFailure. The handle is overwritten once past the guards, even on failure. The pipe is opened only on success. On POSIX only the server's own path entry changes, and it exists afterwards exactly when bind succeeded |
| `Vsock.NamedPipe.Listen` | include/namedpipe/namedpipe/pipe.cpp:39-92 | the method's result, fields and filesystem entries are those of `PipeSpec.Listen` |
| `PipeProperties.ListenTwiceFails` | include/namedpipe/namedpipe/pipe.cpp:46-51 | a second Listen after a successful one fails with AlreadyOpened and changes nothing |
| `PipeSpec.Accept` | include/namedpipe/namedpipe/pipe.cpp:94-134 | NotServer on a client and NotOpened on an unopened server, changing nothing. Success always returns an opened accepted endpoint and leaves the server opened. POSIX: the server is untouched, and success happens exactly when accept returns a valid handle, which the endpoint then holds. Windows: the endpoint takes the old server handle, and the server re-runs Listen after clearing its flag. Success needs a connection and a new pipe instance. Without a connection the result is OsFailure and nothing changes. Past the guards every failure is an OsFailure |
| `Vsock.NamedPipe.Accept` | include/namedpipe/namedpipe/pipe.cpp:94-134 | the method's server fields, entries and error equal `PipeSpec.Accept`'s; on success it returns a fresh object whose fields are the accepted endpoint |
| `PipeSpec.AcceptTimeoutAsWritten` | include/namedpipe/namedpipe/pipe.cpp:136-209 | the timed accept as written: same guards; null exactly when the wait ends without WAIT_OBJECT_0 (Windows) or select times out (POSIX); a call that neither returns null nor finds a client ready is an OsFailure; it never changes the server; on Windows it never hands out a connection; on POSIX a ready wait always hands out an accepted endpoint holding accept's result unchecked |
| `Vsock.NamedPipe.AcceptTimeoutAsWritten` | include/namedpipe/namedpipe/pipe.cpp:136-209 | the method (re-entering `Listen` with the flag still set) performs `PipeSpec.AcceptTimeoutAsWritten` |
| `PipeSpec.AcceptTimeout` | include/namedpipe/namedpipe/pipe.cpp:136-209 | the corrected timed accept: same guards; null exactly when the wait ends without WAIT_OBJECT_0 (Windows) or select times out (POSIX), leaving the server unchanged; a call that neither returns null nor finds a client ready is an OsFailure that changes nothing; once a client is ready it behaves exactly as the blocking `PipeSpec.Accept`; a returned endpoint is opened and the server stays opened; when the server held a valid handle, so does the returned endpoint |
| `Vsock.NamedPipe.AcceptTimeout` | include/namedpipe/namedpipe/pipe.cpp:136-209 | the method performs `PipeSpec.AcceptTimeout` |
| `PipeProperties.TimedAcceptOnWindowsAlwaysThrows` | include/namedpipe/namedpipe/pipe.cpp:162-166 | on Windows, whenever a client is ready, the timed accept as written fails with AlreadyOpened, while the corrected one returns the connected handle whenever the new pipe instance is created (CreateNamedPipeA returns a valid handle) |
| `PipeProperties.TimedAcceptOnPosixKeepsFailedHandle` | include/namedpipe/namedpipe/pipe.cpp:197-200 | on POSIX, when select reports readiness and accept fails, the timed accept as written hands out an opened endpoint holding the invalid handle; the corrected one reports OsFailure |
| `PipeSpec.FirstExit` | include/namedpipe/namedpipe/pipe.cpp:226-240 | the Windows retry loop leaves at the first round whose handle is valid or whose error is not PIPE_BUSY; every earlier round was busy |
| `PipeProperties.ConnectSkipsBusyRounds` | include/namedpipe/namedpipe/pipe.cpp:237-239 | after any number of busy rounds the loop stops exactly at the first round that is not busy-and-invalid |
| `PipeSpec.Connect` | include/namedpipe/namedpipe/pipe.cpp:212-277 | NotClient exactly on a server; AlreadyOpened exactly on an opened client; both change nothing. Otherwise the handle is the loop's exit handle (Windows) or the new socket (POSIX). Success exactly when that handle is valid and SetNamedPipeHandleState (Windows) or connect (POSIX) succeeds; any other failure past the guards is an OsFailure. The pipe is opened only on success, and then with a valid handle |
| `Vsock.NamedPipe.Connect` | include/namedpipe/namedpipe/pipe.cpp:212-277 | the method, including its retry loop, performs `PipeSpec.Connect` |
| `PipeSpec.Close` | include/namedpipe/namedpipe/pipe.cpp:279-299 | NotOpened exactly on an unopened pipe, changing nothing. An opened pipe always closes successfully, and afterwards the pipe is never opened. On POSIX exactly a server's path entry is removed and the handle field keeps its number. On Windows only a server or an accepted endpoint drops its handle to NULL |
| `Vsock.NamedPipe.Close` | include/namedpipe/namedpipe/pipe.cpp:279-299 | the method performs `PipeSpec.Close` |
| `PipeProperties.CloseTwiceFails` | include/namedpipe/namedpipe/pipe.cpp:280-285 | a second Close after a successful one fails with NotOpened and changes nothing |
| `PipeSpec.Destroy` | include/namedpipe/namedpipe/pipe.cpp:33-37 | the destructor never meets Close's NotOpened error and always leaves the pipe unopened; it is Close on an opened pipe and changes nothing otherwise |
| `Vsock.NamedPipe.Destroy` | include/namedpipe/namedpipe/pipe.cpp:33-37 | the method performs `PipeSpec.Destroy`, and the Close it calls cannot fail |
| `PipeProperties.PosixServerRestarts` | include/namedpipe/namedpipe/pipe.cpp:74-91 | a listening POSIX server owns its socket file; destroying it removes the file, and the same endpoint can Listen again |
| `PipeProperties.ServerAndClientMeet` | src/main.cpp:17-36 | a server and a client built from the same name reach the same path. With OS calls that succeed, Listen, Connect and Accept all succeed, and all three endpoints then close without error; `Close` stands for the destructor (`delete`) of an opened endpoint, which `PipeSpec.Destroy` proves to be the same |
| `PipeProperties.ConstructedEndpointsSatisfyInv` | include/namedpipe/namedpipe/pipe.cpp:10-31 | a newly constructed pipe satisfies the lifecycle invariant, and an accepted one does exactly when its handle is valid |
| `PipeProperties.Apply` | include/namedpipe/namedpipe/pipe.cpp:39-299 | every public call on one endpoint, including both forms of the timed accept, keeps role, origin and path, and keeps the invariant. The invariant: never both server and accepted; an opened pipe holds a valid handle; an opened POSIX server's socket file exists, provided no other endpoint uses the same path |
| `PipeProperties.RunKeepsInv` | include/namedpipe/namedpipe/pipe.cpp:39-299 | every sequence of calls on one endpoint keeps the invariant and never changes role, origin or path, provided no other endpoint uses the same path |

## Left out

- The OS primitives (`socket`, `bind`, `listen`, `accept`, `select`, `connect`, `close`,
  and the Win32 pipe, event and file calls) are not executed. The results the code checks
  are oracle inputs to each operation. The calls whose results the code ignores (`close`,
  `DisconnectNamedPipe`, `CloseHandle`, `WaitNamedPipeA`) have no oracle: the model
  takes their effect as given and lets them change nothing it tracks.
- `unlink` is assumed always to succeed, both for the stale entry `Listen` removes and in a
  POSIX server's `Close`. The code ignores its result, so `PipeSpec.Listen`,
  `PipeSpec.Close` and `PipeProperties.PosixServerRestarts` state their effect on the
  socket files under that assumption.
- Names containing `/` or `\` are not modelled as nested paths. The path is the prefix
  followed by the name as a string, so such a name does not become one entry directly
  under the namespace root.
- Several endpoints on the same path are not modelled together. `PipeProperties.Inv`
  describes one endpoint. Another POSIX server's `Listen` or `Close` on the same name
  unlinks the shared socket file, and then an opened server's file is gone.
- Wall-clock waiting is not modelled: how long `Accept(timeout)`, `WaitNamedPipeA` and the
  blocking calls wait. The construction of `timeval` and `fd_set` is not modelled either.
  The oracle says how the wait ended.
- Vsock.NamedPipe.AcceptTimeout: the `timeout` argument is recorded but unused, because
  its only effect is how long the OS waits.
- Vsock.NamedPipe.AcceptTimeoutAsWritten: the `timeout` argument is recorded but unused,
  for the same reason.
- The `sockaddr_un` buffer (`memset`, `strcpy` into `sun_path`) is not modelled. In
  particular, a path longer than `sun_path` is not modelled.
- The event handle from `CreateEventA`, including a failed creation and its never being
  released, is not modelled.
- Exception texts are not modelled. Only the error kind is kept, with the failing call.
- Which OS handles are still allocated is not tracked. In the code, a failed Listen or
  Connect keeps the new handle in `pipe_id_` without releasing it. A Windows Close of a
  client-initiated pipe releases nothing, and POSIX Close does not reset `pipe_id_`. The
  model records these field values but does not count leaked handles.
- Windows pipe-namespace entries are not tracked. `Namespace` holds only the POSIX socket
  files.
- PipeSpec.Connect: it requires that the Windows retry loop, when reached, has a round that
  exits. A run that is busy forever never returns in the source, so it has no outcome to
  model.
- Vsock.NamedPipe.Connect: same requirement as `PipeSpec.Connect`, for the same reason.
- A trace (`PipeProperties.Run`) stops at such a Connect.
- src/main.cpp (threads, sleeps, console output) is not modelled. Its connection sequence
  is stated sequentially by `PipeProperties.ServerAndClientMeet`.
- Heap ownership of the pointer `Accept` returns is not modelled. The returned endpoint is
  a fresh object, and nothing models `delete` beyond `Destroy`.

The code does none of the following, and neither does the model:

- validate a name;
- mark a closed pipe as finished: it is simply not opened, so it may Listen or Connect again;
- restore the previous handle after a failed Listen or Connect;
- release anything in a Windows `Close` of a pipe that was opened by `Connect`.

## Findings

| source | as written | input that shows it | evidently intended | confidence | as-written member | corrected member |
|---|---|---|---|---|---|---|
| include/namedpipe/namedpipe/pipe.cpp:164-165 | the Windows `Accept(timeout)` calls `Listen()` while `is_opened_` is still true, so `Listen`'s guard (lines 46-51) throws AlreadyOpened on every successful wait | a listening server on Windows; a client connects before the timeout, so `WaitForSingleObject` returns `WAIT_OBJECT_0` | clear `is_opened_` before re-running `Listen`, as the blocking form does at line 111, and return the connected endpoint | high, not executed | `PipeProperties.TimedAcceptOnWindowsAlwaysThrows` | `PipeSpec.AcceptTimeout` |
| include/namedpipe/namedpipe/pipe.cpp:197-199 | the POSIX `Accept(timeout)` wraps the result of `accept` without checking it | `select` reports the listening socket ready, then `accept` returns -1 | report the failure, as the blocking form does at lines 122-131 | medium, not executed | `PipeProperties.TimedAcceptOnPosixKeepsFailedHandle` | `PipeSpec.AcceptTimeout` |
