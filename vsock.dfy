/** vsock::NamedPipe (include/namedpipe/namedpipe/pipe.cpp) as a class whose methods update
    its fields in place, in the order the source does. Each method is proved to perform the
    transition of the same name in PipeSpec; the OS calls' results come in as oracle records. */
module Vsock {
  import opened Common
  import PipeSpec

  /** The filesystem entries the POSIX build creates with ::bind and removes with unlink.
      It is shared by every endpoint, as the filesystem is. */
  class Namespace {
    var entries: set<string>

    constructor (entries: set<string>)
      ensures this.entries == entries
    {
      this.entries := entries;
    }
  }

  class NamedPipe {
    /** The build target (`#ifdef _WIN32`). */
    const platform: Platform

    var isServer: bool
    var isClientOfServer: bool
    var isOpened: bool
    var path: string
    var pipeId: PipeId

    /** The endpoint's fields as a value. */
    function State(): PipeSpec.PipeState
      reads this
    {
      PipeSpec.PipeState(isServer, isClientOfServer, isOpened, path, pipeId)
    }

    /** NamedPipe(name, is_server): an unopened endpoint on the namespace path of `name`. */
    constructor (platform: Platform, name: string, isServer: bool)
      ensures this.platform == platform
      ensures State() == PipeSpec.Created(platform, name, isServer)
    {
      this.platform := platform;
      this.isServer := isServer;
      isClientOfServer := false;
      isOpened := false;
      path := PathPrefix(platform) + name;
      pipeId := NullHandle;
    }

    /** The private NamedPipe(pipe_id): wraps a connected handle handed out by Accept. */
    constructor FromHandle(platform: Platform, id: PipeId)
      ensures this.platform == platform
      ensures State() == PipeSpec.Accepted(id)
      ensures PipeSpec.IsAcceptedEndpoint(State())
    {
      this.platform := platform;
      isServer := false;
      isClientOfServer := true;
      isOpened := true;
      path := "";
      pipeId := id;
    }

    /** The destructor: closes the endpoint if it is still opened. */
    method Destroy(ns: Namespace)
      modifies this, ns
      ensures !isOpened
      ensures var t := PipeSpec.Destroy(platform, old(State()), old(ns.entries));
        State() == t.pipe && ns.entries == t.entries
    {
      if isOpened {
        var status := Close(ns);
        assert status.Ok?;
      }
    }

    method Listen(ns: Namespace, o: PipeSpec.ListenOracle) returns (r: Result<()>)
      modifies this, ns
      ensures var t := PipeSpec.Listen(platform, old(State()), old(ns.entries), o);
        r == t.status && State() == t.pipe && ns.entries == t.entries
    {
      if !isServer {
        return Err(NotServer);
      }
      if isOpened {
        return Err(AlreadyOpened);
      }
      pipeId := o.created;  // CreateNamedPipeA or ::socket
      if pipeId == InvalidHandle {
        return Err(OsFailure(CreatePipe));
      }
      if platform == Posix {
        ns.entries := ns.entries - {path};  // unlink of a stale entry
        if !o.bindOk {
          return Err(OsFailure(BindCall));
        }
        ns.entries := ns.entries + {path};
        if !o.listenOk {
          return Err(OsFailure(ListenCall));
        }
      }
      isOpened := true;
      return Ok(());
    }

    /** The blocking Accept(). */
    method Accept(ns: Namespace, o: PipeSpec.AcceptOracle) returns (r: Result<NamedPipe>)
      modifies this, ns
      ensures var t := PipeSpec.Accept(platform, old(State()), old(ns.entries), o);
        State() == t.server && ns.entries == t.entries &&
        (r.Err? <==> t.result.Err?) &&
        (r.Err? ==> t.result == Err(r.failure)) &&
        (r.Ok? ==> fresh(r.value) && r.value.platform == platform && t.result.value == Some(r.value.State()))
    {
      if !isServer {
        return Err(NotServer);
      }
      if !isOpened {
        return Err(NotOpened);
      }
      if platform == Windows {
        if o.connected {
          var client := pipeId;
          isOpened := false;
          var relisten := Listen(ns, o.relisten);
          if relisten.Err? {
            return Err(relisten.failure);
          }
          var accepted := new NamedPipe.FromHandle(platform, client);
          return Ok(accepted);
        } else {
          return Err(OsFailure(AcceptCall));
        }
      } else {
        var client := o.client;
        if client != InvalidHandle {
          var accepted := new NamedPipe.FromHandle(platform, client);
          return Ok(accepted);
        } else {
          return Err(OsFailure(AcceptCall));
        }
      }
      // the source's trailing `is_opened_ = true` is never reached
    }

    /** Accept(timeout) as the source writes it. The Windows success branch re-enters Listen
        with is_opened_ still set, so that call always throws. */
    method AcceptTimeoutAsWritten(ns: Namespace, timeout: Uint32, o: PipeSpec.TimedAcceptOracle)
      returns (r: Result<Option<NamedPipe>>)
      modifies this, ns
      ensures var t := PipeSpec.AcceptTimeoutAsWritten(platform, old(State()), old(ns.entries), o);
        State() == t.server && ns.entries == t.entries &&
        (r.Err? <==> t.result.Err?) &&
        (r.Err? ==> t.result == Err(r.failure)) &&
        (r.Ok? ==> (r.value.None? <==> t.result.value.None?)) &&
        (r.Ok? && r.value.Some? ==>
          fresh(r.value.value) && r.value.value.platform == platform && t.result.value == Some(r.value.value.State()))
    {
      if !isServer {
        return Err(NotServer);
      }
      if !isOpened {
        return Err(NotOpened);
      }
      if platform == Windows {
        if !o.pending {
          return Err(OsFailure(AsyncConnect));
        }
        if o.alreadyConnected && !o.setEventOk {
          return Err(OsFailure(SetEventCall));
        }
        if !o.signalled {
          return Ok(None);
        }
        var client := pipeId;
        var relisten := Listen(ns, o.relisten);
        if relisten.Err? {
          return Err(relisten.failure);
        }
        var accepted := new NamedPipe.FromHandle(platform, client);
        return Ok(Some(accepted));
      } else {
        if o.selected == 0 {
          return Ok(None);
        }
        if o.ready {
          var accepted := new NamedPipe.FromHandle(platform, o.client);
          return Ok(Some(accepted));
        }
        return Err(OsFailure(SelectCall));
      }
    }

    /** Accept(timeout) with the two corrections: is_opened_ is cleared before Listen is
        re-run on Windows, and a failed accept is reported on POSIX. */
    method AcceptTimeout(ns: Namespace, timeout: Uint32, o: PipeSpec.TimedAcceptOracle)
      returns (r: Result<Option<NamedPipe>>)
      modifies this, ns
      ensures var t := PipeSpec.AcceptTimeout(platform, old(State()), old(ns.entries), o);
        State() == t.server && ns.entries == t.entries &&
        (r.Err? <==> t.result.Err?) &&
        (r.Err? ==> t.result == Err(r.failure)) &&
        (r.Ok? ==> (r.value.None? <==> t.result.value.None?)) &&
        (r.Ok? && r.value.Some? ==>
          fresh(r.value.value) && r.value.value.platform == platform && t.result.value == Some(r.value.value.State()))
    {
      if !isServer {
        return Err(NotServer);
      }
      if !isOpened {
        return Err(NotOpened);
      }
      if platform == Windows {
        if !o.pending {
          return Err(OsFailure(AsyncConnect));
        }
        if o.alreadyConnected && !o.setEventOk {
          return Err(OsFailure(SetEventCall));
        }
        if !o.signalled {
          return Ok(None);
        }
        var client := pipeId;
        isOpened := false;
        var relisten := Listen(ns, o.relisten);
        if relisten.Err? {
          return Err(relisten.failure);
        }
        var accepted := new NamedPipe.FromHandle(platform, client);
        return Ok(Some(accepted));
      } else {
        if o.selected == 0 {
          return Ok(None);
        }
        if !o.ready {
          return Err(OsFailure(SelectCall));
        }
        if o.client == InvalidHandle {
          return Err(OsFailure(AcceptCall));
        }
        var accepted := new NamedPipe.FromHandle(platform, o.client);
        return Ok(Some(accepted));
      }
    }

    method Connect(o: PipeSpec.ConnectOracle) returns (r: Result<()>)
      requires PipeSpec.ConnectReturns(platform, State(), o)
      modifies this
      ensures var t := PipeSpec.Connect(platform, old(State()), o);
        r == t.status && State() == t.pipe
    {
      if isServer {
        return Err(NotClient);
      }
      if isOpened {
        return Err(AlreadyOpened);
      }
      if platform == Windows {
        // WaitNamedPipeA, then CreateFileA, for as long as the pipe is busy
        var i := 0;
        while true
          invariant 0 <= i <= PipeSpec.FirstExit(o.attempts)
          invariant State() == old(State()).(pipeId := pipeId)
          decreases PipeSpec.FirstExit(o.attempts) - i
        {
          pipeId := o.attempts[i].handle;
          if pipeId != InvalidHandle || !o.attempts[i].busy {
            break;
          }
          i := i + 1;
        }
        assert i == PipeSpec.FirstExit(o.attempts);
      } else {
        pipeId := o.socket;
      }
      if pipeId == InvalidHandle {
        return Err(OsFailure(OpenPipe));
      }
      if platform == Windows {
        if !o.setStateOk {
          return Err(OsFailure(SetHandleState));
        }
      } else {
        if !o.connectOk {
          return Err(OsFailure(ConnectCall));
        }
      }
      isOpened := true;
      return Ok(());
    }

    method Close(ns: Namespace) returns (r: Result<()>)
      modifies this, ns
      ensures var t := PipeSpec.Close(platform, old(State()), old(ns.entries));
        r == t.status && State() == t.pipe && ns.entries == t.entries
    {
      if !isOpened {
        return Err(NotOpened);
      }
      if platform == Windows {
        if isServer || isClientOfServer {
          // DisconnectNamedPipe, CloseHandle
          pipeId := NullHandle;
        }
      } else {
        if isServer {
          ns.entries := ns.entries - {path};  // unlink
        }
        // ::close leaves the number in the field
      }
      isOpened := false;
      return Ok(());
    }
  }
}
