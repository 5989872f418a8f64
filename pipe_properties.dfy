/** Properties of the NamedPipe lifecycle that relate several operations: rendezvous on a
    shared name, repeated calls, the server's restart after close, the Windows retry loop,
    an invariant of one endpoint kept by every sequence of calls on it, and the two defects
    of Accept(timeout). */
module PipeProperties {
  import opened Common
  import opened PipeSpec

  /** Two endpoints meet on the same namespace path exactly when they were built from the
      same logical name. */
  lemma CreatedRendezvous(p: Platform, a: string, b: string, aServer: bool, bServer: bool)
    ensures Created(p, a, aServer).path == Created(p, b, bServer).path <==> a == b
  {
    var pa, pb := Created(p, a, aServer).path, Created(p, b, bServer).path;
    if pa == pb {
      assert a == pa[|PathPrefix(p)|..] == pb[|PathPrefix(p)|..] == b;
    }
  }

  /** Listen twice without a Close in between: the second call is refused and changes nothing. */
  lemma ListenTwiceFails(p: Platform, s: PipeState, entries: set<string>, o1: ListenOracle, o2: ListenOracle)
    requires Listen(p, s, entries, o1).status.Ok?
    ensures var t := Listen(p, s, entries, o1);
      Listen(p, t.pipe, t.entries, o2) == Step(Err(AlreadyOpened), t.pipe, t.entries)
  {
  }

  /** Close twice: the second call is refused with NotOpened and changes nothing. */
  lemma CloseTwiceFails(p: Platform, s: PipeState, entries: set<string>)
    requires Close(p, s, entries).status.Ok?
    ensures var t := Close(p, s, entries);
      Close(p, t.pipe, t.entries) == Step(Err(NotOpened), t.pipe, t.entries)
  {
  }

  /** On POSIX a listening server owns its path entry; destroying the server removes it, and
      the same endpoint can Listen again afterwards. */
  lemma PosixServerRestarts(s: PipeState, entries: set<string>, o1: ListenOracle, o2: ListenOracle)
    requires Listen(Posix, s, entries, o1).status.Ok?
    requires o2.created != InvalidHandle && o2.bindOk && o2.listenOk
    ensures var up := Listen(Posix, s, entries, o1);
      var down := Destroy(Posix, up.pipe, up.entries);
      var again := Listen(Posix, down.pipe, down.entries, o2);
      s.path in up.entries && s.path !in down.entries &&
      again.status.Ok? && again.pipe.isOpened && s.path in again.entries
  {
  }

  /** The Windows retry loop goes past every busy round and stops at the first other one. */
  lemma ConnectSkipsBusyRounds(attempts: seq<OpenAttempt>, k: nat)
    requires k < |attempts| && Exits(attempts[k])
    requires forall j :: 0 <= j < k ==> attempts[j].handle == InvalidHandle && attempts[j].busy
    ensures EventuallyExits(attempts) && FirstExit(attempts) == k
  {
    assert EventuallyExits(attempts);
    var f := FirstExit(attempts);
    assert attempts[f].handle != InvalidHandle || !attempts[f].busy;
  }

  /** The whole connection sequence of the demonstration: a server and a client built from
      the same name, Listen, Connect, Accept, then Close on all three endpoints. */
  lemma ServerAndClientMeet(p: Platform, name: string, entries: set<string>, h: nat)
    ensures EventuallyExits([OpenAttempt(h + 1, false)])
    ensures var server := Created(p, name, true);
      var client := Created(p, name, false);
      var listened := Listen(p, server, entries, ListenOracle(h, true, true));
      var connected := Connect(p, client, ConnectOracle([OpenAttempt(h + 1, false)], true, h + 1, true));
      var accepted := Accept(p, listened.pipe, listened.entries, AcceptOracle(true, h + 2, ListenOracle(h + 3, true, true)));
      listened.status.Ok? && connected.status.Ok? && accepted.result.Ok? &&
      server.path == client.path &&
      Close(p, connected.pipe, accepted.entries).status.Ok? &&
      Close(p, accepted.result.value.value, accepted.entries).status.Ok? &&
      Close(p, accepted.server, accepted.entries).status.Ok?
  {
    ConnectSkipsBusyRounds([OpenAttempt(h + 1, false)], 0);
  }

  // ---------------------------------------------------------------- the two defects

  /** Windows, as written: once a client is ready the timed Accept always throws
      AlreadyOpened, because Listen is re-entered with is_opened_ still set; the corrected
      form hands out the connected handle whenever the new pipe instance can be created. */
  lemma TimedAcceptOnWindowsAlwaysThrows(s: PipeState, entries: set<string>, o: TimedAcceptOracle)
    requires s.isServer && s.isOpened && ReadyToAccept(Windows, o)
    ensures AcceptTimeoutAsWritten(Windows, s, entries, o).result == Err(AlreadyOpened)
    ensures o.relisten.created != InvalidHandle ==>
      AcceptTimeout(Windows, s, entries, o).result == Ok(Some(Accepted(s.pipeId)))
  {
  }

  /** POSIX, as written: when select reports readiness but accept fails, the timed Accept
      hands out an opened endpoint whose handle is the invalid sentinel; the corrected form
      reports the failure instead. */
  lemma TimedAcceptOnPosixKeepsFailedHandle(s: PipeState, entries: set<string>, o: TimedAcceptOracle)
    requires s.isServer && s.isOpened && o.selected != 0 && o.ready && o.client == InvalidHandle
    ensures var r := AcceptTimeoutAsWritten(Posix, s, entries, o);
      r.result.Ok? && r.result.value.Some? &&
      r.result.value.value.isOpened && !HandleValidWhenOpen(r.result.value.value)
    ensures AcceptTimeout(Posix, s, entries, o).result == Err(OsFailure(AcceptCall))
  {
  }

  // ---------------------------------------------------------------- sequences of calls

  /** An endpoint and the filesystem entries around it. */
  datatype World = World(pipe: PipeState, entries: set<string>)

  /** One public call on an endpoint, with what its OS calls return; the timed accept
      appears both as the source writes it and corrected. */
  datatype Op =
    | ListenOp(lo: ListenOracle)
    | AcceptOp(ao: AcceptOracle)
    | AcceptTimeoutAsWrittenOp(tw: TimedAcceptOracle)
    | AcceptTimeoutOp(to: TimedAcceptOracle)
    | ConnectOp(co: ConnectOracle)
    | CloseOp

  /** What every reachable endpoint satisfies: it is never both a server and an accepted
      connection, an opened endpoint holds a valid handle, and an opened POSIX server's
      socket file exists. The last clause assumes no other endpoint uses the same path:
      another server's Listen or Close unlinks the shared socket file. */
  predicate Inv(p: Platform, w: World) {
    !(w.pipe.isServer && w.pipe.isClientOfServer) &&
    HandleValidWhenOpen(w.pipe) &&
    (p.Posix? && w.pipe.isServer && w.pipe.isOpened ==> w.pipe.path in w.entries)
  }

  /** Both constructors start in the invariant (the private one when given a valid handle). */
  lemma ConstructedEndpointsSatisfyInv(p: Platform, name: string, isServer: bool, id: PipeId, entries: set<string>)
    ensures Inv(p, World(Created(p, name, isServer), entries))
    ensures Inv(p, World(Accepted(id), entries)) <==> id != InvalidHandle
  {
  }

  /** The effect of one call on the endpoint (a thrown error leaves what the call left). */
  function Apply(p: Platform, w: World, op: Op): (r: World)
    requires op.ConnectOp? ==> ConnectReturns(p, w.pipe, op.co)
    ensures SameIdentity(w.pipe, r.pipe)
    ensures Inv(p, w) ==> Inv(p, r)
  {
    match op
    case ListenOp(o) =>
      var t := Listen(p, w.pipe, w.entries, o);
      World(t.pipe, t.entries)
    case AcceptOp(o) =>
      var t := Accept(p, w.pipe, w.entries, o);
      World(t.server, t.entries)
    case AcceptTimeoutAsWrittenOp(o) =>
      var t := AcceptTimeoutAsWritten(p, w.pipe, w.entries, o);
      World(t.server, t.entries)
    case AcceptTimeoutOp(o) =>
      var t := AcceptTimeout(p, w.pipe, w.entries, o);
      World(t.server, t.entries)
    case ConnectOp(o) =>
      World(Connect(p, w.pipe, o).pipe, w.entries)
    case CloseOp =>
      var t := Close(p, w.pipe, w.entries);
      World(t.pipe, t.entries)
  }

  /** The calls of `ops` in order; a Connect whose retry loop never exits blocks for good,
      so nothing after it happens. */
  function Run(p: Platform, w: World, ops: seq<Op>): World
    decreases |ops|
  {
    if ops == [] then w
    else if ops[0].ConnectOp? && !ConnectReturns(p, w.pipe, ops[0].co) then w
    else Run(p, Apply(p, w, ops[0]), ops[1..])
  }

  /** Every sequence of calls keeps the invariant, and never changes role, origin or path. */
  lemma {:induction false} RunKeepsInv(p: Platform, w: World, ops: seq<Op>)
    requires Inv(p, w)
    ensures Inv(p, Run(p, w, ops))
    ensures SameIdentity(w.pipe, Run(p, w, ops).pipe)
    decreases |ops|
  {
    if ops != [] && !(ops[0].ConnectOp? && !ConnectReturns(p, w.pipe, ops[0].co)) {
      RunKeepsInv(p, Apply(p, w, ops[0]), ops[1..]);
    }
  }
}
