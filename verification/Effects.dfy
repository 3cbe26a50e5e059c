// What a message does to the registry's handles, apart from bytes written and
// lines shown: at most one of a handful of effects.
module Effects {
  import opened Prelude
  import opened Ids
  import opened Model
  import opened Repl
  import opened Machine

  datatype Effect =
    | Quiet
    | OpenedServer(sid: ConnectionId, path: Option<string>)
    | OpenedClient(id: ConnectionId, peer: PeerInfo)
    | AcceptedStream(base: Base, peer: PeerInfo)
    | ClosedOne(id: ConnectionId)
    | ClosedGroup(sid: ConnectionId)
    | Relabeled(id: ConnectionId, name: string)
    | ClosedAll

  function CommandEffect(s: State, cmd: Command, oracle: Oracle): Effect {
    match cmd
    case OpenTcpServer(port) =>
      if RunCommand(s, cmd, oracle).1.Ok? then OpenedServer(TcpServer(port), None) else Quiet
    case OpenIpcServer(path) =>
      if RunCommand(s, cmd, oracle).1.Ok? then OpenedServer(IpcServer(path), Some(path)) else Quiet
    case OpenTcpClient(localPort, host, port) =>
      if RunCommand(s, cmd, oracle).1.Ok? then
        OpenedClient(TcpClient(localPort), TcpSocket(host + ":" + Decimal.Dec(port)))
      else Quiet
    case OpenIpcClient(path) =>
      if RunCommand(s, cmd, oracle).1.Ok? then OpenedClient(IpcClient(s.nextSeq), IpcRemotePath(path)) else Quiet
    case Close(token) =>
      if CloseToken(s, token).1.Err? then Quiet
      else
        var id := Resolve(s, token).value;
        if id in s.servers then ClosedGroup(id) else ClosedOne(id)
    case Label(token, name) =>
      if LabelToken(s, token, name).1.Ok? then Relabeled(Resolve(s, token).value, name) else Quiet
    case Send(_, _) => Quiet
    case Status => Quiet
  }

  function EffectOf(s: State, input: Input, seed: U32): Effect {
    match input
    case UserCommand(cmd, oracle) => CommandEffect(s, cmd, oracle)
    case Event(ClosedEvent(id)) => if id in s.streams then ClosedOne(id) else Quiet
    case Event(_) => Quiet
    case Accepted(parent, child, peer) =>
      (match BaseFor(parent, child)
       case Some(base) => if Allocate(s, base, seed).Ok? then AcceptedStream(base, peer) else Quiet
       case None => Quiet)
    case ShutdownRequest => ClosedAll
  }

  /** The state that the effect alone leads to. */
  function After(s: State, effect: Effect, seed: U32): State {
    match effect
    case Quiet => s
    case OpenedServer(sid, path) => OpenServer(s, sid, path)
    case OpenedClient(id, peer) => OpenStream(s, id, peer, None)
    case AcceptedStream(base, peer) =>
      (match Allocate(s, base, seed)
       case Ok(a) => OpenStream(a.state, a.id, peer, Some(base.Server()))
       case Err(_) => s)
    case ClosedOne(id) => DropStream(s, id)
    case ClosedGroup(sid) => DropServer(s, sid)
    case Relabeled(id, name) => ApplyLabel(s, id, name).0
    case ClosedAll => Shutdown(s)
  }

  /** Two states with the same handles, labels, tasks and files; output, display and sequence number apart. */
  predicate SameCore(s: State, t: State) {
    t.servers == s.servers && t.labels == s.labels
    && t.host.tasks == s.host.tasks && t.host.aborted == s.host.aborted && t.host.unlinked == s.host.unlinked
    && t.streams.Keys == s.streams.Keys
    && forall id | id in s.streams ::
         t.streams[id].state == s.streams[id].state && t.streams[id].readTask == s.streams[id].readTask
         && t.streams[id].parent == s.streams[id].parent
  }

  lemma BroadcastSameCore(s: State, ids: set<ConnectionId>, order: seq<ConnectionId>, bytes: seq<U8>,
                          writes: map<ConnectionId, WriteOutcome>)
    ensures SameCore(s, Broadcast(s, ids, order, bytes, writes))
  {
  }

  lemma WriteSameCore(s: State, id: ConnectionId, bytes: seq<U8>, outcome: WriteOutcome)
    ensures SameCore(s, WriteTo(s, id, bytes, outcome))
  {
  }

  lemma SendHasEffect(s: State, token: string, bytes: seq<U8>, oracle: Oracle)
    ensures SameCore(s, SendToken(s, token, bytes, oracle).0)
  {
    if Resolve(s, token).Ok? {
      var id := Resolve(s, token).value;
      if id in s.servers {
        BroadcastSameCore(s, s.servers[id].children, oracle.walk.ChildrenOf(id), bytes, oracle.writes);
      }
      WriteSameCore(s, id, bytes, OutcomeOf(oracle.writes, id));
    }
  }

  lemma OpenClientHasEffect(s: State, id: ConnectionId, peer: PeerInfo)
    ensures SameCore(OpenStream(s, id, peer, None), OpenClient(s, id, peer))
    ensures SameCore(OpenStream(s, id, peer, None), OpenClient(NextSeq(s), id, peer))
  {
  }

  lemma ShowSameCore(s: State, line: Line)
    ensures SameCore(s, s.Show(line))
  {
  }

  lemma CloseHasEffect(s: State, token: string, oracle: Oracle, seed: U32)
    ensures SameCore(After(s, CommandEffect(s, Close(token), oracle), seed), CloseToken(s, token).0)
  {
    match Resolve(s, token)
    case Err(_) =>
    case Ok(id) =>
      if id in s.servers {
        ShowSameCore(DropServer(s, id), ClosedLine(Render(id)));
      } else if id in s.streams {
        ShowSameCore(DropStream(s, id), ClosedLine(Render(id)));
      }
  }

  lemma LabelHasEffect(s: State, token: string, name: string, oracle: Oracle, seed: U32)
    ensures SameCore(After(s, CommandEffect(s, Label(token, name), oracle), seed), LabelToken(s, token, name).0)
  {
    if Resolve(s, token).Ok? {
      RefusedLabel(s, Resolve(s, token).value, name);
    }
    SameCoreItself(LabelToken(s, token, name).0);
  }

  lemma SameCoreItself(s: State)
    ensures SameCore(s, s)
  {
  }

  /** A label that is refused changes nothing. */
  lemma RefusedLabel(s: State, id: ConnectionId, name: string)
    ensures ApplyLabel(s, id, name).1.Err? ==> ApplyLabel(s, id, name).0 == s
  {
  }

  lemma OpenClientCommandHasEffect(s: State, cmd: Command, oracle: Oracle, seed: U32)
    requires cmd.OpenTcpClient? || cmd.OpenIpcClient?
    ensures SameCore(After(s, CommandEffect(s, cmd, oracle), seed), RunCommand(s, cmd, oracle).0)
  {
    match cmd
    case OpenTcpClient(localPort, host, port) =>
      OpenClientHasEffect(s, TcpClient(localPort), TcpSocket(host + ":" + Decimal.Dec(port)));
    case OpenIpcClient(path) => OpenClientHasEffect(s, IpcClient(s.nextSeq), IpcRemotePath(path));
  }

  lemma OpenServerHasEffect(s: State, cmd: Command, oracle: Oracle, seed: U32)
    requires cmd.OpenTcpServer? || cmd.OpenIpcServer?
    ensures SameCore(After(s, CommandEffect(s, cmd, oracle), seed), RunCommand(s, cmd, oracle).0)
  {
  }

  lemma CommandHasEffect(s: State, cmd: Command, oracle: Oracle, seed: U32)
    ensures SameCore(After(s, CommandEffect(s, cmd, oracle), seed), RunCommand(s, cmd, oracle).0)
  {
    match cmd
    case OpenTcpServer(_) => OpenServerHasEffect(s, cmd, oracle, seed);
    case OpenIpcServer(_) => OpenServerHasEffect(s, cmd, oracle, seed);
    case OpenTcpClient(_, _, _) => OpenClientCommandHasEffect(s, cmd, oracle, seed);
    case OpenIpcClient(_) => OpenClientCommandHasEffect(s, cmd, oracle, seed);
    case Send(token, bytes) => SendHasEffect(s, token, bytes, oracle);
    case Close(token) => CloseHasEffect(s, token, oracle, seed);
    case Label(token, name) => LabelHasEffect(s, token, name, oracle, seed);
    case Status => SameCoreItself(s);
  }

  lemma AcceptedHasEffect(s: State, base: Base, peer: PeerInfo, seed: U32)
    requires Allocate(s, base, seed).Ok?
    ensures var a := Allocate(s, base, seed).value;
            SameCore(OpenStream(a.state, a.id, peer, Some(base.Server())),
                     OpenStream(ShowRename(a.state, a.renamed), a.id, peer, Some(base.Server())))
  {
  }

  lemma EventHasEffect(s: State, event: NetEvent, seed: U32)
    ensures SameCore(After(s, EffectOf(s, Event(event), seed), seed), Machine.HandleEvent(s, event))
  {
  }

  /** Every step that does not panic has just the effect that is named for it. */
  lemma StepHasEffect(s: State, input: Input, seed: U32)
    requires !Step(s, input, seed).Panicked?
    ensures SameCore(After(s, EffectOf(s, input, seed), seed), Step(s, input, seed).state)
  {
    match input
    case UserCommand(cmd, oracle) => CommandHasEffect(s, cmd, oracle, seed);
    case Accepted(parent, child, peer) =>
      if BaseFor(parent, child).Some? {
        AcceptedHasEffect(s, BaseFor(parent, child).value, peer, seed);
      }
    case Event(event) => EventHasEffect(s, event, seed);
    case ShutdownRequest =>
  }

  /** The effect is one that can happen in `s`. */
  predicate Possible(s: State, effect: Effect, seed: U32) {
    match effect
    case Quiet => true
    case OpenedServer(sid, path) =>
      sid.IsServer() && sid !in s.servers && path == if sid.IpcServer? then Some(sid.path) else None
    case OpenedClient(id, _) =>
      (id.TcpClient? && !s.IsLive(id)) || id == IpcClient(s.nextSeq)
    case AcceptedStream(base, _) => Allocate(s, base, seed).Ok?
    case ClosedOne(id) => id in s.streams
    case ClosedGroup(sid) => sid in s.servers
    case Relabeled(id, name) => ApplyLabel(s, id, name).1.Ok?
    case ClosedAll => true
  }

  lemma EffectIsPossible(s: State, input: Input, seed: U32)
    ensures Possible(s, EffectOf(s, input, seed), seed)
  {
  }

  // Reissued ids

  /** The id under which an effect inserts a stream, if it does. */
  function IdOfEffect(s: State, effect: Effect, seed: U32): Option<ConnectionId> {
    match effect
    case OpenedClient(id, _) => Some(id)
    case AcceptedStream(base, _) =>
      (match Allocate(s, base, seed)
       case Ok(a) => Some(a.id)
       case Err(_) => None)
    case _ => None
  }

  function InsertedId(s: State, input: Input, seed: U32): Option<ConnectionId> {
    IdOfEffect(s, EffectOf(s, input, seed), seed)
  }

  /** The message inserts no stream under an id that is still live. */
  predicate Fresh(s: State, input: Input, seed: U32) {
    InsertedId(s, input, seed).Some? ==> InsertedId(s, input, seed).value !in s.streams
  }

  /** No message of the run reissues a live id. */
  ghost predicate NoReissue(inputs: seq<Input>, seed: U32) {
    forall k | 0 <= k < |inputs| && Run(inputs[..k], seed).Running? ::
      Fresh(Run(inputs[..k], seed).state, inputs[k], seed)
  }

  /** A prefix of such a run is one too, and its last message is fresh. */
  lemma NoReissueInit(inputs: seq<Input>, seed: U32)
    requires inputs != [] && NoReissue(inputs, seed)
    ensures var init := inputs[..|inputs| - 1];
            NoReissue(init, seed)
            && (Run(init, seed).Running? ==> Fresh(Run(init, seed).state, inputs[|inputs| - 1], seed))
  {
    var init := inputs[..|inputs| - 1];
    forall k | 0 <= k < |init| && Run(init[..k], seed).Running?
      ensures Fresh(Run(init[..k], seed).state, init[k], seed)
    {
      assert init[..k] == inputs[..k];
    }
  }
}
