// The registry task as a state machine: one message is one step. Results of the
// operating system and the walking order of hash maps are part of the message.
module Machine {
  import opened Prelude
  import opened Ids
  import opened Model
  import opened Repl
  import TokenParser
  import StatusReport

  /** The number the code stores for the third connection of a base. */
  const CODE_SEED: U32 := 2

  datatype Success =
    | ListeningOn(id: ConnectionId)
    | ClientConnected(id: ConnectionId)
    | ClosedServer(id: ConnectionId)
    | ClosedStream(id: ConnectionId)
    | SentBytes(count: nat, id: ConnectionId)
    | Labeled(id: ConnectionId, name: string)
    | Report(text: string)

  type Reply = Result<Success, DomainError>

  /** `failure`: why bind or connect failed, if it did. `writes`: what each socket did. */
  datatype Oracle = Oracle(
    failure: Option<string>,
    writes: map<ConnectionId, WriteOutcome>,
    walk: StatusReport.Iteration)

  datatype NetEvent =
    | Received(id: ConnectionId, bytes: seq<U8>)
    | ClosedEvent(id: ConnectionId)
    | ErrorEvent(id: ConnectionId, message: string)
    | Renamed(newId: ConnectionId, oldId: ConnectionId)

  datatype Input =
    | UserCommand(cmd: Command, oracle: Oracle)
    | Event(event: NetEvent)
    | Accepted(parent: ConnectionId, child: ConnectionId, peer: PeerInfo)
    | ShutdownRequest

  datatype Outcome =
    | Running(state: State, reply: Option<Reply>)
    | Stopped(state: State)
    | Panicked(panic: Panic)

  // Commands

  function FirstLive(s: State, ids: seq<ConnectionId>): Option<ConnectionId> {
    if ids == [] then None
    else if s.IsLive(ids[0]) then Some(ids[0])
    else FirstLive(s, ids[1..])
  }

  /** Labels first, then the first candidate that is live. */
  function Resolve(s: State, token: string): Result<ConnectionId, DomainError> {
    if token in s.labels then Ok(s.labels[token])
    else
      match FirstLive(s, TokenParser.Candidates(token))
      case Some(id) => Ok(id)
      case None => Err(UnknownId(token))
  }

  function OpenServer(s: State, id: ConnectionId, path: Option<string>): State {
    var handle := ServerHandle(ConnectionState.NewConnected(id, None), |s.host.tasks|, {}, path, map[], map[]);
    s.Spawn(AcceptTask(id)).(servers := s.servers[id := handle]).Show(Listening(id))
  }

  function OpenClient(s: State, id: ConnectionId, peer: PeerInfo): State {
    OpenStream(s, id, peer, None).Show(ConnectedTo(id, peer.Text()))
  }

  function NextSeq(s: State): State {
    s.(nextSeq := if s.nextSeq == U32_MAX then U32_MAX else s.nextSeq + 1)
  }

  function CloseToken(s: State, token: string): (State, Reply) {
    match Resolve(s, token)
    case Err(e) => (s, Err(e))
    case Ok(id) =>
      if id in s.servers then (DropServer(s, id).Show(ClosedLine(Render(id))), Ok(ClosedServer(id)))
      else if id in s.streams then (DropStream(s, id).Show(ClosedLine(Render(id))), Ok(ClosedStream(id)))
      else (s, Err(UnknownId(token)))
  }

  function SendToken(s: State, token: string, bytes: seq<U8>, oracle: Oracle): (State, Reply) {
    match Resolve(s, token)
    case Err(e) => (s, Err(e))
    case Ok(id) =>
      var (s', r) := SendBytes(s, id, bytes, oracle.walk.ChildrenOf(id), oracle.writes);
      (s', if r.Ok? then Ok(SentBytes(|bytes|, id)) else Err(r.error))
  }

  function LabelToken(s: State, token: string, name: string): (State, Reply) {
    match Resolve(s, token)
    case Err(e) => (s, Err(e))
    case Ok(id) =>
      var (s', r) := ApplyLabel(s, id, name);
      (s', if r.Ok? then Ok(Labeled(id, name)) else Err(r.error))
  }

  function RunCommand(s: State, cmd: Command, oracle: Oracle): (State, Reply) {
    match cmd
    case OpenTcpServer(port) =>
      var id := TcpServer(port);
      if s.IsLive(id) then (s, Err(IdAlreadyInUse(Render(id))))
      else if oracle.failure.Some? then (s, Err(Io(oracle.failure.value)))
      else (OpenServer(s, id, None), Ok(ListeningOn(id)))
    case OpenIpcServer(path) =>
      var id := IpcServer(path);
      if id in s.servers then (s, Err(IdAlreadyInUse(path)))
      else if oracle.failure.Some? then (s, Err(Io(oracle.failure.value)))
      else (OpenServer(s, id, Some(path)), Ok(ListeningOn(id)))
    case OpenTcpClient(localPort, host, port) =>
      var id := TcpClient(localPort);
      if s.IsLive(id) then (s, Err(IdAlreadyInUse(Render(id))))
      else if oracle.failure.Some? then (s, Err(Io(oracle.failure.value)))
      else (OpenClient(s, id, TcpSocket(host + ":" + Decimal.Dec(port))), Ok(ClientConnected(id)))
    case OpenIpcClient(path) =>
      var id := IpcClient(s.nextSeq);
      if oracle.failure.Some? then (NextSeq(s), Err(Io(oracle.failure.value)))
      else (OpenClient(NextSeq(s), id, IpcRemotePath(path)), Ok(ClientConnected(id)))
    case Close(token) => CloseToken(s, token)
    case Send(token, bytes) => SendToken(s, token, bytes, oracle)
    case Label(token, name) => LabelToken(s, token, name)
    case Status => (s, Ok(Report(StatusReport.StatusText(s, oracle.walk))))
  }

  // Events and accepted connections

  function HandleEvent(s: State, event: NetEvent): State {
    match event
    case Received(id, bytes) => OnReceived(s, id, bytes)
    case ClosedEvent(id) => OnClosedEvent(s, id)
    case ErrorEvent(id, message) => OnErrorEvent(s, id, message)
    case Renamed(_, _) => s
  }

  /** The numbering an accepted connection falls under, if its message has a sensible shape. */
  function BaseFor(parent: ConnectionId, child: ConnectionId): Option<Base> {
    match (parent, child)
    case (TcpServer(port), AcceptedTcp(_, remote, _)) => Some(TcpBase(port, remote))
    case (IpcServer(path), AcceptedIpc(_, pid, _)) => Some(IpcBase(path, pid))
    case _ => None
  }

  function ShowRename(s: State, renamed: Option<(ConnectionId, ConnectionId)>): State {
    match renamed
    case Some((newId, oldId)) => s.Show(RenamedLine(newId, oldId))
    case None => s
  }

  function HandleAccepted(s: State, parent: ConnectionId, child: ConnectionId, peer: PeerInfo, seed: U32)
    : Result<State, Panic>
  {
    match BaseFor(parent, child)
    case None => Ok(s.Show(MismatchLine(parent)))
    case Some(base) =>
      match Allocate(s, base, seed)
      case Err(panic) => Err(panic)
      case Ok(a) =>
        Ok(OpenStream(ShowRename(a.state, a.renamed), a.id, peer, Some(parent)).Show(AcceptLine(a.id, peer.Text())))
  }

  /** What an accept loop sends to the registry for a new peer; `None` if it ignores the peer. */
  function AcceptMessage(server: ConnectionId, peer: PeerInfo): Option<Input> {
    match (server, peer)
    case (TcpServer(port), TcpSocket(addr)) =>
      (match TokenParser.RemotePort(addr)
       case Some(remote) => Some(Accepted(server, AcceptedTcp(port, remote, None), peer))
       case None => None)
    case (IpcServer(path), IpcPid(pid)) => Some(Accepted(server, AcceptedIpc(path, pid, None), peer))
    case _ => None
  }

  // Steps and runs

  function Step(s: State, input: Input, seed: U32): Outcome {
    match input
    case UserCommand(cmd, oracle) =>
      var (s', reply) := RunCommand(s, cmd, oracle);
      Running(s', Some(reply))
    case Event(event) => Running(HandleEvent(s, event), None)
    case Accepted(parent, child, peer) =>
      (match HandleAccepted(s, parent, child, peer, seed)
       case Ok(s') => Running(s', None)
       case Err(panic) => Panicked(panic))
    case ShutdownRequest => Stopped(Shutdown(s))
  }

  /** A run from `s`; nothing happens any more once the task has stopped or panicked. */
  function RunFrom(s: State, inputs: seq<Input>, seed: U32): Outcome {
    if inputs == [] then Running(s, None)
    else
      match RunFrom(s, inputs[..|inputs| - 1], seed)
      case Running(s', _) => Step(s', inputs[|inputs| - 1], seed)
      case Stopped(s') => Stopped(s')
      case Panicked(panic) => Panicked(panic)
  }

  function Run(inputs: seq<Input>, seed: U32): Outcome {
    RunFrom(EMPTY, inputs, seed)
  }
}
