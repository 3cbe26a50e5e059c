// The registry's state as a value, and the effect of each registry operation on
// it in closed form: no loop, no iteration order.
module Model {
  import opened Prelude
  import opened Decimal
  import opened Ids

  datatype PeerInfo =
    | TcpSocket(addr: string)
    | IpcPid(pid: I32)
    | IpcRemotePath(path: string)
  {
    function Text(): string {
      match this
      case TcpSocket(addr) => addr
      case IpcPid(pid) => "pid=" + IntText(pid)
      case IpcRemotePath(path) => path
    }
  }

  datatype ConnectionStatus = Connected | Closing | Closed

  /** `alias` is the user's label. */
  datatype ConnectionState = ConnectionState(
    id: ConnectionId,
    status: ConnectionStatus,
    alias: Option<string>,
    peerInfo: Option<PeerInfo>)
  {
    static function NewConnected(id: ConnectionId, peerInfo: Option<PeerInfo>): ConnectionState {
      ConnectionState(id, Connected, None, peerInfo)
    }

    function OnClosed(): ConnectionState {
      this.(status := Closed)
    }
  }

  /**
   * A live stream. `output` is all that was ever written to its socket and
   * `readTask` is the number of the task that reads it: the number never changes,
   * so it also tells apart connections that bear the same id.
   */
  datatype StreamHandle = StreamHandle(
    state: ConnectionState,
    output: seq<U8>,
    readTask: nat,
    parent: Option<ConnectionId>)

  datatype ServerHandle = ServerHandle(
    state: ConnectionState,
    acceptTask: nat,
    children: set<ConnectionId>,
    ipcPath: Option<string>,
    disambigNext: map<string, U32>,
    baseNoSuffix: map<string, ConnectionId>)

  /** A spawned task and the id it captured: reader events carry `readId` for ever. */
  datatype Task = AcceptTask(server: ConnectionId) | ReadTask(readId: ConnectionId)

  datatype Line =
    | Listening(id: ConnectionId)
    | ConnectedTo(id: ConnectionId, remote: string)
    | ClosedLine(name: string)
    | ReceivedLine(name: string, bytes: seq<U8>)
    | SendFailure(name: string, error: DomainError)
    | Failure(name: string, message: string)
    | RenamedLine(newId: ConnectionId, oldId: ConnectionId)
    | AcceptLine(id: ConnectionId, peer: string)
    | MismatchLine(parent: ConnectionId)

  /** What the program did to the outside: tasks are numbered by their place in `tasks`. */
  datatype Host = Host(
    tasks: seq<Task>,
    aborted: multiset<nat>,
    unlinked: multiset<string>,
    display: seq<Line>)

  datatype State = State(
    streams: map<ConnectionId, StreamHandle>,
    servers: map<ConnectionId, ServerHandle>,
    labels: map<string, ConnectionId>,
    nextSeq: U32,
    host: Host)
  {
    predicate IsLive(id: ConnectionId) {
      id in streams || id in servers
    }

    function LabelOf(id: ConnectionId): Option<string> {
      if id in streams then streams[id].state.alias
      else if id in servers then servers[id].state.alias
      else None
    }

    function DisplayName(id: ConnectionId): string {
      if id in streams && streams[id].state.alias.Some? then streams[id].state.alias.value
      else if id in servers && servers[id].state.alias.Some? then servers[id].state.alias.value
      else Render(id)
    }

    function Show(line: Line): State {
      this.(host := host.(display := host.display + [line]))
    }

    function Spawn(task: Task): State {
      this.(host := host.(tasks := host.tasks + [task]))
    }
  }

  const EMPTY: State := State(map[], map[], map[], 1, Host([], multiset{}, multiset{}, []))

  // Streams

  function WithChild(servers: map<ConnectionId, ServerHandle>, parent: Option<ConnectionId>, id: ConnectionId)
    : map<ConnectionId, ServerHandle>
  {
    if parent.Some? && parent.value in servers then
      servers[parent.value := servers[parent.value].(children := servers[parent.value].children + {id})]
    else servers
  }

  function WithoutChild(servers: map<ConnectionId, ServerHandle>, parent: Option<ConnectionId>, id: ConnectionId)
    : map<ConnectionId, ServerHandle>
  {
    if parent.Some? && parent.value in servers then
      servers[parent.value := servers[parent.value].(children := servers[parent.value].children - {id})]
    else servers
  }

  function InsertStream(s: State, handle: StreamHandle): State {
    s.(servers := WithChild(s.servers, handle.parent, handle.state.id),
       streams := s.streams[handle.state.id := handle])
  }

  /** Start a reader for a new connection and register the connection. */
  function OpenStream(s: State, id: ConnectionId, peer: PeerInfo, parent: Option<ConnectionId>): State {
    InsertStream(s.Spawn(ReadTask(id)),
                 StreamHandle(ConnectionState.NewConnected(id, Some(peer)), [], |s.host.tasks|, parent))
  }

  function DropStream(s: State, id: ConnectionId): State {
    if id !in s.streams then s
    else
      var h := s.streams[id];
      s.(streams := s.streams - {id},
         servers := WithoutChild(s.servers, h.parent, id),
         labels := if h.state.alias.Some? then s.labels - {h.state.alias.value} else s.labels,
         host := s.host.(aborted := s.host.aborted + multiset{h.readTask}))
  }

  // Groups of streams, in no order

  function LabelsAmong(s: State, ids: set<ConnectionId>): set<string> {
    set id | id in ids && id in s.streams && s.streams[id].state.alias.Some? :: s.streams[id].state.alias.value
  }

  function ReadersAmong(s: State, ids: set<ConnectionId>): set<nat> {
    set id | id in ids && id in s.streams :: s.streams[id].readTask
  }

  function LabelSet(alias: Option<string>): set<string> {
    if alias.Some? then {alias.value} else {}
  }

  function PathSet(path: Option<string>): multiset<string> {
    if path.Some? then multiset{path.value} else multiset{}
  }

  /** Closing a server: it goes, and with it its children, all their labels and its socket file. */
  function DropServer(s: State, sid: ConnectionId): State {
    if sid !in s.servers then s
    else
      var srv := s.servers[sid];
      s.(streams := s.streams - srv.children,
         servers := s.servers - {sid},
         labels := s.labels - LabelsAmong(s, srv.children) - LabelSet(srv.state.alias),
         host := s.host.(aborted := s.host.aborted + multiset{srv.acceptTask}
                                    + multiset(ReadersAmong(s, srv.children)),
                         unlinked := s.host.unlinked + PathSet(srv.ipcPath)))
  }

  // Labels

  function SetLabel(s: State, id: ConnectionId, name: string): State
    requires s.IsLive(id)
  {
    if id in s.streams then
      var h := s.streams[id];
      s.(streams := s.streams[id := h.(state := h.state.(alias := Some(name)))])
    else
      var srv := s.servers[id];
      s.(servers := s.servers[id := srv.(state := srv.state.(alias := Some(name)))])
  }

  function ApplyLabel(s: State, id: ConnectionId, name: string): (State, Result<(), DomainError>) {
    if name in s.labels && s.labels[name] != id then (s, Err(LabelAlreadyInUse(name)))
    else if !s.IsLive(id) then (s, Err(UnknownId(Render(id))))
    else
      var labels := s.labels - LabelSet(s.LabelOf(id));
      (SetLabel(s, id, name).(labels := labels[name := id]), Ok(()))
  }

  // Writing

  /** What the socket did with one write and the flush after it. */
  datatype WriteOutcome =
    | Delivered
    | WriteFailed(sent: nat, message: string)
    | FlushFailed(message: string)

  function OutcomeOf(writes: map<ConnectionId, WriteOutcome>, id: ConnectionId): WriteOutcome {
    if id in writes then writes[id] else Delivered
  }

  function SentPart(bytes: seq<U8>, outcome: WriteOutcome): seq<U8> {
    if outcome.WriteFailed? && outcome.sent < |bytes| then bytes[..outcome.sent] else bytes
  }

  function WriteResult(s: State, id: ConnectionId, outcome: WriteOutcome): Result<(), DomainError> {
    if id !in s.streams then Err(UnknownId(Render(id)))
    else if s.streams[id].state.status != Connected then Err(Logic(Render(id)))
    else
      match outcome
      case Delivered => Ok(())
      case WriteFailed(_, message) => Err(Io(message))
      case FlushFailed(message) => Err(Io(message))
  }

  function Written(h: StreamHandle, bytes: seq<U8>, outcome: WriteOutcome): StreamHandle {
    if h.state.status == Connected then h.(output := h.output + SentPart(bytes, outcome)) else h
  }

  function WriteTo(s: State, id: ConnectionId, bytes: seq<U8>, outcome: WriteOutcome): State {
    if id in s.streams then s.(streams := s.streams[id := Written(s.streams[id], bytes, outcome)]) else s
  }

  /** The error lines of a broadcast, in the order in which the children were written. */
  function FailureLines(s: State, order: seq<ConnectionId>, writes: map<ConnectionId, WriteOutcome>): seq<Line> {
    if order == [] then []
    else
      var last := order[|order| - 1];
      FailureLines(s, order[..|order| - 1], writes)
      + match WriteResult(s, last, OutcomeOf(writes, last))
        case Ok(_) => []
        case Err(e) => [SendFailure(s.DisplayName(last), e)]
  }

  function Broadcast(s: State, ids: set<ConnectionId>, order: seq<ConnectionId>, bytes: seq<U8>,
                     writes: map<ConnectionId, WriteOutcome>): State
  {
    s.(streams := map id | id in s.streams ::
         if id in ids then Written(s.streams[id], bytes, OutcomeOf(writes, id)) else s.streams[id],
       host := s.host.(display := s.host.display + FailureLines(s, order, writes)))
  }

  function SendBytes(s: State, target: ConnectionId, bytes: seq<U8>, order: seq<ConnectionId>,
                     writes: map<ConnectionId, WriteOutcome>): (State, Result<(), DomainError>)
  {
    if bytes == [] then (s, Err(EmptyPayload))
    else if target.IsServer() then
      if target !in s.servers then (s, Err(UnknownId(Render(target))))
      else if s.servers[target].children == {} then (s, Err(ServerHasNoChildren(Render(target))))
      else (Broadcast(s, s.servers[target].children, order, bytes, writes), Ok(()))
    else
      (WriteTo(s, target, bytes, OutcomeOf(writes, target)), WriteResult(s, target, OutcomeOf(writes, target)))
  }

  // Events

  function OnReceived(s: State, id: ConnectionId, bytes: seq<U8>): State {
    s.Show(ReceivedLine(s.DisplayName(id), bytes))
  }

  function OnClosedEvent(s: State, id: ConnectionId): State {
    if id !in s.streams then s
    else DropStream(s, id).Show(ClosedLine(s.DisplayName(id)))
  }

  function OnErrorEvent(s: State, id: ConnectionId, message: string): State {
    s.Show(Failure(s.DisplayName(id), message))
  }

  // Ids of accepted connections

  /** The stream at `oldId`, if there is one, moves to `newId`; labels stay as they are. */
  function Rename(s: State, oldId: ConnectionId, newId: ConnectionId): State {
    if oldId !in s.streams then s
    else
      var h := s.streams[oldId];
      s.(streams := (s.streams - {oldId})[newId := h.(state := h.state.(id := newId))],
         servers := WithChild(WithoutChild(s.servers, h.parent, oldId), h.parent, newId))
  }

  datatype Panic = ParentGone | CounterOverflow

  /** A new id and, if an older connection had to give way, its new and old ids. */
  datatype Allocation = Allocation(state: State, id: ConnectionId, renamed: Option<(ConnectionId, ConnectionId)>)

  function WithTables(s: State, sid: ConnectionId, next: map<string, U32>, plain: map<string, ConnectionId>): State
    requires sid in s.servers
  {
    s.(servers := s.servers[sid := s.servers[sid].(disambigNext := next, baseNoSuffix := plain)])
  }

  /** `seed` is the number stored for the third connection of a base. */
  function Allocate(s: State, base: Base, seed: U32): Result<Allocation, Panic> {
    var sid, key := base.Server(), base.Key();
    if sid !in s.servers then Err(ParentGone)
    else
      var srv := s.servers[sid];
      if key !in srv.baseNoSuffix && key !in srv.disambigNext then
        Ok(Allocation(WithTables(s, sid, srv.disambigNext, srv.baseNoSuffix[key := base.Id(None)]),
                      base.Id(None), None))
      else if key in srv.baseNoSuffix then
        var oldId, first := srv.baseNoSuffix[key], base.Id(Some(1));
        var moved := Rename(WithTables(s, sid, srv.disambigNext, srv.baseNoSuffix - {key}), oldId, first);
        if sid !in moved.servers then Err(ParentGone)
        else
          var srv2 := moved.servers[sid];
          Ok(Allocation(WithTables(moved, sid, srv2.disambigNext[key := seed], srv2.baseNoSuffix),
                        base.Id(Some(2)), Some((first, oldId))))
      else
        var n := srv.disambigNext[key];
        if n == U32_MAX then Err(CounterOverflow)
        else Ok(Allocation(WithTables(s, sid, srv.disambigNext[key := n + 1], srv.baseNoSuffix),
                           base.Id(Some(n)), None))
  }

  // Shutdown

  function AcceptTasks(s: State): set<nat> {
    set sid | sid in s.servers :: s.servers[sid].acceptTask
  }

  function SocketFiles(s: State): set<string> {
    set sid | sid in s.servers && s.servers[sid].ipcPath.Some? :: s.servers[sid].ipcPath.value
  }

  function LiveLabels(s: State): set<string> {
    set id | id in s.streams.Keys + s.servers.Keys && s.LabelOf(id).Some? :: s.LabelOf(id).value
  }

  /** Everything goes at once: each live task is aborted, each socket file removed. */
  function Shutdown(s: State): State {
    s.(streams := map[], servers := map[],
       labels := s.labels - LiveLabels(s),
       host := s.host.(aborted := s.host.aborted + multiset(AcceptTasks(s))
                                  + multiset(ReadersAmong(s, s.streams.Keys)),
                       unlinked := s.host.unlinked + multiset(SocketFiles(s))))
  }
}
