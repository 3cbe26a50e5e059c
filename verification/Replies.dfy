// What each command, event and accepted connection comes to, said outright: when it
// succeeds, which error comes otherwise, what is shown, and the state it leaves.
module Replies {
  import opened Prelude
  import opened Decimal
  import opened Text
  import opened Ids
  import opened Model
  import opened Repl
  import opened Machine
  import opened Invariants
  import opened Preservation
  import opened Sorting
  import opened Teardown
  import opened Guarantees
  import TokenParser

  // Texts of ids and names

  /** Ids of each shape, as they are printed. */
  lemma PrintedServersAndClients()
    ensures Render(TcpServer(80)) == "80" && Render(TcpClient(50)) == "50"
    ensures Render(IpcServer("/tmp/a")) == "/tmp/a" && Render(IpcClient(7)) == "ipc:7"
  {
  }

  lemma PrintedConnections()
    ensures Render(AcceptedTcp(80, 41, None)) == "80.41" && Render(AcceptedTcp(80, 41, Some(2))) == "80.41#2"
    ensures Render(AcceptedIpc("/a", 12, None)) == "/a.12" && Render(AcceptedIpc("/a", -5, Some(1))) == "/a.-5#1"
  {
  }

  /** `name` is the label of the handle at `id`, or the id's text if there is none. */
  predicate ShownAs(s: State, id: ConnectionId, name: string) {
    (id in s.streams && s.streams[id].state.alias == Some(name))
    || (id in s.servers && s.servers[id].state.alias == Some(name))
    || ((id in s.streams ==> s.streams[id].state.alias.None?)
        && (id in s.servers ==> s.servers[id].state.alias.None?)
        && name == Render(id))
  }

  lemma NameShown(s: State, id: ConnectionId)
    requires Inv(s)
    ensures forall name :: ShownAs(s, id, name) <==> s.DisplayName(id) == name
  {
    assert id in s.streams ==> StreamOk(s, id);
    assert id in s.servers ==> ServerOk(s, id);
  }

  // Looking up a token

  /** The `k`-th candidate is live and none before it is. */
  predicate FirstLiveAt(s: State, ids: seq<ConnectionId>, k: int) {
    0 <= k < |ids| && (ids[k] in s.streams || ids[k] in s.servers)
    && forall j | 0 <= j < k :: ids[j] !in s.streams && ids[j] !in s.servers
  }

  lemma {:induction false} FirstLiveExactly(s: State, ids: seq<ConnectionId>, id: ConnectionId)
    ensures FirstLive(s, ids) == Some(id) <==> exists k :: FirstLiveAt(s, ids, k) && ids[k] == id
  {
    if ids != [] {
      if ids[0] in s.streams || ids[0] in s.servers {
        assert FirstLiveAt(s, ids, 0);
        assert forall k | FirstLiveAt(s, ids, k) :: k == 0;
      } else {
        FirstLiveExactly(s, ids[1..], id);
        forall k | FirstLiveAt(s, ids, k) && ids[k] == id
          ensures FirstLiveAt(s, ids[1..], k - 1) && ids[1..][k - 1] == id
        {
          assert forall j | 0 <= j < k - 1 :: ids[1..][j] == ids[j + 1];
        }
        forall k | FirstLiveAt(s, ids[1..], k) && ids[1..][k] == id
          ensures FirstLiveAt(s, ids, k + 1) && ids[k + 1] == id
        {
          assert forall j | 0 < j < k + 1 :: ids[j] == ids[1..][j - 1];
        }
      }
    }
  }

  /** A label gives its entry; any other token gives its first live candidate, or is unknown. */
  lemma ResolveExactly(s: State, token: string, id: ConnectionId)
    ensures Resolve(s, token) == Ok(id) <==>
              if token in s.labels then s.labels[token] == id
              else
                exists k ::
                  FirstLiveAt(s, TokenParser.Candidates(token), k) && TokenParser.Candidates(token)[k] == id
    ensures Resolve(s, token).Err? ==> Resolve(s, token).error == UnknownId(token)
  {
    FirstLiveExactly(s, TokenParser.Candidates(token), id);
  }

  // Labels

  /** `h` has the new label and is the same otherwise; likewise for servers. */
  function NamedStream(h: StreamHandle, name: string): StreamHandle {
    StreamHandle(ConnectionState(h.state.id, h.state.status, Some(name), h.state.peerInfo),
                 h.output, h.readTask, h.parent)
  }

  function NamedServer(srv: ServerHandle, name: string): ServerHandle {
    ServerHandle(ConnectionState(srv.state.id, srv.state.status, Some(name), srv.state.peerInfo), srv.acceptTask,
                 srv.children, srv.ipcPath, srv.disambigNext, srv.baseNoSuffix)
  }

  /** `name` is the label that the handle at `id` has. */
  predicate HasLabel(s: State, id: ConnectionId, name: string) {
    (id in s.streams && s.streams[id].state.alias == Some(name))
    || (id in s.servers && s.servers[id].state.alias == Some(name))
  }

  /** The entry of the former label is gone from the table, the new one leads to `id`, and no other is touched. */
  ghost predicate Retabled(s: State, id: ConnectionId, name: string, labels: map<string, ConnectionId>) {
    name in labels && labels[name] == id
    && forall other | other != name ::
         (other in labels <==> other in s.labels && !HasLabel(s, id, other))
         && (other in labels ==> labels[other] == s.labels[other])
  }

  /** The handle at `id` has the new label, the table follows, and nothing else changes. */
  ghost predicate Relabels(s: State, id: ConnectionId, name: string, t: State) {
    t.streams == (if id in s.streams then s.streams[id := NamedStream(s.streams[id], name)] else s.streams)
    && t.servers == (if id in s.servers then s.servers[id := NamedServer(s.servers[id], name)] else s.servers)
    && t.nextSeq == s.nextSeq && t.host == s.host && Retabled(s, id, name, t.labels)
  }

  /**
   * Labelling succeeds if and only if the id is live and the name is free or already
   * leads to it, whether or not the handle has a label; a refusal changes nothing.
   */
  lemma LabelExactly(s: State, id: ConnectionId, name: string)
    requires Inv(s)
    ensures var (t, r) := ApplyLabel(s, id, name);
            (r.Ok? <==> (id in s.streams || id in s.servers) && (name in s.labels ==> s.labels[name] == id))
            && (r.Ok? ==> Relabels(s, id, name, t))
            && (r.Err? ==>
                  t == s
                  && r.error == if name in s.labels && s.labels[name] != id then LabelAlreadyInUse(name)
                                else UnknownId(Render(id)))
  {
    assert id in s.streams ==> StreamOk(s, id);
    assert id in s.servers ==> ServerOk(s, id);
    if ApplyLabel(s, id, name).1.Ok? {
      RelabelsLive(s, id, name);
    }
  }

  lemma RelabelsLive(s: State, id: ConnectionId, name: string)
    requires ApplyLabel(s, id, name).1.Ok? && !(id in s.streams && id in s.servers)
    ensures Relabels(s, id, name, ApplyLabel(s, id, name).0)
  {
    if id in s.streams {
      assert s.streams[id].(state := s.streams[id].state.(alias := Some(name))) == NamedStream(s.streams[id], name);
    } else {
      assert s.servers[id].(state := s.servers[id].state.(alias := Some(name))) == NamedServer(s.servers[id], name);
    }
    RetablesLive(s, id, name);
  }

  lemma RetablesLive(s: State, id: ConnectionId, name: string)
    requires ApplyLabel(s, id, name).1.Ok? && !(id in s.streams && id in s.servers)
    ensures Retabled(s, id, name, ApplyLabel(s, id, name).0.labels)
  {
    assert forall other :: HasLabel(s, id, other) <==> s.LabelOf(id) == Some(other);
  }

  /** The label command: an unknown token is refused, else the id it stands for is labelled. */
  lemma LabelCommandExactly(s: State, token: string, name: string)
    requires Inv(s)
    ensures var (t, reply) := LabelToken(s, token, name);
            match Resolve(s, token)
            case Err(e) => reply == Err(e) && t == s
            case Ok(id) =>
              (reply.Ok? <==> (id in s.streams || id in s.servers) && (name in s.labels ==> s.labels[name] == id))
              && (reply.Ok? ==> reply == Ok(Labeled(id, name)) && Relabels(s, id, name, t))
              && (reply.Err? ==>
                    t == s
                    && reply.error == if name in s.labels && s.labels[name] != id then LabelAlreadyInUse(name)
                                      else UnknownId(Render(id)))
  {
    if Resolve(s, token).Ok? {
      LabelExactly(s, Resolve(s, token).value, name);
    }
  }

  // Sending

  /** The server has a connection. */
  predicate HasChild(s: State, sid: ConnectionId) {
    exists id :: id in s.streams && s.streams[id].parent == Some(sid)
  }

  /** Sending to a server succeeds if and only if there are bytes, the server runs and has a connection. */
  lemma SendToServerExactly(s: State, sid: ConnectionId, bytes: seq<U8>, order: seq<ConnectionId>,
                            writes: map<ConnectionId, WriteOutcome>)
    requires Inv(s) && sid.IsServer()
    ensures var (t, r) := SendBytes(s, sid, bytes, order, writes);
            (r.Ok? <==> bytes != [] && sid in s.servers && HasChild(s, sid))
            && (r.Err? ==>
                  t == s
                  && r.error == if bytes == [] then EmptyPayload
                                else if sid !in s.servers then UnknownId(Render(sid))
                                else ServerHasNoChildren(Render(sid)))
  {
    if sid in s.servers {
      OwnChildren(s, sid);
    }
  }

  /** What a socket takes of the bytes, and the error that comes back. */
  predicate Takes(bytes: seq<U8>, writes: map<ConnectionId, WriteOutcome>, id: ConnectionId, taken: seq<U8>,
                  failure: Option<string>)
  {
    if id !in writes then taken == bytes && failure == None
    else
      match writes[id]
      case Delivered => taken == bytes && failure == None
      case FlushFailed(message) => taken == bytes && failure == Some(message)
      case WriteFailed(sent, message) =>
        taken <= bytes && |taken| == (if sent < |bytes| then sent else |bytes|) && failure == Some(message)
  }

  lemma TakenPart(bytes: seq<U8>, writes: map<ConnectionId, WriteOutcome>, id: ConnectionId)
    ensures forall taken, failure | Takes(bytes, writes, id, taken, failure) ::
              taken == SentPart(bytes, OutcomeOf(writes, id))
  {
  }

  /** Sending to a stream: the bytes that its socket takes are added to its output, and nothing else changes. */
  lemma SendToStreamExactly(s: State, id: ConnectionId, bytes: seq<U8>, order: seq<ConnectionId>,
                            writes: map<ConnectionId, WriteOutcome>, taken: seq<U8>, failure: Option<string>)
    requires Inv(s) && !id.IsServer() && Takes(bytes, writes, id, taken, failure)
    ensures var (t, r) := SendBytes(s, id, bytes, order, writes);
            if bytes == [] then t == s && r == Err(EmptyPayload)
            else if id !in s.streams then t == s && r == Err(UnknownId(Render(id)))
            else
              t == s.(streams := s.streams[id := s.streams[id].(output := s.streams[id].output + taken)])
              && r == if failure.Some? then Err(Io(failure.value)) else Ok(())
  {
    TakenPart(bytes, writes, id);
    assert id in s.streams ==> StreamOk(s, id);
  }

  /** In a broadcast each child's socket takes its part, whatever the others do. */
  lemma BroadcastTakes(s: State, sid: ConnectionId, bytes: seq<U8>, order: seq<ConnectionId>,
                       writes: map<ConnectionId, WriteOutcome>, c: ConnectionId, taken: seq<U8>,
                       failure: Option<string>)
    requires Inv(s) && sid in s.servers && bytes != [] && Enumerates(order, s.servers[sid].children)
    requires c in s.streams && s.streams[c].parent == Some(sid) && Takes(bytes, writes, c, taken, failure)
    ensures var t := SendBytes(s, sid, bytes, order, writes).0;
            c in t.streams && t.streams[c] == s.streams[c].(output := s.streams[c].output + taken)
    ensures failure.Some? <==> OutcomeOf(writes, c) != Delivered
  {
    TakenPart(bytes, writes, c);
    OwnChildren(s, sid);
    BroadcastExactly(s, sid, bytes, order, writes);
  }

  /** The line of a failure names the child and carries its socket's error. */
  lemma FailureNames(s: State, c: ConnectionId, bytes: seq<U8>, writes: map<ConnectionId, WriteOutcome>, line: Line,
                     taken: seq<U8>, failure: Option<string>)
    requires Inv(s) && c in s.streams && Takes(bytes, writes, c, taken, failure)
    ensures IsFailureLine(s, line, c, writes)
            <==> failure.Some? && exists name :: ShownAs(s, c, name) && line == SendFailure(name, Io(failure.value))
  {
    NameShown(s, c);
    AlwaysWritable(s, c, OutcomeOf(writes, c));
    assert StreamOk(s, c);
    assert ShownAs(s, c, s.DisplayName(c));
  }

  /** The send command: the count of bytes comes back, or the error that sending gave. */
  lemma SendCommandExactly(s: State, token: string, bytes: seq<U8>, oracle: Oracle)
    requires Inv(s)
    ensures var (t, reply) := SendToken(s, token, bytes, oracle);
            match Resolve(s, token)
            case Err(e) => reply == Err(e) && t == s
            case Ok(id) =>
              var (u, r) := SendBytes(s, id, bytes, oracle.walk.ChildrenOf(id), oracle.writes);
              t == u && (reply.Ok? <==> r.Ok?)
              && (reply.Ok? ==> reply == Ok(SentBytes(|bytes|, id))) && (reply.Err? ==> reply == Err(r.error))
              && (id.IsServer() ==> (reply.Ok? <==> bytes != [] && id in s.servers && HasChild(s, id)))
  {
    if Resolve(s, token).Ok? {
      var id := Resolve(s, token).value;
      if id.IsServer() {
        SendToServerExactly(s, id, bytes, oracle.walk.ChildrenOf(id), oracle.writes);
      }
    }
  }

  // Opening

  function HostAfter(s: State, task: Task, line: Line): Host {
    Host(s.host.tasks + [task], s.host.aborted, s.host.unlinked, s.host.display + [line])
  }

  function FreshServer(id: ConnectionId, task: nat, path: Option<string>): ServerHandle {
    ServerHandle(ConnectionState(id, Connected, None, None), task, {}, path, map[], map[])
  }

  function FreshStream(id: ConnectionId, peer: PeerInfo, task: nat, parent: Option<ConnectionId>): StreamHandle {
    StreamHandle(ConnectionState(id, Connected, None, Some(peer)), [], task, parent)
  }

  /** A TCP server opens if and only if the port has none and the bind succeeds. */
  lemma OpenTcpServerExactly(s: State, port: U16, oracle: Oracle)
    requires Inv(s)
    ensures var (t, reply) := RunCommand(s, OpenTcpServer(port), oracle);
            var id := TcpServer(port);
            if id in s.servers then t == s && reply == Err(IdAlreadyInUse(Dec(port)))
            else if oracle.failure.Some? then t == s && reply == Err(Io(oracle.failure.value))
            else
              t == State(s.streams, s.servers[id := FreshServer(id, |s.host.tasks|, None)], s.labels, s.nextSeq,
                         HostAfter(s, AcceptTask(id), Listening(id)))
              && reply == Ok(ListeningOn(id))
  {
    assert TcpServer(port) in s.streams ==> StreamOk(s, TcpServer(port));
  }

  /** An IPC server opens if and only if the path has none and the bind succeeds. */
  lemma OpenIpcServerExactly(s: State, path: string, oracle: Oracle)
    requires Inv(s)
    ensures var (t, reply) := RunCommand(s, OpenIpcServer(path), oracle);
            var id := IpcServer(path);
            if id in s.servers then t == s && reply == Err(IdAlreadyInUse(path))
            else if oracle.failure.Some? then t == s && reply == Err(Io(oracle.failure.value))
            else
              t == State(s.streams, s.servers[id := FreshServer(id, |s.host.tasks|, Some(path))], s.labels, s.nextSeq,
                         HostAfter(s, AcceptTask(id), Listening(id)))
              && reply == Ok(ListeningOn(id))
  {
  }

  /** A TCP client opens if and only if its local port has none and the connect succeeds. */
  lemma OpenTcpClientExactly(s: State, local: U16, host: string, port: U16, oracle: Oracle)
    requires Inv(s)
    ensures var (t, reply) := RunCommand(s, OpenTcpClient(local, host, port), oracle);
            var id, remote := TcpClient(local), host + ":" + Dec(port);
            if id in s.streams then t == s && reply == Err(IdAlreadyInUse(Dec(local)))
            else if oracle.failure.Some? then t == s && reply == Err(Io(oracle.failure.value))
            else
              t == State(s.streams[id := FreshStream(id, TcpSocket(remote), |s.host.tasks|, None)], s.servers, s.labels,
                         s.nextSeq, HostAfter(s, ReadTask(id), ConnectedTo(id, remote)))
              && reply == Ok(ClientConnected(id))
  {
    assert TcpClient(local) in s.servers ==> ServerOk(s, TcpClient(local));
  }

  /** An IPC client opens if and only if the connect succeeds; a number is used up either way. */
  lemma OpenIpcClientExactly(s: State, path: string, oracle: Oracle)
    ensures var (t, reply) := RunCommand(s, OpenIpcClient(path), oracle);
            var id, next := IpcClient(s.nextSeq), if s.nextSeq == 4294967295 then s.nextSeq else s.nextSeq + 1;
            if oracle.failure.Some? then t == s.(nextSeq := next) && reply == Err(Io(oracle.failure.value))
            else
              t == State(s.streams[id := FreshStream(id, IpcRemotePath(path), |s.host.tasks|, None)], s.servers,
                         s.labels, next, HostAfter(s, ReadTask(id), ConnectedTo(id, path)))
              && reply == Ok(ClientConnected(id))
  {
  }

  // Closing

  /** Dropping a stream takes away the stream, its label and its place among its server's children. */
  lemma DropStreamExactly(s: State, id: ConnectionId)
    requires Inv(s) && id in s.streams
    ensures var t := DropStream(s, id);
            t.streams == s.streams - {id}
            && t.servers.Keys == s.servers.Keys
            && (forall sid | sid in s.servers ::
                  t.servers[sid] == s.servers[sid].(children := s.servers[sid].children - {id}))
            && (forall name :: name in t.labels <==> name in s.labels && s.streams[id].state.alias != Some(name))
            && (forall name | name in t.labels :: t.labels[name] == s.labels[name])
            && t.nextSeq == s.nextSeq
            && t.host == s.host.(aborted := s.host.aborted + multiset{s.streams[id].readTask})
  {
    assert StreamOk(s, id);
    forall sid | sid in s.servers && id in s.servers[sid].children ensures s.streams[id].parent == Some(sid) {
      assert ServerOk(s, sid);
    }
    ChildlessAsBefore(s, id);
  }

  lemma ChildlessAsBefore(s: State, id: ConnectionId)
    requires id in s.streams
    requires forall sid | sid in s.servers && id in s.servers[sid].children :: s.streams[id].parent == Some(sid)
    ensures var t := DropStream(s, id);
            t.servers.Keys == s.servers.Keys
            && forall sid | sid in s.servers ::
                 t.servers[sid] == s.servers[sid].(children := s.servers[sid].children - {id})
  {
    forall sid | sid in s.servers && id !in s.servers[sid].children
      ensures s.servers[sid].children - {id} == s.servers[sid].children
    {
    }
  }

  /** The close command: servers go with all that is theirs, streams alone, and the id is shown as closed. */
  lemma CloseCommandExactly(s: State, token: string)
    ensures var (t, reply) := CloseToken(s, token);
            match Resolve(s, token)
            case Err(e) => reply == Err(e) && t == s
            case Ok(id) =>
              if id in s.servers then
                reply == Ok(ClosedServer(id)) && t == WithLine(DropServer(s, id), ClosedLine(Render(id)))
              else if id in s.streams then
                reply == Ok(ClosedStream(id)) && t == WithLine(DropStream(s, id), ClosedLine(Render(id)))
              else reply == Err(UnknownId(token)) && t == s
  {
  }

  function WithLine(s: State, line: Line): State {
    State(s.streams, s.servers, s.labels, s.nextSeq,
          Host(s.host.tasks, s.host.aborted, s.host.unlinked, s.host.display + [line]))
  }

  // Events

  /** What an event shows goes under the name of its connection; only the end of a live stream drops anything. */
  lemma EventExactly(s: State, id: ConnectionId, name: string, bytes: seq<U8>, message: string)
    requires Inv(s) && ShownAs(s, id, name)
    ensures HandleEvent(s, Received(id, bytes)) == WithLine(s, ReceivedLine(name, bytes))
    ensures HandleEvent(s, ErrorEvent(id, message)) == WithLine(s, Failure(name, message))
    ensures HandleEvent(s, ClosedEvent(id))
            == if id in s.streams then WithLine(DropStream(s, id), ClosedLine(name)) else s
    ensures forall other :: HandleEvent(s, Renamed(id, other)) == s
  {
    NameShown(s, id);
  }

  // Accepted connections

  /** The peer, as it is shown. */
  predicate PeerShown(peer: PeerInfo, text: string) {
    match peer
    case TcpSocket(addr) => text == addr
    case IpcPid(pid) => text == "pid=" + IntText(pid)
    case IpcRemotePath(path) => text == path
  }

  /** The numbering that an accept falls under is that of the server it names, whatever the id it proposes. */
  lemma BaseExactly(parent: ConnectionId, child: ConnectionId, base: Base)
    ensures BaseFor(parent, child) == Some(base) <==>
              (parent.TcpServer? && child.AcceptedTcp? && base == TcpBase(parent.port, child.remotePort))
              || (parent.IpcServer? && child.AcceptedIpc? && base == IpcBase(parent.path, child.pid))
  {
  }

  /** A message of a shape that no accept loop sends is reported and changes nothing. */
  lemma MismatchExactly(s: State, parent: ConnectionId, child: ConnectionId, peer: PeerInfo, seed: U32)
    requires !(parent.TcpServer? && child.AcceptedTcp?) && !(parent.IpcServer? && child.AcceptedIpc?)
    ensures Machine.HandleAccepted(s, parent, child, peer, seed) == Ok(WithLine(s, MismatchLine(parent)))
  {
  }

  /** The lines of an accept: the renaming, if there is one, and then the connection under its id. */
  ghost predicate AcceptShows(s: State, base: Base, id: ConnectionId, peer: PeerInfo, t: State)
    requires base.Server() in s.servers
  {
    exists text :: PeerShown(peer, text)
      && t.host.display
         == s.host.display
            + (if base.Key() in s.servers[base.Server()].baseNoSuffix
               then [RenamedLine(base.Id(Some(1)), base.Id(None))] else [])
            + [AcceptLine(id, text)]
  }

  /** An accepted connection is registered under the id it was given, with its peer, a new reader and its server. */
  lemma AcceptedExactly(s: State, base: Base, child: ConnectionId, peer: PeerInfo, seed: U32)
    requires Inv(s) && BaseFor(base.Server(), child) == Some(base) && Allocate(s, base, seed).Ok?
    ensures Machine.HandleAccepted(s, base.Server(), child, peer, seed).Ok?
    ensures base.Server() in s.servers
    ensures var t := Machine.HandleAccepted(s, base.Server(), child, peer, seed).value;
            var id := Allocate(s, base, seed).value.id;
            id in t.streams && t.streams[id] == FreshStream(id, peer, |s.host.tasks|, Some(base.Server()))
            && t.host.tasks == s.host.tasks + [ReadTask(id)]
            && t.host.aborted == s.host.aborted && t.host.unlinked == s.host.unlinked
            && AcceptShows(s, base, id, peer, t)
  {
    var a := Allocate(s, base, seed).value;
    AllocateAnswer(s, base, seed);
    assert PeerShown(peer, peer.Text());
    RegisteredExactly(a, peer, base.Server());
  }

  lemma AllocateAnswer(s: State, base: Base, seed: U32)
    requires Inv(s) && Allocate(s, base, seed).Ok?
    ensures base.Server() in s.servers
    ensures var a := Allocate(s, base, seed).value;
            a.state.host == s.host
            && a.renamed == if base.Key() in s.servers[base.Server()].baseNoSuffix
                            then Some((base.Id(Some(1)), base.Id(None))) else None
  {
    if base.Key() in s.servers[base.Server()].baseNoSuffix {
      AllocateCollision(s, base, seed);
    }
  }

  lemma RegisteredExactly(a: Allocation, peer: PeerInfo, parent: ConnectionId)
    ensures var open := OpenStream(ShowRename(a.state, a.renamed), a.id, peer, Some(parent));
            var t := open.Show(AcceptLine(a.id, peer.Text()));
            var host := a.state.host;
            a.id in t.streams && t.streams[a.id] == FreshStream(a.id, peer, |host.tasks|, Some(parent))
            && t.host.tasks == host.tasks + [ReadTask(a.id)]
            && t.host.aborted == host.aborted && t.host.unlinked == host.unlinked
            && t.host.display
               == host.display
                  + (if a.renamed.Some? then [RenamedLine(a.renamed.value.0, a.renamed.value.1)] else [])
                  + [AcceptLine(a.id, peer.Text())]
  {
  }

  /** The messages of accept loops: a TCP peer by the port after its last colon, an IPC peer by its process. */
  lemma AcceptLoopExactly(server: ConnectionId, peer: PeerInfo, input: Input)
    ensures AcceptMessage(server, peer) == Some(input) <==>
              (exists port: U16, host, digits, remote: U16 ::
                 server == TcpServer(port) && peer == TcpSocket(host + ":" + digits) && Reads(digits, remote)
                 && input == Accepted(server, AcceptedTcp(port, remote, None), peer))
              || (exists path, pid: I32 ::
                    server == IpcServer(path) && peer == IpcPid(pid)
                    && input == Accepted(server, AcceptedIpc(path, pid, None), peer))
  {
    if server.TcpServer? && peer.TcpSocket? {
      forall host, digits, remote: U16 | peer.addr == host + ":" + digits && Reads(digits, remote)
        ensures TokenParser.RemotePort(peer.addr) == Some(remote)
      {
        RemoteExactly(host, digits, remote);
      }
      if TokenParser.RemotePort(peer.addr).Some? {
        RemoteParts(peer.addr);
      }
    }
  }

  lemma RemoteExactly(host: string, digits: string, remote: U16)
    requires Reads(digits, remote)
    ensures TokenParser.RemotePort(host + ":" + digits) == Some(remote)
  {
    ReadsHasNo(':', digits, remote);
    assert host + ":" + digits == host + [':'] + digits;
    RSplitOnceAt(host, ':', digits);
    TokenParser.PortOf(digits, remote);
  }

  lemma RemoteParts(addr: string)
    requires TokenParser.RemotePort(addr).Some?
    ensures exists host, digits :: addr == host + ":" + digits && Reads(digits, TokenParser.RemotePort(addr).value)
  {
    var (host, digits) := RSplitOnce(addr, ':').value;
    TokenParser.PortOf(digits, TokenParser.RemotePort(addr).value);
    assert addr == host + ":" + digits;
  }
}
