// The registry task: it takes messages one at a time and acts on the registry.
module Runtime {
  import opened Prelude
  import opened Ids
  import opened Model
  import opened Repl
  import opened Machine
  import opened Reachability
  import opened StatusReport
  import opened RegistryClass

  /** Start the reader of a new connection and build its handle. */
  method SpawnStream(reg: Registry, id: ConnectionId, peer: PeerInfo, parent: Option<ConnectionId>)
    returns (handle: StreamHandle)
    modifies reg`host
    ensures reg.Abs() == old(reg.Abs()).Spawn(ReadTask(id))
    ensures handle == StreamHandle(ConnectionState.NewConnected(id, Some(peer)), [], old(|reg.host.tasks|), parent)
  {
    var number := reg.SpawnTask(ReadTask(id));
    handle := StreamHandle(ConnectionState.NewConnected(id, Some(peer)), [], number, parent);
  }

  method OpenServer(reg: Registry, id: ConnectionId, path: Option<string>)
    modifies reg
    ensures reg.Abs() == Machine.OpenServer(old(reg.Abs()), id, path)
  {
    var number := reg.SpawnTask(AcceptTask(id));
    var handle := ServerHandle(ConnectionState.NewConnected(id, None), number, {}, path, map[], map[]);
    reg.servers := reg.servers[id := handle];
    reg.Display(Listening(id));
  }

  method OpenClient(reg: Registry, id: ConnectionId, peer: PeerInfo)
    modifies reg
    ensures reg.Abs() == Machine.OpenClient(old(reg.Abs()), id, peer)
  {
    var handle := SpawnStream(reg, id, peer, None);
    reg.InsertStream(handle);
    reg.Display(ConnectedTo(id, peer.Text()));
  }

  method CloseById(reg: Registry, token: string) returns (reply: Reply)
    requires reg.Valid()
    modifies reg
    ensures (reg.Abs(), reply) == CloseToken(old(reg.Abs()), token)
  {
    var resolved := reg.ResolveId(token);
    if resolved.Err? {
      return Err(resolved.error);
    }
    var id := resolved.value;
    if id in reg.servers {
      reg.DropServer(id);
      reg.Display(ClosedLine(Render(id)));
      return Ok(ClosedServer(id));
    } else if id in reg.streams {
      reg.DropStream(id);
      reg.Display(ClosedLine(Render(id)));
      return Ok(ClosedStream(id));
    }
    return Err(UnknownId(token));
  }

  /** Bind, connect and write results, and the hash maps' walking order, come with the call. */
  method HandleCommand(reg: Registry, cmd: Command, oracle: Oracle) returns (reply: Reply)
    requires reg.Valid() && Walks(reg.Abs(), oracle.walk)
    modifies reg
    ensures (reg.Abs(), reply) == RunCommand(old(reg.Abs()), cmd, oracle)
    ensures reg.Valid()
  {
    CommandKeepsInv(reg.Abs(), cmd, oracle);
    match cmd {
      case OpenTcpServer(port) =>
        var id := TcpServer(port);
        if id in reg.servers || id in reg.streams {
          return Err(IdAlreadyInUse(Render(id)));
        }
        if oracle.failure.Some? {
          return Err(Io(oracle.failure.value));
        }
        OpenServer(reg, id, None);
        reply := Ok(ListeningOn(id));
      case OpenIpcServer(path) =>
        var id := IpcServer(path);
        if id in reg.servers {
          return Err(IdAlreadyInUse(path));
        }
        if oracle.failure.Some? {
          return Err(Io(oracle.failure.value));
        }
        OpenServer(reg, id, Some(path));
        reply := Ok(ListeningOn(id));
      case OpenTcpClient(localPort, host, port) =>
        var id := TcpClient(localPort);
        if id in reg.streams || id in reg.servers {
          return Err(IdAlreadyInUse(Render(id)));
        }
        if oracle.failure.Some? {
          return Err(Io(oracle.failure.value));
        }
        OpenClient(reg, id, TcpSocket(host + ":" + Decimal.Dec(port)));
        reply := Ok(ClientConnected(id));
      case OpenIpcClient(path) =>
        var number := reg.AllocIpcClientSeq();
        var id := IpcClient(number);
        if oracle.failure.Some? {
          return Err(Io(oracle.failure.value));
        }
        OpenClient(reg, id, IpcRemotePath(path));
        reply := Ok(ClientConnected(id));
      case Close(token) =>
        reply := CloseById(reg, token);
      case Send(token, bytes) =>
        var resolved := reg.ResolveId(token);
        if resolved.Err? {
          return Err(resolved.error);
        }
        var sent := reg.SendBytes(resolved.value, bytes, oracle.walk.ChildrenOf(resolved.value), oracle.writes);
        reply := if sent.Ok? then Ok(SentBytes(|bytes|, resolved.value)) else Err(sent.error);
      case Label(token, name) =>
        var resolved := reg.ResolveId(token);
        if resolved.Err? {
          return Err(resolved.error);
        }
        var labeled := reg.ApplyLabel(resolved.value, name);
        reply := if labeled.Ok? then Ok(Labeled(resolved.value, name)) else Err(labeled.error);
      case Status =>
        var text := reg.RenderStatus(oracle.walk);
        reply := Ok(Report(text));
    }
  }

  method HandleEvent(reg: Registry, event: NetEvent)
    modifies reg
    ensures reg.Abs() == Machine.HandleEvent(old(reg.Abs()), event)
  {
    match event {
      case Received(id, bytes) => reg.OnReceived(id, bytes);
      case ClosedEvent(id) => reg.OnClosedEvent(id);
      case ErrorEvent(id, message) => reg.OnErrorEvent(id, message);
      case Renamed(_, _) =>
    }
  }

  /** Announce a renaming, start the reader and put the accepted connection in the maps. */
  method RegisterAccepted(reg: Registry, parent: ConnectionId, id: ConnectionId,
                          renamed: Option<(ConnectionId, ConnectionId)>, peer: PeerInfo)
    modifies reg
    ensures reg.Abs()
            == OpenStream(ShowRename(old(reg.Abs()), renamed), id, peer, Some(parent)).Show(AcceptLine(id, peer.Text()))
  {
    if renamed.Some? {
      reg.Display(RenamedLine(renamed.value.0, renamed.value.1));
    }
    var handle := SpawnStream(reg, id, peer, Some(parent));
    reg.InsertStream(handle);
    reg.Display(AcceptLine(id, peer.Text()));
  }

  /** A panic leaves the registry as it was; otherwise the connection is in the maps. */
  method HandleAccepted(reg: Registry, parent: ConnectionId, child: ConnectionId, peer: PeerInfo)
    returns (panic: Option<Panic>)
    requires reg.Valid()
    modifies reg
    ensures match Machine.HandleAccepted(old(reg.Abs()), parent, child, peer, CODE_SEED)
            case Ok(s) => panic == None && reg.Abs() == s
            case Err(p) => panic == Some(p) && reg.Abs() == old(reg.Abs())
  {
    var granted;
    match (parent, child) {
      case (TcpServer(port), AcceptedTcp(_, remotePort, _)) =>
        granted := reg.AllocateAcceptedTcpId(port, remotePort);
        assert BaseFor(parent, child) == Some(TcpBase(port, remotePort));
      case (IpcServer(path), AcceptedIpc(_, pid, _)) =>
        granted := reg.AllocateAcceptedIpcId(path, pid);
        assert BaseFor(parent, child) == Some(IpcBase(path, pid));
      case _ =>
        reg.Display(MismatchLine(parent));
        return None;
    }
    if granted.Err? {
      return Some(granted.error);
    }
    RegisterAccepted(reg, parent, granted.value.0, granted.value.1, peer);
    return None;
  }

  /** At every command the oracle walks the hash maps that are there at that time. */
  ghost predicate Feasible(inputs: seq<Input>) {
    forall k | 0 <= k < |inputs| && inputs[k].UserCommand? && Run(inputs[..k], CODE_SEED).Running? ::
      Walks(Run(inputs[..k], CODE_SEED).state, inputs[k].oracle.walk)
  }

  lemma {:induction false} RunPastEnd(inputs: seq<Input>, k: nat)
    requires k <= |inputs| && !Run(inputs[..k], CODE_SEED).Running?
    ensures Run(inputs, CODE_SEED) == Run(inputs[..k], CODE_SEED)
    decreases |inputs|
  {
    if k < |inputs| {
      var init := inputs[..|inputs| - 1];
      assert init[..k] == inputs[..k];
      RunPastEnd(init, k);
    } else {
      assert inputs[..k] == inputs;
    }
  }

  /**
   * The task's loop. It ends by a panic, by a shutdown request or when the channel
   * is closed; in the last two cases everything is torn down.
   */
  method RunRegistry(inputs: seq<Input>) returns (reg: Registry, panic: Option<Panic>)
    requires Feasible(inputs)
    ensures match Run(inputs, CODE_SEED)
            case Panicked(p) => panic == Some(p)
            case Stopped(s) => panic == None && reg.Abs() == s
            case Running(s, _) => panic == None && reg.Abs() == Shutdown(s)
  {
    reg := new Registry();
    var stopping := false;
    var k := 0;
    assert inputs[..0] == [];
    while k < |inputs| && !stopping
      invariant 0 <= k <= |inputs| && fresh(reg) && reg.Valid()
      invariant !stopping ==> Run(inputs[..k], CODE_SEED).Running? && Run(inputs[..k], CODE_SEED).state == reg.Abs()
      invariant stopping ==> Run(inputs[..k], CODE_SEED) == Stopped(Shutdown(reg.Abs()))
    {
      RunOneMore(inputs, k, CODE_SEED);
      StepKeepsInv(reg.Abs(), inputs[k], CODE_SEED);
      match inputs[k] {
        case ShutdownRequest =>
          stopping := true;
        case UserCommand(cmd, oracle) =>
          var reply := HandleCommand(reg, cmd, oracle);
        case Event(event) =>
          HandleEvent(reg, event);
        case Accepted(parent, child, peer) =>
          var failed := HandleAccepted(reg, parent, child, peer);
          if failed.Some? {
            RunPastEnd(inputs, k + 1);
            return reg, failed;
          }
      }
      k := k + 1;
    }
    if stopping {
      RunPastEnd(inputs, k);
    } else {
      assert inputs[..k] == inputs;
    }
    reg.Shutdown();
    return reg, None;
  }
}
