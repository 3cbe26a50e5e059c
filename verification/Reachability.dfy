// The invariant holds in every reachable state, and how runs are put together.
module Reachability {
  import opened Prelude
  import opened Ids
  import opened Model
  import opened Repl
  import opened Machine
  import opened Invariants
  import opened Preservation

  lemma OpenClientKeepsInv(s: State, id: ConnectionId, peer: PeerInfo)
    requires Inv(s) && (id.TcpClient? || id.IpcClient?)
    requires id.IpcClient? ==> 1 <= id.seqNo <= s.nextSeq && (id.seqNo == s.nextSeq ==> s.nextSeq == U32_MAX)
    ensures Inv(OpenClient(s, id, peer))
  {
    OpenStreamKeepsInv(s, id, peer);
    ShowKeepsInv(OpenStream(s, id, peer, None), ConnectedTo(id, peer.Text()));
  }

  lemma NextSeqKeepsInv(s: State)
    requires Inv(s)
    ensures Inv(NextSeq(s))
  {
    var t := NextSeq(s);
    assert forall id :: t.LabelOf(id) == s.LabelOf(id) && t.IsLive(id) == s.IsLive(id);
  }

  lemma WriteChangesOutput(s: State, id: ConnectionId, bytes: seq<U8>, outcome: WriteOutcome)
    ensures SameButOutput(s, WriteTo(s, id, bytes, outcome))
  {
  }

  lemma BroadcastChangesOutput(s: State, ids: set<ConnectionId>, order: seq<ConnectionId>, bytes: seq<U8>,
                               writes: map<ConnectionId, WriteOutcome>)
    ensures SameButOutput(s, Broadcast(s, ids, order, bytes, writes))
  {
  }

  lemma SendKeepsInv(s: State, target: ConnectionId, bytes: seq<U8>, order: seq<ConnectionId>,
                     writes: map<ConnectionId, WriteOutcome>)
    requires Inv(s)
    ensures Inv(SendBytes(s, target, bytes, order, writes).0)
  {
    var t := SendBytes(s, target, bytes, order, writes).0;
    if bytes != [] && target.IsServer() && target in s.servers && s.servers[target].children != {} {
      BroadcastChangesOutput(s, s.servers[target].children, order, bytes, writes);
      OutputKeepsInv(s, t);
    } else if bytes != [] && !target.IsServer() {
      WriteChangesOutput(s, target, bytes, OutcomeOf(writes, target));
      OutputKeepsInv(s, t);
    }
  }

  lemma CloseKeepsInv(s: State, token: string)
    requires Inv(s)
    ensures Inv(CloseToken(s, token).0)
  {
    match Resolve(s, token)
    case Err(_) =>
    case Ok(id) =>
      if id in s.servers {
        DropServerKeepsInv(s, id);
        ShowKeepsInv(DropServer(s, id), ClosedLine(Render(id)));
      } else if id in s.streams {
        DropStreamKeepsInv(s, id);
        ShowKeepsInv(DropStream(s, id), ClosedLine(Render(id)));
      }
  }

  lemma OpenServerCommandKeepsInv(s: State, cmd: Command, oracle: Oracle)
    requires Inv(s) && (cmd.OpenTcpServer? || cmd.OpenIpcServer?)
    ensures Inv(RunCommand(s, cmd, oracle).0)
  {
    if RunCommand(s, cmd, oracle).1.Ok? {
      match cmd
      case OpenTcpServer(port) => OpenServerKeepsInv(s, TcpServer(port), None);
      case OpenIpcServer(path) => OpenServerKeepsInv(s, IpcServer(path), Some(path));
    }
  }

  lemma OpenClientCommandKeepsInv(s: State, cmd: Command, oracle: Oracle)
    requires Inv(s) && (cmd.OpenTcpClient? || cmd.OpenIpcClient?)
    ensures Inv(RunCommand(s, cmd, oracle).0)
  {
    match cmd
    case OpenTcpClient(localPort, host, port) =>
      OpenClientKeepsInv(s, TcpClient(localPort), TcpSocket(host + ":" + Decimal.Dec(port)));
    case OpenIpcClient(path) =>
      NextSeqKeepsInv(s);
      OpenClientKeepsInv(NextSeq(s), IpcClient(s.nextSeq), IpcRemotePath(path));
  }

  lemma CommandKeepsInv(s: State, cmd: Command, oracle: Oracle)
    requires Inv(s)
    ensures Inv(RunCommand(s, cmd, oracle).0)
  {
    match cmd
    case Close(token) => CloseKeepsInv(s, token);
    case Send(token, bytes) =>
      if Resolve(s, token).Ok? {
        var id := Resolve(s, token).value;
        SendKeepsInv(s, id, bytes, oracle.walk.ChildrenOf(id), oracle.writes);
      }
    case Label(token, name) =>
      if Resolve(s, token).Ok? {
        ApplyLabelKeepsInv(s, Resolve(s, token).value, name);
      }
    case Status =>
    case _ =>
      if cmd.OpenTcpServer? || cmd.OpenIpcServer? {
        OpenServerCommandKeepsInv(s, cmd, oracle);
      } else {
        OpenClientCommandKeepsInv(s, cmd, oracle);
      }
  }

  lemma EventKeepsInv(s: State, event: NetEvent)
    requires Inv(s)
    ensures Inv(HandleEvent(s, event))
  {
    match event
    case Received(id, bytes) => ShowKeepsInv(s, ReceivedLine(s.DisplayName(id), bytes));
    case ClosedEvent(id) =>
      DropStreamKeepsInv(s, id);
      ShowKeepsInv(DropStream(s, id), ClosedLine(s.DisplayName(id)));
    case ErrorEvent(id, message) => ShowKeepsInv(s, Failure(s.DisplayName(id), message));
    case Renamed(_, _) =>
  }

  lemma OpenAcceptedKeepsInv(s: State, id: ConnectionId, renamed: Option<(ConnectionId, ConnectionId)>, peer: PeerInfo)
    requires Inv(s) && id.IsAccepted() && !id.IsRenamed() && Numbered(s.servers, id)
    ensures Inv(OpenStream(ShowRename(s, renamed), id, peer, id.Parent()).Show(AcceptLine(id, peer.Text())))
  {
    var shown := ShowRename(s, renamed);
    OutputKeepsInv(s, shown);
    OpenStreamKeepsInv(shown, id, peer);
    ShowKeepsInv(OpenStream(shown, id, peer, id.Parent()), AcceptLine(id, peer.Text()));
  }

  lemma AcceptedKeepsInv(s: State, parent: ConnectionId, child: ConnectionId, peer: PeerInfo, seed: U32)
    requires Inv(s) && seed >= 2 && HandleAccepted(s, parent, child, peer, seed).Ok?
    ensures Inv(HandleAccepted(s, parent, child, peer, seed).value)
  {
    match BaseFor(parent, child)
    case None => ShowKeepsInv(s, MismatchLine(parent));
    case Some(base) =>
      AllocateKeepsInv(s, base, seed);
      var a := Allocate(s, base, seed).value;
      assert a.id.Parent() == Some(parent);
      OpenAcceptedKeepsInv(a.state, a.id, a.renamed, peer);
  }

  lemma ShutdownKeepsInv(s: State)
    requires Inv(s)
    ensures Inv(Shutdown(s))
  {
    forall t ensures Shutdown(s).host.aborted[t] <= 1 {
      if t in ReadersAmong(s, s.streams.Keys) {
        var id :| id in s.streams && s.streams[id].readTask == t;
        assert ReaderOk(s.host, id, t);
      }
      if t in AcceptTasks(s) {
        var sid :| sid in s.servers && s.servers[sid].acceptTask == t;
        assert AcceptorOk(s.host, sid, t);
      }
    }
  }

  /** One step, whatever the message, keeps the invariant. */
  lemma StepKeepsInv(s: State, input: Input, seed: U32)
    requires Inv(s) && seed >= 2
    ensures !Step(s, input, seed).Panicked? ==> Inv(Step(s, input, seed).state)
  {
    match input
    case UserCommand(cmd, oracle) => CommandKeepsInv(s, cmd, oracle);
    case Event(event) => EventKeepsInv(s, event);
    case Accepted(parent, child, peer) =>
      if HandleAccepted(s, parent, child, peer, seed).Ok? {
        AcceptedKeepsInv(s, parent, child, peer, seed);
      }
    case ShutdownRequest => ShutdownKeepsInv(s);
  }

  lemma {:induction false} RunFromKeepsInv(s: State, inputs: seq<Input>, seed: U32)
    requires Inv(s) && seed >= 2
    ensures !RunFrom(s, inputs, seed).Panicked? ==> Inv(RunFrom(s, inputs, seed).state)
  {
    if inputs != [] {
      var init := inputs[..|inputs| - 1];
      RunFromKeepsInv(s, init, seed);
      if RunFrom(s, init, seed).Running? {
        StepKeepsInv(RunFrom(s, init, seed).state, inputs[|inputs| - 1], seed);
      }
    }
  }

  /** Every state of every run satisfies the invariant. */
  lemma ReachableInv(inputs: seq<Input>, seed: U32)
    requires seed >= 2
    ensures !Run(inputs, seed).Panicked? ==> Inv(Run(inputs, seed).state)
  {
    EmptyInv();
    RunFromKeepsInv(EMPTY, inputs, seed);
  }

  /** A run goes on from the state that its first part leads to. */
  lemma {:induction false} RunAppend(s: State, a: seq<Input>, b: seq<Input>, seed: U32)
    ensures RunFrom(s, a + b, seed).Running? ==>
              RunFrom(s, a, seed).Running?
              && RunFrom(RunFrom(s, a, seed).state, b, seed).Running?
              && RunFrom(RunFrom(s, a, seed).state, b, seed).state == RunFrom(s, a + b, seed).state
  {
    if b == [] {
      assert a + b == a;
    } else {
      RunAppend(s, a, b[..|b| - 1], seed);
      assert (a + b)[..|a + b| - 1] == a + b[..|b| - 1];
    }
  }

  lemma RunOneMore(inputs: seq<Input>, k: nat, seed: U32)
    requires k < |inputs|
    ensures Run(inputs[..k + 1], seed)
            == match Run(inputs[..k], seed)
               case Running(s, _) => Step(s, inputs[k], seed)
               case other => other
  {
    assert inputs[..k + 1][..k] == inputs[..k];
  }
}
