// What a peer receives over a run: the bytes sent to its connection, in order, each
// once, whatever happens to ids, labels and other connections in between.
module Outputs {
  import opened Prelude
  import opened Ids
  import opened Model
  import opened Repl
  import opened Machine
  import opened Effects
  import opened Invariants
  import opened Preservation
  import opened Reachability
  import opened Numbering
  import opened Teardown

  /** The message sends to the stream `id`, by itself or by its server. */
  predicate Addressed(s: State, input: Input, id: ConnectionId)
    requires id in s.streams
  {
    input.UserCommand? && input.cmd.Send? && input.cmd.bytes != [] && Resolve(s, input.cmd.idToken).Ok?
    && var target := Resolve(s, input.cmd.idToken).value;
    if target.IsServer() then s.streams[id].parent == Some(target) else target == id
  }

  /** The bytes that the message brings to the stream's socket. */
  function SentBy(s: State, input: Input, id: ConnectionId): seq<U8>
    requires id in s.streams
  {
    if Addressed(s, input, id) then SentPart(input.cmd.bytes, OutcomeOf(input.oracle.writes, id)) else []
  }

  /** The same for the connection that the task `reader` reads, whatever its id is by then. */
  ghost function Delivered(s: State, input: Input, reader: nat): seq<U8> {
    if exists id :: id in s.streams && s.streams[id].readTask == reader then
      var id :| id in s.streams && s.streams[id].readTask == reader;
      SentBy(s, input, id)
    else []
  }

  /** All that the messages of a run bring to that connection, in their order. */
  ghost function Received(inputs: seq<Input>, seed: U32, reader: nat): seq<U8> {
    if inputs == [] then []
    else
      var init := inputs[..|inputs| - 1];
      match Run(init, seed)
      case Running(s, _) => Received(init, seed, reader) + Delivered(s, inputs[|inputs| - 1], reader)
      case _ => Received(init, seed, reader)
  }

  lemma DeliveredToReader(s: State, input: Input, id: ConnectionId)
    requires Inv(s) && id in s.streams
    ensures Delivered(s, input, s.streams[id].readTask) == SentBy(s, input, id)
  {
    forall other | other in s.streams && s.streams[other].readTask == s.streams[id].readTask ensures other == id {
      ReadersUnique(s, other, id);
    }
  }

  lemma NothingForNobody(s: State, input: Input, reader: nat)
    requires Inv(s) && reader >= |s.host.tasks|
    ensures Delivered(s, input, reader) == []
  {
    forall id | id in s.streams ensures s.streams[id].readTask != reader {
      assert ReaderOk(s.host, id, s.streams[id].readTask);
    }
  }

  // Steps that send nothing

  /** Every stream of `t` is freshly read and has no output, or is one of `s` with its output. */
  predicate Carried(s: State, t: State) {
    forall id | id in t.streams ::
      (t.streams[id].readTask == |s.host.tasks| && t.streams[id].output == [])
      || exists was | was in s.streams ::
           s.streams[was].readTask == t.streams[id].readTask && s.streams[was].output == t.streams[id].output
  }

  lemma CarriedItself(s: State, t: State)
    requires t.streams == s.streams
    ensures Carried(s, t)
  {
  }

  lemma OpenStreamCarries(s: State, id: ConnectionId, peer: PeerInfo, parent: Option<ConnectionId>)
    ensures Carried(s, OpenStream(s, id, peer, parent))
  {
    var t := OpenStream(s, id, peer, parent);
    assert forall c | c in t.streams && c != id :: c in s.streams && t.streams[c] == s.streams[c];
  }

  lemma RenameCarries(s: State, oldId: ConnectionId, newId: ConnectionId)
    ensures Carried(s, Rename(s, oldId, newId))
  {
    if oldId in s.streams {
      var t := Rename(s, oldId, newId);
      assert t.streams[newId].output == s.streams[oldId].output;
      assert forall c | c in t.streams && c != newId :: c in s.streams && t.streams[c] == s.streams[c];
    }
  }

  lemma CarriedThrough(s: State, t: State, u: State)
    requires Carried(s, t) && Carried(t, u) && |t.host.tasks| == |s.host.tasks|
    ensures Carried(s, u)
  {
  }

  lemma AllocateCarries(s: State, base: Base, seed: U32)
    requires Inv(s) && Allocate(s, base, seed).Ok?
    ensures Carried(s, Allocate(s, base, seed).value.state)
  {
    var srv, key := s.servers[base.Server()], base.Key();
    if key in srv.baseNoSuffix {
      AllocateCollision(s, base, seed);
      RenameCarries(WithTables(s, base.Server(), srv.disambigNext[key := seed], srv.baseNoSuffix - {key}),
                    base.Id(None), base.Id(Some(1)));
    } else {
      CarriedItself(s, Allocate(s, base, seed).value.state);
    }
  }

  lemma AcceptCarries(s: State, base: Base, peer: PeerInfo, seed: U32)
    requires Inv(s) && Allocate(s, base, seed).Ok?
    ensures Carried(s, After(s, AcceptedStream(base, peer), seed))
  {
    var a := Allocate(s, base, seed).value;
    AllocateCarries(s, base, seed);
    AllocateKeepsServers(s, base, seed);
    OpenStreamCarries(a.state, a.id, peer, Some(base.Server()));
    CarriedThrough(s, a.state, OpenStream(a.state, a.id, peer, Some(base.Server())));
    AfterAccept(s, base, peer, seed);
  }

  lemma RelabelCarries(s: State, id: ConnectionId, name: string)
    ensures Carried(s, ApplyLabel(s, id, name).0)
  {
    var t := ApplyLabel(s, id, name).0;
    assert forall c | c in t.streams ::
        c in s.streams && s.streams[c].readTask == t.streams[c].readTask && s.streams[c].output == t.streams[c].output;
  }

  lemma CloseCarries(s: State, effect: Effect, seed: U32)
    requires effect.ClosedOne? || effect.ClosedGroup? || effect.ClosedAll?
    ensures Carried(s, After(s, effect, seed))
  {
    var t := After(s, effect, seed);
    assert forall c | c in t.streams :: c in s.streams && t.streams[c] == s.streams[c];
  }

  lemma EffectCarries(s: State, effect: Effect, seed: U32)
    requires Inv(s) && Possible(s, effect, seed)
    ensures Carried(s, After(s, effect, seed))
  {
    match effect
    case OpenedClient(id, peer) => OpenStreamCarries(s, id, peer, None);
    case AcceptedStream(base, peer) => AcceptCarries(s, base, peer, seed);
    case Relabeled(id, name) => RelabelCarries(s, id, name);
    case OpenedServer(_, _) => CarriedItself(s, After(s, effect, seed));
    case Quiet => CarriedItself(s, s);
    case _ => CloseCarries(s, effect, seed);
  }

  predicate IsSend(input: Input) {
    input.UserCommand? && input.cmd.Send?
  }

  lemma OpenClientStreams(s: State, id: ConnectionId, peer: PeerInfo)
    ensures OpenClient(s, id, peer).streams == OpenStream(s, id, peer, None).streams
    ensures OpenClient(NextSeq(s), id, peer).streams == OpenStream(s, id, peer, None).streams
  {
  }

  lemma OpenStreams(s: State, cmd: Command, oracle: Oracle, seed: U32)
    requires cmd.OpenTcpClient? || cmd.OpenIpcClient? || cmd.OpenTcpServer? || cmd.OpenIpcServer?
    ensures RunCommand(s, cmd, oracle).0.streams == After(s, CommandEffect(s, cmd, oracle), seed).streams
  {
    match cmd
    case OpenTcpClient(localPort, host, port) =>
      OpenClientStreams(s, TcpClient(localPort), TcpSocket(host + ":" + Decimal.Dec(port)));
    case OpenIpcClient(path) => OpenClientStreams(s, IpcClient(s.nextSeq), IpcRemotePath(path));
    case _ =>
  }

  lemma CloseStreams(s: State, token: string, oracle: Oracle, seed: U32)
    ensures CloseToken(s, token).0.streams == After(s, CommandEffect(s, Close(token), oracle), seed).streams
  {
    match Resolve(s, token)
    case Err(_) =>
    case Ok(id) => CloseIdStreams(s, token, id, oracle, seed);
  }

  lemma CloseIdStreams(s: State, token: string, id: ConnectionId, oracle: Oracle, seed: U32)
    requires Resolve(s, token) == Ok(id)
    ensures CloseToken(s, token).0.streams == After(s, CommandEffect(s, Close(token), oracle), seed).streams
  {
    var effect := CommandEffect(s, Close(token), oracle);
    if id in s.servers {
      assert After(s, effect, seed) == DropServer(s, id);
    } else if id in s.streams {
      assert After(s, effect, seed) == DropStream(s, id);
    } else {
      assert After(s, effect, seed) == s;
    }
  }

  lemma CommandStreams(s: State, cmd: Command, oracle: Oracle, seed: U32)
    requires !cmd.Send?
    ensures RunCommand(s, cmd, oracle).0.streams == After(s, CommandEffect(s, cmd, oracle), seed).streams
  {
    match cmd
    case Label(token, name) => LabelStreams(s, token, name, oracle, seed);
    case Close(token) => CloseStreams(s, token, oracle, seed);
    case Status =>
    case _ => OpenStreams(s, cmd, oracle, seed);
  }

  lemma LabelStreams(s: State, token: string, name: string, oracle: Oracle, seed: U32)
    ensures LabelToken(s, token, name).0.streams == After(s, CommandEffect(s, Label(token, name), oracle), seed).streams
  {
    LabelHasEffect(s, token, name, oracle, seed);
    if Resolve(s, token).Ok? {
      RefusedLabel(s, Resolve(s, token).value, name);
    }
  }

  lemma AcceptedStreams(s: State, base: Base, peer: PeerInfo, seed: U32)
    requires Allocate(s, base, seed).Ok?
    ensures var a := Allocate(s, base, seed).value;
            OpenStream(ShowRename(a.state, a.renamed), a.id, peer, Some(base.Server())).streams
            == OpenStream(a.state, a.id, peer, Some(base.Server())).streams
  {
  }

  /** Unless it sends, a step leaves the streams that its effect leaves, output included. */
  lemma QuietStreams(s: State, input: Input, seed: U32)
    requires !IsSend(input) && Step(s, input, seed).Running?
    ensures Step(s, input, seed).state.streams == After(s, EffectOf(s, input, seed), seed).streams
  {
    match input
    case UserCommand(cmd, oracle) => CommandStreams(s, cmd, oracle, seed);
    case Accepted(parent, child, peer) =>
      if BaseFor(parent, child).Some? {
        AcceptedStreams(s, BaseFor(parent, child).value, peer, seed);
      }
    case Event(_) =>
  }

  // Steps that send

  /** Each stream's output has grown by what the message brings it. */
  predicate Grown(s: State, input: Input, t: State) {
    t.streams.Keys == s.streams.Keys
    && forall id | id in s.streams ::
         t.streams[id].readTask == s.streams[id].readTask
         && t.streams[id].output == s.streams[id].output + SentBy(s, input, id)
  }

  lemma BroadcastGrows(s: State, sid: ConnectionId, bytes: seq<U8>, order: seq<ConnectionId>,
                       writes: map<ConnectionId, WriteOutcome>, id: ConnectionId)
    requires Inv(s) && sid in s.servers && id in s.streams
    ensures var t := Broadcast(s, s.servers[sid].children, order, bytes, writes);
            t.streams.Keys == s.streams.Keys && t.streams[id].readTask == s.streams[id].readTask
            && t.streams[id].output == s.streams[id].output
               + if s.streams[id].parent == Some(sid) then SentPart(bytes, OutcomeOf(writes, id)) else []
  {
    OwnChildren(s, sid);
    assert StreamOk(s, id);
  }

  lemma WriteGrows(s: State, target: ConnectionId, bytes: seq<U8>, outcome: WriteOutcome, id: ConnectionId)
    requires Inv(s) && id in s.streams
    ensures var t := WriteTo(s, target, bytes, outcome);
            t.streams.Keys == s.streams.Keys && t.streams[id].readTask == s.streams[id].readTask
            && t.streams[id].output == s.streams[id].output + if target == id then SentPart(bytes, outcome) else []
  {
    assert StreamOk(s, id);
  }

  /** The stream `id` has grown by what a send to `target` brings it. */
  predicate GrownBy(s: State, t: State, id: ConnectionId, more: seq<U8>)
    requires id in s.streams
  {
    t.streams.Keys == s.streams.Keys && t.streams[id].readTask == s.streams[id].readTask
    && t.streams[id].output == s.streams[id].output + more
  }

  lemma SendToServerGrows(s: State, sid: ConnectionId, bytes: seq<U8>, order: seq<ConnectionId>,
                          writes: map<ConnectionId, WriteOutcome>, id: ConnectionId)
    requires Inv(s) && id in s.streams && sid.IsServer() && bytes != []
    ensures GrownBy(s, SendBytes(s, sid, bytes, order, writes).0, id,
                    if s.streams[id].parent == Some(sid) then SentPart(bytes, OutcomeOf(writes, id)) else [])
  {
    assert StreamOk(s, id);
    if sid in s.servers {
      BroadcastGrows(s, sid, bytes, order, writes, id);
    }
  }

  lemma SendGrows(s: State, token: string, bytes: seq<U8>, oracle: Oracle, id: ConnectionId)
    requires Inv(s) && id in s.streams
    ensures GrownBy(s, SendToken(s, token, bytes, oracle).0, id, SentBy(s, UserCommand(Send(token, bytes), oracle), id))
  {
    if Resolve(s, token).Ok? && bytes != [] {
      var target := Resolve(s, token).value;
      if target.IsServer() {
        SendToServerGrows(s, target, bytes, oracle.walk.ChildrenOf(target), oracle.writes, id);
      } else {
        WriteGrows(s, target, bytes, OutcomeOf(oracle.writes, target), id);
      }
    }
  }

  lemma SendStepGrows(s: State, input: Input, seed: U32)
    requires Inv(s) && IsSend(input)
    ensures Step(s, input, seed).Running? && Grown(s, input, Step(s, input, seed).state)
  {
    var t := SendToken(s, input.cmd.idToken, input.cmd.bytes, input.oracle).0;
    forall id | id in s.streams ensures GrownBy(s, t, id, SentBy(s, input, id)) {
      SendGrows(s, input.cmd.idToken, input.cmd.bytes, input.oracle, id);
    }
    SendHasEffect(s, input.cmd.idToken, input.cmd.bytes, input.oracle);
  }

  // Runs

  /** The connection under `id` is new and has no output, or its output has grown by what the message brings. */
  predicate Continued(s: State, input: Input, t: State, id: ConnectionId)
    requires id in t.streams
  {
    (t.streams[id].readTask == |s.host.tasks| && t.streams[id].output == [])
    || exists was | was in s.streams ::
         s.streams[was].readTask == t.streams[id].readTask
         && t.streams[id].output == s.streams[was].output + SentBy(s, input, was)
  }

  lemma GrownContinues(s: State, input: Input, t: State, id: ConnectionId)
    requires Grown(s, input, t) && id in t.streams
    ensures Continued(s, input, t, id)
  {
    assert id in s.streams;
  }

  lemma CarriedContinues(s: State, input: Input, u: State, t: State, id: ConnectionId)
    requires Carried(s, u) && t.streams == u.streams && id in t.streams && !IsSend(input)
    ensures Continued(s, input, t, id)
  {
    if !(t.streams[id].readTask == |s.host.tasks| && t.streams[id].output == []) {
      var was :| was in s.streams && s.streams[was].readTask == u.streams[id].readTask
                 && s.streams[was].output == u.streams[id].output;
      assert SentBy(s, input, was) == [];
    }
  }

  /** What a step does to the connection that ends up under `id`. */
  lemma StepOutput(s: State, input: Input, seed: U32, id: ConnectionId)
    requires Inv(s) && seed >= 2 && Step(s, input, seed).Running? && id in Step(s, input, seed).state.streams
    ensures Continued(s, input, Step(s, input, seed).state, id)
  {
    if IsSend(input) {
      SendStepGrows(s, input, seed);
      GrownContinues(s, input, Step(s, input, seed).state, id);
    } else {
      var effect := EffectOf(s, input, seed);
      QuietStreams(s, input, seed);
      EffectIsPossible(s, input, seed);
      EffectCarries(s, effect, seed);
      CarriedContinues(s, input, After(s, effect, seed), Step(s, input, seed).state, id);
    }
  }

  lemma {:induction false} NothingReceivedYet(inputs: seq<Input>, seed: U32, reader: nat)
    requires seed >= 2 && Run(inputs, seed).Running? && reader >= |Run(inputs, seed).state.host.tasks|
    ensures Received(inputs, seed, reader) == []
  {
    if inputs != [] {
      var init, last := inputs[..|inputs| - 1], inputs[|inputs| - 1];
      ReachableInv(init, seed);
      StepKeepsLifetimes(Run(init, seed).state, last, seed, TcpServer(0));
      NothingReceivedYet(init, seed, reader);
      NothingForNobody(Run(init, seed).state, last, reader);
    }
  }

  /**
   * After every run, what was written to each live connection is just what the
   * messages brought to it, in order: renamings, labels and closings of others lose
   * and repeat nothing, and a connection that overwrote another starts afresh.
   */
  lemma {:induction false} OutputInRun(inputs: seq<Input>, seed: U32, id: ConnectionId)
    requires seed >= 2 && Run(inputs, seed).Running? && id in Run(inputs, seed).state.streams
    ensures var h := Run(inputs, seed).state.streams[id];
            h.output == Received(inputs, seed, h.readTask)
  {
    if inputs != [] {
      var init, last := inputs[..|inputs| - 1], inputs[|inputs| - 1];
      var s, h := Run(init, seed).state, Run(inputs, seed).state.streams[id];
      ReachableInv(init, seed);
      StepOutput(s, last, seed, id);
      if h.readTask == |s.host.tasks| && h.output == [] {
        NothingReceivedYet(init, seed, h.readTask);
        NothingForNobody(s, last, h.readTask);
      } else {
        var was :| was in s.streams && s.streams[was].readTask == h.readTask
                   && h.output == s.streams[was].output + SentBy(s, last, was);
        OutputInRun(init, seed, was);
        DeliveredToReader(s, last, was);
      }
    }
  }
}
