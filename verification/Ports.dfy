// One port as a server and as a client: the open checks do not keep the two apart,
// and exactly which messages bring them together.
module Ports {
  import opened Prelude
  import opened Ids
  import opened Model
  import opened Repl
  import opened Machine
  import opened Effects
  import opened Invariants
  import opened Preservation
  import opened Reachability
  import opened Numbering
  import EndToEnd
  import TokenParser

  /** No port is open as a server and as a client. */
  ghost predicate Exclusive(s: State) {
    forall port: U16 :: !(TcpServer(port) in s.servers && TcpClient(port) in s.streams)
  }

  /**
   * Opening a TCP client is refused as a duplicate only for another client. With a
   * server on the same port both become live, and the port's text means the server.
   */
  lemma PortCheckMissesServers(s: State, port: U16, host: string, remote: U16, oracle: Oracle)
    requires Inv(s) && oracle.failure.None?
    ensures var (t, reply) := RunCommand(s, OpenTcpClient(port, host, remote), oracle);
            (reply.Err? <==> TcpClient(port) in s.streams)
            && (reply.Ok? ==> TcpClient(port) in t.streams && t.servers == s.servers)
            && (reply.Ok? && TcpServer(port) in s.servers && Render(TcpClient(port)) !in t.labels ==>
                  Resolve(t, Render(TcpClient(port))) == Ok(TcpServer(port)))
  {
    assert TcpClient(port) in s.servers ==> ServerOk(s, TcpClient(port));
    TokenParser.CandidatesOfNumber(port);
  }

  /**
   * The same the other way round: opening a TCP server is refused only for another
   * server. A live client of that port stays live, but its text now means the server.
   */
  lemma PortCheckMissesClients(s: State, port: U16, oracle: Oracle)
    requires Inv(s) && oracle.failure.None?
    ensures var (t, reply) := RunCommand(s, OpenTcpServer(port), oracle);
            (reply.Err? <==> TcpServer(port) in s.servers)
            && (reply.Ok? ==> TcpServer(port) in t.servers && t.streams == s.streams && t.labels == s.labels)
            && (reply.Ok? && Render(TcpClient(port)) !in s.labels ==>
                  Resolve(t, Render(TcpClient(port))) == Ok(TcpServer(port))
                  && (TcpClient(port) in s.streams ==> Resolve(s, Render(TcpClient(port))) == Ok(TcpClient(port))))
  {
    assert TcpServer(port) in s.streams ==> StreamOk(s, TcpServer(port));
    TokenParser.CandidatesOfNumber(port);
    assert FirstLive(s, [TcpServer(port), TcpClient(port)][1..])
        == if s.IsLive(TcpClient(port)) then Some(TcpClient(port)) else None by {
      assert [TcpServer(port), TcpClient(port)][1..] == [TcpClient(port)];
      assert [TcpClient(port)][1..] == [];
    }
  }

  /** As long as ports are exclusive, a client's port is as good as any id. */
  lemma ExclusiveClientResolves(s: State, port: U16)
    requires Inv(s) && Exclusive(s) && TcpClient(port) in s.streams && Render(TcpClient(port)) !in s.labels
    ensures Resolve(s, Render(TcpClient(port))) == Ok(TcpClient(port))
  {
    assert TcpServer(port) in s.streams ==> StreamOk(s, TcpServer(port));
    EndToEnd.TypedIdResolves(s, TcpClient(port));
  }

  // Exactly when exclusiveness ends

  /** The message opens a client of a port that has a live server, or the other way round. */
  predicate Clash(s: State, effect: Effect) {
    (effect.OpenedClient? && effect.id.TcpClient? && TcpServer(effect.id.localPort) in s.servers)
    || (effect.OpenedServer? && effect.sid.TcpServer? && TcpClient(effect.sid.port) in s.streams)
  }

  /** Accepting brings no TCP client and no server. */
  lemma AcceptKeepsPorts(s: State, base: Base, peer: PeerInfo, seed: U32)
    requires Inv(s) && Allocate(s, base, seed).Ok?
    ensures var t := After(s, AcceptedStream(base, peer), seed);
            t.servers.Keys == s.servers.Keys
            && forall port: U16 :: TcpClient(port) in t.streams <==> TcpClient(port) in s.streams
  {
    AcceptKeepsServers(s, base, peer, seed);
    AllocateKeepsClients(s, base, seed);
    AfterAccept(s, base, peer, seed);
  }

  lemma AllocateKeepsClients(s: State, base: Base, seed: U32)
    requires Inv(s) && Allocate(s, base, seed).Ok?
    ensures var a := Allocate(s, base, seed).value;
            a.id.IsAccepted()
            && forall port: U16 :: TcpClient(port) in a.state.streams <==> TcpClient(port) in s.streams
  {
    if base.Key() in s.servers[base.Server()].baseNoSuffix {
      AllocateCollision(s, base, seed);
    }
  }

  lemma EffectExclusive(s: State, effect: Effect, seed: U32)
    requires Inv(s) && Exclusive(s) && Possible(s, effect, seed)
    ensures Exclusive(After(s, effect, seed)) <==> !Clash(s, effect)
  {
    var t := After(s, effect, seed);
    match effect
    case OpenedClient(id, _) =>
      assert id.TcpClient? ==> id in t.streams && t.servers.Keys == s.servers.Keys;
    case OpenedServer(sid, _) =>
      assert sid in t.servers && t.streams == s.streams;
    case AcceptedStream(base, peer) => AcceptKeepsPorts(s, base, peer, seed);
    case _ =>
  }

  /** While ports are exclusive, a step ends that exactly if it opens both ways what is open one way. */
  lemma StepExclusive(s: State, input: Input, seed: U32)
    requires Inv(s) && Exclusive(s) && !Step(s, input, seed).Panicked?
    ensures Exclusive(Step(s, input, seed).state) <==> !Clash(s, EffectOf(s, input, seed))
  {
    EffectIsPossible(s, input, seed);
    EffectExclusive(s, EffectOf(s, input, seed), seed);
    StepHasEffect(s, input, seed);
  }

  // Whole runs

  /** Ports are exclusive before every message of the run and after the last. */
  ghost predicate AlwaysExclusive(inputs: seq<Input>, seed: U32) {
    forall k | 0 <= k <= |inputs| && !Run(inputs[..k], seed).Panicked? :: Exclusive(Run(inputs[..k], seed).state)
  }

  ghost predicate NoClash(inputs: seq<Input>, seed: U32) {
    forall k | 0 <= k < |inputs| && Run(inputs[..k], seed).Running? ::
      !Clash(Run(inputs[..k], seed).state, EffectOf(Run(inputs[..k], seed).state, inputs[k], seed))
  }

  lemma ExclusiveSoFar(inputs: seq<Input>, k: nat, seed: U32)
    requires seed >= 2 && NoClash(inputs, seed) && k <= |inputs| && !Run(inputs[..k], seed).Panicked?
    ensures Exclusive(Run(inputs[..k], seed).state)
  {
    if k > 0 {
      RunOneMore(inputs, k - 1, seed);
      ExclusiveSoFar(inputs, k - 1, seed);
      if Run(inputs[..k - 1], seed).Running? {
        ReachableInv(inputs[..k - 1], seed);
        StepExclusive(Run(inputs[..k - 1], seed).state, inputs[k - 1], seed);
      }
    }
  }

  lemma NoClashAt(inputs: seq<Input>, k: nat, seed: U32)
    requires seed >= 2 && AlwaysExclusive(inputs, seed) && k < |inputs| && Run(inputs[..k], seed).Running?
    ensures !Clash(Run(inputs[..k], seed).state, EffectOf(Run(inputs[..k], seed).state, inputs[k], seed))
  {
    var s := Run(inputs[..k], seed).state;
    RunOneMore(inputs, k, seed);
    ReachableInv(inputs[..k], seed);
    assert Exclusive(s);
    if !Step(s, inputs[k], seed).Panicked? {
      StepExclusive(s, inputs[k], seed);
      assert Run(inputs[..k + 1], seed) == Step(s, inputs[k], seed);
    }
  }

  /** Ports stay exclusive in a run if and only if no message of it opens a clash. */
  lemma {:induction false} RunExclusive(inputs: seq<Input>, seed: U32)
    requires seed >= 2
    ensures AlwaysExclusive(inputs, seed) <==> NoClash(inputs, seed)
  {
    if NoClash(inputs, seed) {
      forall k | 0 <= k <= |inputs| && !Run(inputs[..k], seed).Panicked?
        ensures Exclusive(Run(inputs[..k], seed).state)
      {
        ExclusiveSoFar(inputs, k, seed);
      }
    }
    if AlwaysExclusive(inputs, seed) {
      forall k | 0 <= k < |inputs| && Run(inputs[..k], seed).Running?
        ensures !Clash(Run(inputs[..k], seed).state, EffectOf(Run(inputs[..k], seed).state, inputs[k], seed))
      {
        NoClashAt(inputs, k, seed);
      }
    }
  }

  /** The command asks for a port that is open the other way. */
  predicate AsksForTakenPort(s: State, cmd: Command) {
    (cmd.OpenTcpServer? && TcpClient(cmd.port) in s.streams)
    || (cmd.OpenTcpClient? && TcpServer(cmd.localPort) in s.servers)
  }

  /** The operating system refuses to bind a port that is open the other way. */
  ghost predicate BindHolds(inputs: seq<Input>, seed: U32) {
    forall k | 0 <= k < |inputs| && Run(inputs[..k], seed).Running? && inputs[k].UserCommand?
               && AsksForTakenPort(Run(inputs[..k], seed).state, inputs[k].cmd) ::
      inputs[k].oracle.failure.Some?
  }

  lemma ClashAsks(s: State, input: Input, seed: U32)
    requires Clash(s, EffectOf(s, input, seed))
    ensures input.UserCommand? && AsksForTakenPort(s, input.cmd) && input.oracle.failure.None?
  {
  }

  /** If every such bind fails, no port is ever open both ways. */
  lemma {:induction false} BindKeepsPortsApart(inputs: seq<Input>, seed: U32)
    requires seed >= 2 && BindHolds(inputs, seed)
    ensures AlwaysExclusive(inputs, seed)
  {
    forall k | 0 <= k < |inputs| && Run(inputs[..k], seed).Running?
      ensures !Clash(Run(inputs[..k], seed).state, EffectOf(Run(inputs[..k], seed).state, inputs[k], seed))
    {
      var s := Run(inputs[..k], seed).state;
      if Clash(s, EffectOf(s, inputs[k], seed)) {
        ClashAsks(s, inputs[k], seed);
      }
    }
    RunExclusive(inputs, seed);
  }
}
