// What goes wrong when the second connection of a base arrives, and the third, and
// when one comes after its server was closed: the smallest runs in which it happens.
module Collision {
  import opened Prelude
  import opened Ids
  import opened Model
  import opened Repl
  import opened Machine
  import opened Effects
  import opened Invariants
  import opened Preservation
  import opened Reachability
  import opened Numbering
  import opened LabelTable
  import opened LabelHome
  import opened StatusReport
  import EndToEnd
  import Guarantees
  import TokenParser
  import Runtime

  /**
   * When the third connection of a base arrives while the second is live, the second
   * is overwritten: it is in no map any more, yet its reader is neither aborted nor
   * anybody's, and when that reader reports the end of its connection, the third
   * connection is the one that is closed.
   */
  lemma ThirdOverwritesSecond(s: State, base: Base, peer: PeerInfo)
    requires HasCounted(s, base, 2, CODE_SEED) && base.Id(Some(2)) in s.streams
    ensures Allocate(s, base, CODE_SEED).Ok? && Allocate(s, base, CODE_SEED).value.id == base.Id(Some(2))
    ensures var second := base.Id(Some(2));
            var lost := s.streams[second].readTask;
            var t := After(s, AcceptedStream(base, peer), CODE_SEED);
            t.streams.Keys == s.streams.Keys
            && t.streams[second].readTask == |s.host.tasks|
            && lost < |t.host.tasks| && t.host.tasks[lost] == ReadTask(second) && lost !in t.host.aborted
            && (forall id | id in t.streams :: t.streams[id].readTask != lost)
            && HandleEvent(t, ClosedEvent(second)).streams == t.streams - {second}
  {
    var second := base.Id(Some(2));
    var lost := s.streams[second].readTask;
    StrangerStands(s, base, peer);
    assert ReaderOk(s.host, second, lost);
    forall id | id in s.streams && id != second ensures s.streams[id].readTask != lost {
      if s.streams[id].readTask == lost {
        ReadersUnique(s, id, second);
      }
    }
  }

  /**
   * If the overwritten connection had a label, the label now leads to the third
   * connection, which is live and does not bear it: what the user sends to the one
   * by its label reaches the other.
   */
  lemma LabelReachesStranger(s: State, base: Base, peer: PeerInfo, name: string, bytes: seq<U8>, oracle: Oracle)
    requires HasCounted(s, base, 2, CODE_SEED) && base.Id(Some(2)) in s.streams && bytes != []
    requires Bears(s, base.Id(Some(2)), name)
    ensures var second := base.Id(Some(2));
            var t := After(s, AcceptedStream(base, peer), CODE_SEED);
            second in t.streams && t.streams[second].readTask == |s.host.tasks| && !Bears(t, second, name)
            && Resolve(t, name) == Ok(second)
            && SendToken(t, name, bytes, oracle).0.streams
               == t.streams[second := t.streams[second].(
                    output := t.streams[second].output + SentPart(bytes, OutcomeOf(oracle.writes, second)))]
  {
    var second := base.Id(Some(2));
    SecondsLabel(s, base, name);
    StrangerStands(s, base, peer);
    SendByLabel(After(s, AcceptedStream(base, peer), CODE_SEED), second, name, bytes, oracle);
  }

  lemma SecondsLabel(s: State, base: Base, name: string)
    requires Labels(s) && Bears(s, base.Id(Some(2)), name)
    ensures name in s.labels && s.labels[name] == base.Id(Some(2))
  {
    assert base.Id(Some(2)).AnchoredAt(s.labels[name]);
  }

  /** A label that leads to a live connection sends there, whoever bears it. */
  lemma SendByLabel(s: State, id: ConnectionId, name: string, bytes: seq<U8>, oracle: Oracle)
    requires name in s.labels && s.labels[name] == id && id in s.streams && !id.IsServer() && bytes != []
    requires s.streams[id].state.status == Connected
    ensures Resolve(s, name) == Ok(id)
    ensures SendToken(s, name, bytes, oracle).0.streams
            == s.streams[id := s.streams[id].(
                 output := s.streams[id].output + SentPart(bytes, OutcomeOf(oracle.writes, id)))]
  {
  }

  /** The third connection is put in the second one's place. */
  lemma StrangerStands(s: State, base: Base, peer: PeerInfo)
    requires HasCounted(s, base, 2, CODE_SEED) && base.Id(Some(2)) in s.streams
    ensures Allocate(s, base, CODE_SEED).Ok? && Allocate(s, base, CODE_SEED).value.id == base.Id(Some(2))
    ensures var second, t := base.Id(Some(2)), After(s, AcceptedStream(base, peer), CODE_SEED);
            t.labels == s.labels && t.host == s.Spawn(ReadTask(second)).host
            && t.streams == s.streams[second := StreamHandle(ConnectionState.NewConnected(second, Some(peer)), [],
                                                             |s.host.tasks|, Some(base.Server()))]
  {
    ArrivalId(s, base, 2);
    AfterAccept(s, base, peer, CODE_SEED);
    AllocateKeepsLabels(s, base, CODE_SEED);
    ThirdKeepsStreams(s, base);
  }

  lemma ThirdKeepsStreams(s: State, base: Base)
    requires HasCounted(s, base, 2, CODE_SEED)
    ensures Allocate(s, base, CODE_SEED).Ok? && Allocate(s, base, CODE_SEED).value.state.streams == s.streams
  {
    ArrivalId(s, base, 2);
  }

  lemma AllocateKeepsLabels(s: State, base: Base, seed: U32)
    requires Allocate(s, base, seed).Ok?
    ensures var t := Allocate(s, base, seed).value.state;
            t.labels == s.labels && t.host == s.host
  {
  }

  // The smallest runs

  const ANY_HOST: Oracle := Oracle(None, map[], Iteration([], [], map[]))

  /** What the accept loop of an IPC server sends for a connection of process `pid`. */
  function Connect(path: string, pid: I32): (input: Input)
    ensures AcceptMessage(IpcServer(path), IpcPid(pid)) == Some(input)
  {
    Accepted(IpcServer(path), AcceptedIpc(path, pid, None), IpcPid(pid))
  }

  function Open(path: string): Input {
    UserCommand(OpenIpcServer(path), ANY_HOST)
  }

  lemma Opening(s: State, path: string, pid: I32)
    requires s == EMPTY
    ensures var o := Step(s, Open(path), CODE_SEED);
            o.Running? && HasCounted(o.state, IpcBase(path, pid), 0, CODE_SEED) && o.state.labels == map[]
            && o.state.streams == map[] && o.state.servers.Keys == {IpcServer(path)}
  {
    EmptyInv();
    StepKeepsInv(s, Open(path), CODE_SEED);
    OpenedServerCountsNothing(s, IpcServer(path), Some(path), IpcBase(path, pid), CODE_SEED);
    assert Step(s, Open(path), CODE_SEED).state == OpenServer(s, IpcServer(path), Some(path));
  }

  /** The id that the next connection of a base gets after `k` of them. */
  function NextId(base: Base, k: nat): ConnectionId {
    if k == 0 then base.Id(None) else base.Id(Some(2))
  }

  lemma ArrivalId(s: State, base: Base, k: nat)
    requires HasCounted(s, base, k, CODE_SEED) && k <= 2
    ensures Allocate(s, base, CODE_SEED).Ok? && Allocate(s, base, CODE_SEED).value.id == NextId(base, k)
  {
    AllocateAfter(s, base, k, k + 1, CODE_SEED);
    assert AsSuffix(Allocate(s, base, CODE_SEED).value.id.disambig) == SuffixOf(k + 1, CODE_SEED);
    var disambig := Allocate(s, base, CODE_SEED).value.id.disambig;
    assert if k == 0 then disambig == None else disambig == Some(2);
  }

  lemma ArrivalEffect(s: State, path: string, pid: I32)
    requires Allocate(s, IpcBase(path, pid), CODE_SEED).Ok?
    ensures Step(s, Connect(path, pid), CODE_SEED).Running?
    ensures EffectOf(s, Connect(path, pid), CODE_SEED) == AcceptedStream(IpcBase(path, pid), IpcPid(pid))
    ensures InsertedId(s, Connect(path, pid), CODE_SEED) == Some(Allocate(s, IpcBase(path, pid), CODE_SEED).value.id)
  {
  }

  /** The connections of one process, one after the other: what each is called, and what it leaves. */
  lemma Arrival(s: State, path: string, pid: I32, k: nat)
    requires HasCounted(s, IpcBase(path, pid), k, CODE_SEED) && k <= 2
    ensures InsertedId(s, Connect(path, pid), CODE_SEED) == Some(NextId(IpcBase(path, pid), k))
    ensures var o := Step(s, Connect(path, pid), CODE_SEED);
            o.Running? && HasCounted(o.state, IpcBase(path, pid), k + 1, CODE_SEED)
            && SameCore(After(s, AcceptedStream(IpcBase(path, pid), IpcPid(pid)), CODE_SEED), o.state)
            && NextId(IpcBase(path, pid), k) in o.state.streams && o.state.labels == s.labels
            && o.state.servers.Keys == s.servers.Keys
            && (k == 0 ==> o.state.streams.Keys == s.streams.Keys + {AcceptedIpc(path, pid, None)})
  {
    var base := IpcBase(path, pid);
    ArrivalId(s, base, k);
    ArrivalEffect(s, path, pid);
    StepKeepsInv(s, Connect(path, pid), CODE_SEED);
    StepHasEffect(s, Connect(path, pid), CODE_SEED);
    AcceptCounts(s, base, IpcPid(pid), CODE_SEED, base, k);
    AcceptInserts(s, base, IpcPid(pid), CODE_SEED);
    AcceptKeepsLabels(s, base, IpcPid(pid), CODE_SEED);
    AcceptKeepsServers(s, base, IpcPid(pid), CODE_SEED);
    if k == 0 {
      FirstIsAdded(s, base, IpcPid(pid));
    }
  }

  lemma FirstIsAdded(s: State, base: Base, peer: PeerInfo)
    requires HasCounted(s, base, 0, CODE_SEED)
    ensures After(s, AcceptedStream(base, peer), CODE_SEED).streams.Keys == s.streams.Keys + {base.Id(None)}
  {
    ArrivalId(s, base, 0);
    AfterAccept(s, base, peer, CODE_SEED);
  }

  lemma AcceptKeepsLabels(s: State, base: Base, peer: PeerInfo, seed: U32)
    requires Allocate(s, base, seed).Ok?
    ensures After(s, AcceptedStream(base, peer), seed).labels == s.labels
  {
    AllocateKeepsLabels(s, base, seed);
    AfterAccept(s, base, peer, seed);
  }

  lemma AcceptInserts(s: State, base: Base, peer: PeerInfo, seed: U32)
    requires Allocate(s, base, seed).Ok?
    ensures Allocate(s, base, seed).value.id in After(s, AcceptedStream(base, peer), seed).streams
  {
    var a := Allocate(s, base, seed).value;
    assert a.id in OpenStream(a.state, a.id, peer, Some(base.Server())).streams;
  }

  /** A server is opened and one process connects to it `k` times. */
  function ConnectedBy(path: string, pid: I32, k: nat): (inputs: seq<Input>)
    ensures |inputs| == k + 1
  {
    if k == 0 then [Open(path)] else ConnectedBy(path, pid, k - 1) + [Connect(path, pid)]
  }

  lemma RunThen(inputs: seq<Input>, last: Input)
    requires Run(inputs, CODE_SEED).Running?
    ensures Run(inputs + [last], CODE_SEED) == Step(Run(inputs, CODE_SEED).state, last, CODE_SEED)
  {
    assert (inputs + [last])[..|inputs|] == inputs;
  }

  /** A run after which `k` connections have come, and no label was given. */
  ghost predicate Arrived(inputs: seq<Input>, base: Base, k: nat) {
    Run(inputs, CODE_SEED).Running?
    && HasCounted(Run(inputs, CODE_SEED).state, base, k, CODE_SEED)
    && Run(inputs, CODE_SEED).state.labels == map[]
    && Run(inputs, CODE_SEED).state.servers.Keys == {base.Server()}
    && (k > 0 ==> NextId(base, k - 1) in Run(inputs, CODE_SEED).state.streams)
    && (k <= 1 ==> Run(inputs, CODE_SEED).state.streams.Keys == if k == 0 then {} else {base.Id(None)})
  }

  lemma Opened(path: string, pid: I32)
    ensures Arrived(ConnectedBy(path, pid, 0), IpcBase(path, pid), 0)
  {
    Opening(EMPTY, path, pid);
    RunThen([], Open(path));
    assert ConnectedBy(path, pid, 0) == [] + [Open(path)];
  }

  lemma ConnectedNext(inputs: seq<Input>, path: string, pid: I32, k: nat)
    requires Arrived(inputs, IpcBase(path, pid), k) && k <= 2
    ensures Arrived(inputs + [Connect(path, pid)], IpcBase(path, pid), k + 1)
  {
    RunThen(inputs, Connect(path, pid));
    Arrival(Run(inputs, CODE_SEED).state, path, pid, k);
  }

  lemma ConnectedOnceMore(path: string, pid: I32, k: nat)
    requires k <= 2 && Arrived(ConnectedBy(path, pid, k), IpcBase(path, pid), k)
    ensures Arrived(ConnectedBy(path, pid, k + 1), IpcBase(path, pid), k + 1)
  {
    var inputs := ConnectedBy(path, pid, k);
    ConnectedNext(inputs, path, pid, k);
    assert ConnectedBy(path, pid, k + 1) == inputs + [Connect(path, pid)];
  }

  lemma ConnectedArrived(path: string, pid: I32)
    ensures Arrived(ConnectedBy(path, pid, 1), IpcBase(path, pid), 1)
    ensures Arrived(ConnectedBy(path, pid, 2), IpcBase(path, pid), 2)
    ensures Arrived(ConnectedBy(path, pid, 3), IpcBase(path, pid), 3)
  {
    Opened(path, pid);
    ConnectedOnceMore(path, pid, 0);
    ConnectedOnceMore(path, pid, 1);
    ConnectedOnceMore(path, pid, 2);
  }

  lemma FeasibleThen(inputs: seq<Input>, last: Input)
    requires Runtime.Feasible(inputs)
    requires last.UserCommand? && Run(inputs, CODE_SEED).Running? ==>
               Walks(Run(inputs, CODE_SEED).state, last.oracle.walk)
    ensures Runtime.Feasible(inputs + [last])
  {
    var all := inputs + [last];
    assert all[..|inputs|] == inputs;
    assert forall k | 0 <= k < |inputs| :: all[..k] == inputs[..k] && all[k] == inputs[k];
  }

  lemma {:induction false} ConnectedFeasible(path: string, pid: I32, k: nat)
    ensures Runtime.Feasible(ConnectedBy(path, pid, k))
  {
    if k == 0 {
      assert Walks(Run([], CODE_SEED).state, Open(path).oracle.walk);
      FeasibleThen([], Open(path));
      assert [] + [Open(path)] == [Open(path)];
    } else {
      ConnectedFeasible(path, pid, k - 1);
      FeasibleThen(ConnectedBy(path, pid, k - 1), Connect(path, pid));
    }
  }

  /** Three connections of one process: the third gets the id of the second, which is live. */
  lemma CollisionRun(path: string, pid: I32)
    ensures Run(ConnectedBy(path, pid, 2), CODE_SEED).Running?
    ensures var s := Run(ConnectedBy(path, pid, 2), CODE_SEED).state;
            AcceptedIpc(path, pid, Some(2)) in s.streams
            && InsertedId(s, Connect(path, pid), CODE_SEED) == Some(AcceptedIpc(path, pid, Some(2)))
    ensures Runtime.Feasible(ConnectedBy(path, pid, 3))
    ensures Run(ConnectedBy(path, pid, 3), CODE_SEED).Running? && !NoReissue(ConnectedBy(path, pid, 3), CODE_SEED)
  {
    var before, all := ConnectedBy(path, pid, 2), ConnectedBy(path, pid, 3);
    ConnectedArrived(path, pid);
    Arrival(Run(before, CODE_SEED).state, path, pid, 2);
    assert all[..3] == before && all[3] == Connect(path, pid);
    assert !Fresh(Run(all[..3], CODE_SEED).state, all[3], CODE_SEED);
    ConnectedFeasible(path, pid, 3);
  }

  /** The user labels a connection by its printed id. */
  function Name(path: string, pid: I32, name: string): Input {
    var server, id := IpcServer(path), AcceptedIpc(path, pid, None);
    UserCommand(Label(Render(id), name),
                Oracle(None, map[], Iteration([id], [server], map[server := [id]])))
  }

  lemma PrintedIdResolves(s: State, path: string, pid: I32)
    requires "/" <= path && s.labels == map[] && AcceptedIpc(path, pid, None) in s.streams
    ensures Resolve(s, Render(AcceptedIpc(path, pid, None))) == Ok(AcceptedIpc(path, pid, None))
  {
    TokenParser.CandidatesOfIpc(path, pid);
  }

  lemma NamingLabels(s: State, id: ConnectionId, name: string)
    requires s.labels == map[] && id in s.streams && Resolve(s, Render(id)) == Ok(id)
    ensures var (t, reply) := LabelToken(s, Render(id), name);
            Bears(t, id, name) && t.servers == s.servers
  {
  }

  lemma Naming(s: State, path: string, pid: I32, name: string)
    requires HasCounted(s, IpcBase(path, pid), 1, CODE_SEED) && IpcBase(path, pid).Id(None) in s.streams
    requires "/" <= path && s.labels == map[]
    ensures var o := Step(s, Name(path, pid, name), CODE_SEED);
            o.Running? && HasCounted(o.state, IpcBase(path, pid), 1, CODE_SEED)
            && Bears(o.state, IpcBase(path, pid).Id(None), name)
  {
    PrintedIdResolves(s, path, pid);
    NamingLabels(s, AcceptedIpc(path, pid, None), name);
    StepKeepsInv(s, Name(path, pid, name), CODE_SEED);
  }

  lemma StrandedIsUseless(s: State, t: State, base: Base, name: string)
    requires Stranded(s, base, name) && SameCore(s, t)
    ensures Stranded(t, base, name) && UselessLabel(t, name)
  {
    DeadLabelFails(t, name);
  }

  /** The second connection of the process comes: the label stays with the first and leads nowhere. */
  lemma Stranding(s: State, path: string, pid: I32, name: string)
    requires HasCounted(s, IpcBase(path, pid), 1, CODE_SEED) && Bears(s, IpcBase(path, pid).Id(None), name)
    ensures var o := Step(s, Connect(path, pid), CODE_SEED);
            o.Running? && Stranded(o.state, IpcBase(path, pid), name) && UselessLabel(o.state, name)
  {
    var base := IpcBase(path, pid);
    Arrival(s, path, pid, 1);
    RenameStrandsLabel(s, base, IpcPid(pid), CODE_SEED, name);
    StrandedIsUseless(After(s, AcceptedStream(base, IpcPid(pid)), CODE_SEED),
                      Step(s, Connect(path, pid), CODE_SEED).state, base, name);
  }

  /** A server, a connection, and its label. */
  function Named(path: string, pid: I32, name: string): (inputs: seq<Input>)
    ensures |inputs| == 3
  {
    ConnectedBy(path, pid, 1) + [Name(path, pid, name)]
  }

  lemma NamedBears(path: string, pid: I32, name: string)
    requires "/" <= path
    ensures Run(Named(path, pid, name), CODE_SEED).Running?
    ensures var s := Run(Named(path, pid, name), CODE_SEED).state;
            HasCounted(s, IpcBase(path, pid), 1, CODE_SEED) && Bears(s, AcceptedIpc(path, pid, None), name)
  {
    ConnectedArrived(path, pid);
    RunThen(ConnectedBy(path, pid, 1), Name(path, pid, name));
    Naming(Run(ConnectedBy(path, pid, 1), CODE_SEED).state, path, pid, name);
  }

  /** When the user labels the connection, the maps hold one stream and its server. */
  lemma NamedWalks(s: State, path: string, pid: I32, name: string)
    requires HasCounted(s, IpcBase(path, pid), 1, CODE_SEED)
    requires s.streams.Keys == {AcceptedIpc(path, pid, None)} && s.servers.Keys == {IpcServer(path)}
    ensures Walks(s, Name(path, pid, name).oracle.walk)
  {
    var server, id := IpcServer(path), AcceptedIpc(path, pid, None);
    assert id in s.streams && server in s.servers;
    assert StreamOk(s, id) && ServerOk(s, server);
    assert s.servers[server].children == {id};
  }

  lemma NamedFeasible(path: string, pid: I32, name: string)
    ensures Runtime.Feasible(Named(path, pid, name) + [Connect(path, pid)])
  {
    ConnectedArrived(path, pid);
    ConnectedFeasible(path, pid, 1);
    NamedWalks(Run(ConnectedBy(path, pid, 1), CODE_SEED).state, path, pid, name);
    FeasibleThen(ConnectedBy(path, pid, 1), Name(path, pid, name));
    FeasibleThen(Named(path, pid, name), Connect(path, pid));
  }

  /**
   * A connection is labelled and a second one of the same process comes. The first
   * is live as `#1` and bears the label, but the label is of no use any more.
   */
  lemma StrandingRun(path: string, pid: I32, name: string)
    requires "/" <= path
    ensures var run := Named(path, pid, name) + [Connect(path, pid)];
            Runtime.Feasible(run) && Run(run, CODE_SEED).Running? && !AlwaysHome(run, CODE_SEED)
            && var t := Run(run, CODE_SEED).state;
            Bears(t, AcceptedIpc(path, pid, Some(1)), name) && name in t.labels && UselessLabel(t, name)
  {
    var run := Named(path, pid, name) + [Connect(path, pid)];
    NamedBears(path, pid, name);
    RunThen(Named(path, pid, name), Connect(path, pid));
    Stranding(Run(Named(path, pid, name), CODE_SEED).state, path, pid, name);
    assert run[..4] == run;
    assert !Home(Run(run[..4], CODE_SEED).state) by {
      assert !Bears(Run(run, CODE_SEED).state, Run(run, CODE_SEED).state.labels[name], name);
    }
    NamedFeasible(path, pid, name);
  }

  // A connection that comes too late

  /** The user closes the server by its path; at that time there is one server to walk. */
  function Closing(path: string): Input {
    var server := IpcServer(path);
    UserCommand(Close(path), Oracle(None, map[], Iteration([], [server], map[server := []])))
  }

  lemma PathResolves(s: State, path: string)
    requires "/" <= path && s.labels == map[] && s.streams == map[] && s.servers.Keys == {IpcServer(path)}
    ensures Resolve(s, path) == Ok(IpcServer(path))
  {
    forall rival | rival in TokenParser.Rivals(IpcServer(path)) ensures !s.IsLive(rival) {
      assert rival.IsAccepted();
    }
    EndToEnd.TypedIdResolves(s, IpcServer(path));
  }

  lemma ClosingStep(s: State, path: string)
    requires "/" <= path && s.labels == map[] && s.streams == map[] && s.servers.Keys == {IpcServer(path)}
    ensures CloseToken(s, path).1 == Ok(ClosedServer(IpcServer(path)))
    ensures Step(s, Closing(path), CODE_SEED) == Running(CloseToken(s, path).0, Some(CloseToken(s, path).1))
  {
    PathResolves(s, path);
  }

  lemma ClosingWalks(s: State, path: string)
    requires Shape(s) && s.streams == map[] && s.servers.Keys == {IpcServer(path)}
    ensures Walks(s, Closing(path).oracle.walk)
  {
    assert ServerOk(s, IpcServer(path));
    assert s.servers[IpcServer(path)].children == {};
  }

  /**
   * A server is opened and closed, and then comes the connection that its accept
   * loop had sent before: the task panics.
   */
  lemma LateRun(path: string, pid: I32)
    requires "/" <= path
    ensures var run := ConnectedBy(path, pid, 0) + [Closing(path)] + [Connect(path, pid)];
            Runtime.Feasible(run) && Run(run, CODE_SEED) == Panicked(ParentGone)
  {
    var before := ConnectedBy(path, pid, 0);
    Opened(path, pid);
    ConnectedFeasible(path, pid, 0);
    var s := Run(before, CODE_SEED).state;
    assert s.streams == map[];
    ClosingStep(s, path);
    ClosingWalks(s, path);
    RunThen(before, Closing(path));
    FeasibleThen(before, Closing(path));
    RunThen(before + [Closing(path)], Connect(path, pid));
    FeasibleThen(before + [Closing(path)], Connect(path, pid));
    Guarantees.LateHandoffPanics(s, path, IpcServer(path), IpcPid(pid), CODE_SEED);
  }
}
