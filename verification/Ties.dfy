// When the order of hash maps shows in the status report: a TCP server and an IPC
// server whose path is the number of the port, one of them with connections.
module Ties {
  import opened Prelude
  import opened Text
  import opened Decimal
  import opened Ids
  import opened Model
  import opened Repl
  import opened Machine
  import opened Effects
  import opened Flat
  import opened Invariants
  import opened Reachability
  import opened Numbering
  import opened Blocks
  import opened Sorting
  import opened StatusReport
  import opened StatusOrder
  import Collision
  import Runtime
  import TokenParser

  /** Two servers have the text of `port`, and at least one of them has connections. */
  predicate BusyTie(s: State, port: U16) {
    var tcp, ipc := TcpServer(port), IpcServer(Dec(port));
    tcp in s.servers && ipc in s.servers && (s.servers[tcp].children != {} || s.servers[ipc].children != {})
  }

  // Peers as accept loops report them

  /** A TCP peer is an address with a colon and no space, an IPC peer is a process. */
  predicate ProperPeer(parent: Option<ConnectionId>, peer: Option<PeerInfo>) {
    match parent
    case Some(TcpServer(_)) =>
      peer.Some? && peer.value.TcpSocket? && ':' in peer.value.addr && ' ' !in peer.value.addr
    case Some(IpcServer(_)) => peer.Some? && peer.value.IpcPid?
    case _ => true
  }

  predicate Peers(s: State) {
    forall id | id in s.streams :: ProperPeer(s.streams[id].parent, s.streams[id].state.peerInfo)
  }

  /** The message is one that an accept loop sends; the text of a socket address has no space. */
  predicate AsAcceptLoopsSend(input: Input) {
    input.Accepted? ==>
      AcceptMessage(input.parent, input.peer) == Some(input)
      && (input.peer.TcpSocket? ==> ' ' !in input.peer.addr)
  }

  predicate ProperAction(action: Action) {
    (action.OpenConn? ==> ProperPeer(action.parent, Some(action.peer)))
    && (action.ReplaceConn? ==> ProperPeer(action.parent, Some(action.peer)))
  }

  predicate ProperConns(f: FlatState) {
    forall c | c in f.conns :: ProperPeer(c.parent, c.peer)
  }

  lemma ProperNext(f: FlatState, action: Action)
    requires ProperConns(f) && ProperAction(action)
    ensures ProperConns(FlatNext(f, action))
  {
  }

  lemma ProperMessage(s: State, input: Input, seed: U32)
    requires AsAcceptLoopsSend(input)
    ensures ProperAction(ActionFor(s, EffectOf(s, input, seed), seed))
  {
    if input.Accepted? {
      AcceptedIsProper(input);
    }
  }

  lemma AcceptedIsProper(input: Input)
    requires input.Accepted? && AsAcceptLoopsSend(input)
    ensures ProperPeer(Some(input.parent), Some(input.peer))
  {
  }

  lemma {:induction false} ProperActions(inputs: seq<Input>, seed: U32)
    requires forall input | input in inputs :: AsAcceptLoopsSend(input)
    ensures forall action | action in Actions(inputs, seed) :: ProperAction(action)
  {
    if inputs != [] {
      var init, last := inputs[..|inputs| - 1], inputs[|inputs| - 1];
      assert last in inputs;
      ProperActions(init, seed);
      if Run(init, seed).Running? {
        ProperMessage(Run(init, seed).state, last, seed);
      }
    }
  }

  lemma {:induction false} ProperRun(actions: seq<Action>)
    requires forall action | action in actions :: ProperAction(action)
    ensures ProperConns(FlatRun(actions))
  {
    if actions != [] {
      assert actions[|actions| - 1] in actions;
      ProperRun(actions[..|actions| - 1]);
      ProperNext(FlatRun(actions[..|actions| - 1]), actions[|actions| - 1]);
    }
  }

  lemma ProperInFlat(s: State)
    requires ProperConns(FlatOf(s))
    ensures Peers(s)
  {
    forall id | id in s.streams ensures ProperPeer(s.streams[id].parent, s.streams[id].state.peerInfo) {
      assert ConnOf(s.streams[id]) in FlatOf(s).conns;
    }
  }

  /** If accepts come from accept loops, all peers of a run are as these report them. */
  lemma {:induction false} ReachablePeers(inputs: seq<Input>, seed: U32)
    requires seed >= 2 && !Run(inputs, seed).Panicked?
    requires forall input | input in inputs :: AsAcceptLoopsSend(input)
    ensures Peers(Run(inputs, seed).state)
  {
    RunRefines(inputs, seed);
    ProperActions(inputs, seed);
    ProperRun(Actions(inputs, seed));
    ProperInFlat(Run(inputs, seed).state);
  }

  // How child lines begin

  /** The beginning of a child line, up to the space after the peer. */
  function Head(text: string, peer: string): string {
    "    " + text + " " + "   peer=" + peer + " "
  }

  lemma HeadParts(text: string, peer: string, line: string)
    requires ' ' !in text && ' ' !in peer && Head(text, peer) <= line
    ensures |line| >= 4 && SplitOnce(line[4..], ' ').Some?
    ensures var rest := SplitOnce(line[4..], ' ').value.1;
            |rest| >= 8 && SplitOnce(rest[8..], ' ').Some? && SplitOnce(rest[8..], ' ').value.0 == peer
  {
    var tail := line[|Head(text, peer)|..];
    var rest := "   peer=" + peer + " " + tail;
    assert line == Head(text, peer) + tail;
    assert line[4..] == text + [' '] + rest;
    SplitOnceAt(text, ' ', rest);
    assert rest[8..] == peer + [' '] + tail;
    SplitOnceAt(peer, ' ', tail);
  }

  /** A text that begins in two ways names one peer. */
  lemma SamePeer(a: string, p: string, b: string, q: string, line: string)
    requires ' ' !in a && ' ' !in p && ' ' !in b && ' ' !in q
    requires Head(a, p) <= line && Head(b, q) <= line
    ensures p == q
  {
    HeadParts(a, p, line);
    HeadParts(b, q, line);
  }

  lemma LineHead(id: ConnectionId, h: StreamHandle)
    ensures Head(Render(id), PeerText(h.state.peerInfo)) <= ChildLine(id, h)
  {
    var text, peer := Render(id), PeerText(h.state.peerInfo);
    var tail := "   [" + StatusTag(h.state.status) + "]" + LabelText(h.state.alias) + "\n";
    assert ChildLine(id, h) == Head(text, peer) + tail;
  }

  lemma {:induction false} LinesHead(s: State, ids: seq<ConnectionId>)
    requires ids != [] && forall id | id in ids :: id in s.streams
    ensures ids[0] in s.streams
    ensures Head(Render(ids[0]), PeerText(s.streams[ids[0]].state.peerInfo)) <= ChildLines(s, ids)
  {
    var init, last := ids[..|ids| - 1], ids[|ids| - 1];
    assert last in ids && ids[0] in ids;
    if init == [] {
      LineHead(last, s.streams[last]);
      assert ChildLines(s, ids) == ChildLine(last, s.streams[last]);
    } else {
      LinesHead(s, init);
      assert ChildLines(s, init) <= ChildLines(s, ids);
    }
  }

  /** The texts of connections under a port or under a path that is a number have no space. */
  lemma ChildTextHasNoSpace(id: ConnectionId, port: U16)
    requires id.IsAccepted() && (id.Parent() == Some(TcpServer(port)) || id.Parent() == Some(IpcServer(Dec(port))))
    ensures ' ' !in Render(id)
  {
    match id
    case AcceptedTcp(_, _, d) => assert ' ' !in Suffix(d);
    case AcceptedIpc(_, _, d) => assert ' ' !in Suffix(d);
  }

  // The blocks of two servers with one text

  /** The lines under a server that has connections begin with the head of one of these. */
  lemma BusyHead(s: State, a: Iteration, sid: ConnectionId) returns (id: ConnectionId)
    requires Inv(s) && Walks(s, a) && sid in s.servers && s.servers[sid].children != {}
    ensures id in s.streams && id.Parent() == Some(sid) && s.streams[id].parent == Some(sid)
    ensures Head(Render(id), PeerText(s.streams[id].state.peerInfo)) <= ChildLines(s, SortByText(a.ChildrenOf(sid)))
  {
    assert ServerOk(s, sid);
    var ids := SortByText(a.ChildrenOf(sid));
    SortEnumerates(a.ChildrenOf(sid), s.servers[sid].children);
    LinesHead(s, ids);
    id := ids[0];
    assert id in ids;
    assert StreamOk(s, id);
  }

  lemma IdleBlock(s: State, a: Iteration, sid: ConnectionId)
    requires Walks(s, a) && sid in s.servers && s.servers[sid].children == {}
    ensures ServerBlock(s, sid, a) == "  " + Render(sid) + "\n"
  {
    EnumerationIsSet(a.ChildrenOf(sid), {});
    assert |multiset(a.ChildrenOf(sid))| == 0;
  }

  lemma TitleThenIndent(port: U16, lines: string)
    requires "    " <= lines
    ensures !Commute("  " + Dec(port) + "\n" + lines, "  " + Dec(port) + "\n")
  {
    var title := "  " + Dec(port) + "\n";
    assert title[2] == Dec(port)[0] && IsDigit(title[2]);
    TitleDoesNotCommute(title, lines, 2);
  }

  /** If two titled blocks commute, one text begins with the lines of the one and with those of the other. */
  lemma TitledCommute(title: string, x: string, y: string)
    requires Commute(title + x, title + y)
    ensures x <= x + (title + y) && y <= x + (title + y)
  {
    assert (title + x) + (title + y) == title + (x + (title + y));
    assert (title + y) + (title + x) == title + (y + (title + x));
    assert x + (title + y) == (title + (x + (title + y)))[|title|..];
    assert y + (title + x) == (title + (y + (title + x)))[|title|..];
  }

  lemma HeadIsIndented(text: string, peer: string, lines: string)
    requires Head(text, peer) <= lines
    ensures "    " <= lines
  {
  }

  /** Titled lines of a TCP server and of an IPC server with its text do not commute. */
  lemma BusyTexts(s: State, port: U16, t: ConnectionId, i: ConnectionId, title: string, x: string, y: string)
    requires Inv(s) && Peers(s) && t in s.streams && i in s.streams
    requires t.Parent() == Some(TcpServer(port)) == s.streams[t].parent
    requires i.Parent() == Some(IpcServer(Dec(port))) == s.streams[i].parent
    requires Head(Render(t), PeerText(s.streams[t].state.peerInfo)) <= x
    requires Head(Render(i), PeerText(s.streams[i].state.peerInfo)) <= y
    ensures !Commute(title + x, title + y)
  {
    if Commute(title + x, title + y) {
      TitledCommute(title, x, y);
      var line := x + (title + y);
      PrefixOfPrefix(Head(Render(t), PeerText(s.streams[t].state.peerInfo)), x, line);
      PrefixOfPrefix(Head(Render(i), PeerText(s.streams[i].state.peerInfo)), y, line);
      OneHead(s, t, i, port, line);
    }
  }

  lemma PrefixOfPrefix(a: string, b: string, c: string)
    requires a <= b && b <= c
    ensures a <= c
  {
  }

  lemma BlockParts(s: State, a: Iteration, sid: ConnectionId, title: string, lines: string)
    requires title == "  " + Render(sid) + "\n" && lines == ChildLines(s, SortByText(a.ChildrenOf(sid)))
    ensures ServerBlock(s, sid, a) == title + lines
  {
  }

  lemma BusyBlocks(s: State, a: Iteration, port: U16)
    requires Inv(s) && Peers(s) && Walks(s, a) && TcpServer(port) in s.servers && IpcServer(Dec(port)) in s.servers
    requires s.servers[TcpServer(port)].children != {} && s.servers[IpcServer(Dec(port))].children != {}
    ensures !Commute(ServerBlock(s, TcpServer(port), a), ServerBlock(s, IpcServer(Dec(port)), a))
  {
    var tcp, ipc := TcpServer(port), IpcServer(Dec(port));
    var t := BusyHead(s, a, tcp);
    var i := BusyHead(s, a, ipc);
    var title := "  " + Dec(port) + "\n";
    var x, y := ChildLines(s, SortByText(a.ChildrenOf(tcp))), ChildLines(s, SortByText(a.ChildrenOf(ipc)));
    BlockParts(s, a, tcp, title, x);
    BlockParts(s, a, ipc, title, y);
    BusyTexts(s, port, t, i, title, x, y);
  }

  /** No text begins with a TCP connection's line and with an IPC connection's line. */
  lemma OneHead(s: State, t: ConnectionId, i: ConnectionId, port: U16, line: string)
    requires Inv(s) && Peers(s) && t in s.streams && i in s.streams
    requires t.Parent() == Some(TcpServer(port)) == s.streams[t].parent
    requires i.Parent() == Some(IpcServer(Dec(port))) == s.streams[i].parent
    requires Head(Render(t), PeerText(s.streams[t].state.peerInfo)) <= line
    ensures !(Head(Render(i), PeerText(s.streams[i].state.peerInfo)) <= line)
  {
    var p, q := PeerText(s.streams[t].state.peerInfo), PeerText(s.streams[i].state.peerInfo);
    ChildTextHasNoSpace(t, port);
    ChildTextHasNoSpace(i, port);
    PeerTexts(s, t, i);
    if Head(Render(i), q) <= line {
      SamePeer(Render(t), p, Render(i), q, line);
    }
  }

  lemma PeerTexts(s: State, t: ConnectionId, i: ConnectionId)
    requires Peers(s) && t in s.streams && i in s.streams
    requires s.streams[t].parent.Some? && s.streams[t].parent.value.TcpServer?
    requires s.streams[i].parent.Some? && s.streams[i].parent.value.IpcServer?
    ensures var p, q := PeerText(s.streams[t].state.peerInfo), PeerText(s.streams[i].state.peerInfo);
            ' ' !in p && ' ' !in q && ':' in p && ':' !in q
  {
    assert ProperPeer(s.streams[t].parent, s.streams[t].state.peerInfo);
    assert ProperPeer(s.streams[i].parent, s.streams[i].state.peerInfo);
  }

  /** The two blocks can change places exactly if neither server has connections. */
  lemma TieCommutes(s: State, a: Iteration, port: U16)
    requires Inv(s) && Peers(s) && Walks(s, a) && TcpServer(port) in s.servers && IpcServer(Dec(port)) in s.servers
    ensures Commute(ServerBlock(s, TcpServer(port), a), ServerBlock(s, IpcServer(Dec(port)), a)) <==> !BusyTie(s, port)
  {
    var tcp, ipc := TcpServer(port), IpcServer(Dec(port));
    if s.servers[tcp].children != {} && s.servers[ipc].children != {} {
      BusyBlocks(s, a, port);
    } else if s.servers[tcp].children != {} {
      OneIsBusy(s, a, port, tcp, ipc);
    } else if s.servers[ipc].children != {} {
      OneIsBusy(s, a, port, ipc, tcp);
    } else {
      IdleBlock(s, a, tcp);
      IdleBlock(s, a, ipc);
    }
  }

  lemma OneIsBusy(s: State, a: Iteration, port: U16, busy: ConnectionId, idle: ConnectionId)
    requires Inv(s) && Walks(s, a) && busy in s.servers && idle in s.servers
    requires Render(busy) == Dec(port) == Render(idle)
    requires s.servers[busy].children != {} && s.servers[idle].children == {}
    ensures !Commute(ServerBlock(s, busy, a), ServerBlock(s, idle, a))
  {
    var lines := ChildLines(s, SortByText(a.ChildrenOf(busy)));
    var id := BusyHead(s, a, busy);
    IdleBlock(s, a, idle);
    HeadIsIndented(Render(id), PeerText(s.streams[id].state.peerInfo), lines);
    TitleThenIndent(port, lines);
  }

  // The report

  /** Two servers with one text are a port and a path that is its number. */
  lemma TiedServers(a: ConnectionId, b: ConnectionId)
    requires a.IsServer() && b.IsServer() && Render(a) == Render(b) && a != b
    ensures (a.TcpServer? && b == IpcServer(Dec(a.port))) || (b.TcpServer? && a == IpcServer(Dec(b.port)))
  {
    SameKindDiffers(a, b);
  }

  lemma NoBusyTies(s: State, a: Iteration)
    requires Inv(s) && Peers(s) && Walks(s, a) && forall port: U16 :: !BusyTie(s, port)
    ensures TiesCommute(BlockMap(s, a))
  {
    forall c, d | c in s.servers && d in s.servers && Render(c) == Render(d)
      ensures Commute(ServerBlock(s, c, a), ServerBlock(s, d, a))
    {
      TiedPair(s, a, c, d);
    }
  }

  lemma TiedPair(s: State, a: Iteration, c: ConnectionId, d: ConnectionId)
    requires Inv(s) && Peers(s) && Walks(s, a) && forall port: U16 :: !BusyTie(s, port)
    requires c in s.servers && d in s.servers && Render(c) == Render(d)
    ensures Commute(ServerBlock(s, c, a), ServerBlock(s, d, a))
  {
    if c != d {
      assert ServerOk(s, c) && ServerOk(s, d);
      TiedServers(c, d);
      if c.TcpServer? {
        TieCommutes(s, a, c.port);
      } else {
        TieCommutes(s, a, d.port);
      }
    }
  }

  lemma BusyTieShows(s: State, a: Iteration, port: U16)
    requires Inv(s) && Peers(s) && Walks(s, a) && BusyTie(s, port)
    ensures !TiesCommute(BlockMap(s, a))
  {
    var tcp, ipc := TcpServer(port), IpcServer(Dec(port));
    TieCommutes(s, a, port);
    assert At(BlockMap(s, a), tcp) == ServerBlock(s, tcp, a) && At(BlockMap(s, a), ipc) == ServerBlock(s, ipc, a);
    assert Render(tcp) == Render(ipc);
  }

  /**
   * The report is the same for every walk of the hash maps if and only if there is
   * no port whose number is also the path of an IPC server, both being open and one
   * of them having connections.
   */
  lemma StatusOrderExactly(s: State, a: Iteration)
    requires Inv(s) && Peers(s) && Walks(s, a)
    ensures OrderDoesNotShow(s, a) <==> forall port: U16 :: !BusyTie(s, port)
  {
    OrderByBlocks(s, a);
    if forall port: U16 :: !BusyTie(s, port) {
      NoBusyTies(s, a);
    } else {
      var port: U16 :| BusyTie(s, port);
      BusyTieShows(s, a, port);
    }
  }

  /** The same of every state of every run in which accepts come from accept loops. */
  lemma {:induction false} StatusOrderInRun(inputs: seq<Input>, seed: U32, a: Iteration)
    requires seed >= 2 && Run(inputs, seed).Running? && Walks(Run(inputs, seed).state, a)
    requires forall input | input in inputs :: AsAcceptLoopsSend(input)
    ensures OrderDoesNotShow(Run(inputs, seed).state, a)
            <==> forall port: U16 :: !BusyTie(Run(inputs, seed).state, port)
  {
    ReachableInv(inputs, seed);
    ReachablePeers(inputs, seed);
    StatusOrderExactly(Run(inputs, seed).state, a);
  }

  // A run in which the order shows

  function OpenPort(port: U16): Input {
    UserCommand(OpenTcpServer(port), Collision.ANY_HOST)
  }

  /** The IPC server comes second, so at that time there is one server to walk. */
  function OpenPath(port: U16): Input {
    var walk := Iteration([], [TcpServer(port)], map[TcpServer(port) := []]);
    UserCommand(OpenIpcServer(Dec(port)), Oracle(None, map[], walk))
  }

  /** What the accept loop of the TCP server sends for a connection from `host`. */
  function Arrive(port: U16, host: string, remote: U16): (input: Input)
    ensures AcceptMessage(TcpServer(port), TcpSocket(host + ":" + Dec(remote))) == Some(input)
  {
    TokenParser.RemotePortOfAddress(host, remote);
    Accepted(TcpServer(port), AcceptedTcp(port, remote, None), TcpSocket(host + ":" + Dec(remote)))
  }

  lemma FirstServer(port: U16)
    ensures Run([OpenPort(port)], CODE_SEED).Running?
    ensures Run([OpenPort(port)], CODE_SEED).state == OpenServer(EMPTY, TcpServer(port), None)
    ensures Runtime.Feasible([OpenPort(port)])
  {
    assert [] + [OpenPort(port)] == [OpenPort(port)];
    Collision.RunThen([], OpenPort(port));
    Collision.FeasibleThen([], OpenPort(port));
  }

  function TwoServers(port: U16): seq<Input> {
    [OpenPort(port)] + [OpenPath(port)]
  }

  lemma SecondServer(port: U16)
    ensures Run(TwoServers(port), CODE_SEED).Running?
    ensures Run(TwoServers(port), CODE_SEED).state
            == OpenServer(OpenServer(EMPTY, TcpServer(port), None), IpcServer(Dec(port)), Some(Dec(port)))
    ensures Runtime.Feasible(TwoServers(port))
  {
    FirstServer(port);
    Collision.RunThen([OpenPort(port)], OpenPath(port));
    Collision.FeasibleThen([OpenPort(port)], OpenPath(port));
  }

  lemma SecondServerCounts(port: U16, remote: U16)
    ensures Run(TwoServers(port), CODE_SEED).Running?
    ensures var s := Run(TwoServers(port), CODE_SEED).state;
            HasCounted(s, TcpBase(port, remote), 0, CODE_SEED) && IpcServer(Dec(port)) in s.servers
  {
    SecondServer(port);
    ReachableInv(TwoServers(port), CODE_SEED);
  }

  lemma ChildMakesTie(s: State, port: U16, remote: U16)
    requires Shape(s) && IpcServer(Dec(port)) in s.servers && AcceptedTcp(port, remote, None) in s.streams
    ensures BusyTie(s, port)
  {
    assert StreamOk(s, AcceptedTcp(port, remote, None));
  }

  lemma ArrivalEffect(s: State, port: U16, host: string, remote: U16)
    requires Allocate(s, TcpBase(port, remote), CODE_SEED).Ok?
    ensures Step(s, Arrive(port, host, remote), CODE_SEED).Running?
    ensures EffectOf(s, Arrive(port, host, remote), CODE_SEED)
            == AcceptedStream(TcpBase(port, remote), Arrive(port, host, remote).peer)
  {
  }

  lemma ArrivalMakesTie(s: State, port: U16, host: string, remote: U16)
    requires HasCounted(s, TcpBase(port, remote), 0, CODE_SEED) && IpcServer(Dec(port)) in s.servers
    ensures Step(s, Arrive(port, host, remote), CODE_SEED).Running?
    ensures var t := Step(s, Arrive(port, host, remote), CODE_SEED).state;
            BusyTie(t, port) && t.servers.Keys == s.servers.Keys
            && t.streams.Keys == s.streams.Keys + {AcceptedTcp(port, remote, None)}
  {
    var base, input := TcpBase(port, remote), Arrive(port, host, remote);
    Collision.ArrivalId(s, base, 0);
    ArrivalEffect(s, port, host, remote);
    StepKeepsInv(s, input, CODE_SEED);
    StepHasEffect(s, input, CODE_SEED);
    Collision.FirstIsAdded(s, base, input.peer);
    AcceptKeepsServers(s, base, input.peer, CODE_SEED);
    ChildMakesTie(Step(s, input, CODE_SEED).state, port, remote);
  }

  function TieInputs(port: U16, host: string, remote: U16): seq<Input> {
    TwoServers(port) + [Arrive(port, host, remote)]
  }

  lemma TieRuns(port: U16, host: string, remote: U16)
    ensures Run(TieInputs(port, host, remote), CODE_SEED).Running?
    ensures var t := Run(TieInputs(port, host, remote), CODE_SEED).state;
            BusyTie(t, port) && t.servers.Keys == {TcpServer(port), IpcServer(Dec(port))}
            && t.streams.Keys == {AcceptedTcp(port, remote, None)}
    ensures Runtime.Feasible(TieInputs(port, host, remote))
  {
    SecondServer(port);
    SecondServerCounts(port, remote);
    ArrivalMakesTie(Run(TwoServers(port), CODE_SEED).state, port, host, remote);
    Collision.RunThen(TwoServers(port), Arrive(port, host, remote));
    Collision.FeasibleThen(TwoServers(port), Arrive(port, host, remote));
  }

  /** One of the two walks of the maps at the end of that run. */
  function TieWalk(port: U16, remote: U16): Iteration {
    var tcp, ipc, id := TcpServer(port), IpcServer(Dec(port)), AcceptedTcp(port, remote, None);
    Iteration([id], [tcp, ipc], map[tcp := [id], ipc := []])
  }

  lemma TieWalks(s: State, port: U16, remote: U16)
    requires Shape(s) && s.servers.Keys == {TcpServer(port), IpcServer(Dec(port))}
    requires s.streams.Keys == {AcceptedTcp(port, remote, None)}
    ensures Walks(s, TieWalk(port, remote))
  {
    var tcp, ipc, id := TcpServer(port), IpcServer(Dec(port)), AcceptedTcp(port, remote, None);
    assert tcp in s.servers && ipc in s.servers && id in s.streams;
    assert ServerOk(s, tcp) && ServerOk(s, ipc) && StreamOk(s, id);
    assert s.servers[tcp].children == {id} && s.servers[ipc].children == {};
  }

  lemma TieIsProper(port: U16, host: string, remote: U16)
    requires ' ' !in host
    ensures forall input | input in TieInputs(port, host, remote) :: AsAcceptLoopsSend(input)
  {
    assert ' ' !in host + ":" + Dec(remote);
  }

  /**
   * A TCP server, an IPC server at the path that is the port's number, and one TCP
   * connection: two walks of the maps then give two texts of the report.
   */
  lemma TieRun(port: U16, host: string, remote: U16)
    requires ' ' !in host
    ensures Runtime.Feasible(TieInputs(port, host, remote)) && Run(TieInputs(port, host, remote), CODE_SEED).Running?
    ensures var t, a := Run(TieInputs(port, host, remote), CODE_SEED).state, TieWalk(port, remote);
            Walks(t, a) && !OrderDoesNotShow(t, a)
  {
    TieRuns(port, host, remote);
    TieIsProper(port, host, remote);
    ReachableInv(TieInputs(port, host, remote), CODE_SEED);
    TieWalks(Run(TieInputs(port, host, remote), CODE_SEED).state, port, remote);
    StatusOrderInRun(TieInputs(port, host, remote), CODE_SEED, TieWalk(port, remote));
  }
}
