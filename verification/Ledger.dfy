// Conservation over runs: every stream ever inserted is live, was closed in one of
// the known ways or was overwritten; every task is live, aborted once or orphaned.
module Ledger {
  import opened Prelude
  import opened Ids
  import opened Model
  import opened Repl
  import opened Machine
  import opened Effects
  import opened Invariants
  import opened Preservation
  import opened Reachability
  import opened Teardown
  import opened Numbering

  datatype Tally = Tally(inserted: nat, byEvent: nat, byCommand: nat, cascaded: nat, overwritten: nat, servers: nat,
                         serversClosed: nat)
  {
    function Plus(t: Tally): Tally {
      Tally(inserted + t.inserted, byEvent + t.byEvent, byCommand + t.byCommand, cascaded + t.cascaded,
            overwritten + t.overwritten, servers + t.servers, serversClosed + t.serversClosed)
    }
  }

  const NOTHING: Tally := Tally(0, 0, 0, 0, 0, 0, 0)

  /** What an effect adds to the books; a stream may be closed by an event or by a command. */
  function EntryFor(s: State, effect: Effect, byEvent: bool, seed: U32): Tally {
    match effect
    case OpenedServer(_, _) => NOTHING.(servers := 1)
    case OpenedClient(id, _) => NOTHING.(inserted := 1, overwritten := if id in s.streams then 1 else 0)
    case AcceptedStream(base, _) =>
      var reissued := Allocate(s, base, seed).Ok? && Allocate(s, base, seed).value.id in s.streams;
      NOTHING.(inserted := 1, overwritten := if reissued then 1 else 0)
    case ClosedOne(_) => if byEvent then NOTHING.(byEvent := 1) else NOTHING.(byCommand := 1)
    case ClosedGroup(sid) =>
      NOTHING.(serversClosed := 1, cascaded := if sid in s.servers then |s.servers[sid].children| else 0)
    case _ => NOTHING
  }

  /** What one message adds to the books. */
  function Entry(s: State, input: Input, seed: U32): Tally {
    EntryFor(s, EffectOf(s, input, seed), input.Event?, seed)
  }

  function Books(inputs: seq<Input>, seed: U32): Tally {
    if inputs == [] then NOTHING
    else
      var init := inputs[..|inputs| - 1];
      match Run(init, seed)
      case Running(s, _) => Books(init, seed).Plus(Entry(s, inputs[|inputs| - 1], seed))
      case _ => Books(init, seed)
  }

  function ClosedLines(display: seq<Line>): nat {
    if display == [] then 0
    else ClosedLines(display[..|display| - 1]) + (if display[|display| - 1].ClosedLine? then 1 else 0)
  }

  /** The books agree with the registry. */
  predicate Balanced(s: State, books: Tally) {
    books.inserted == |s.streams| + books.byEvent + books.byCommand + books.cascaded + books.overwritten
    && books.servers == |s.servers| + books.serversClosed
    && ClosedLines(s.host.display) == books.byEvent + books.byCommand + books.serversClosed
    && |s.host.tasks| == books.inserted + books.servers
    && |s.host.aborted| == books.byEvent + books.byCommand + books.cascaded + books.serversClosed
  }

  // Sizes

  lemma MapMinus<K, V>(m: map<K, V>, keys: set<K>)
    requires keys <= m.Keys
    ensures |m - keys| == |m| - |keys|
  {
    assert (m - keys).Keys == m.Keys - keys;
    SetMinus(m.Keys, keys);
  }

  lemma SetMinus<K>(all: set<K>, some: set<K>)
    requires some <= all
    ensures |all - some| == |all| - |some|
  {
    assert all == (all - some) + some;
  }

  lemma MapUpdate<K, V>(m: map<K, V>, k: K, v: V)
    ensures |m[k := v]| == |m| + if k in m then 0 else 1
  {
    assert m[k := v].Keys == m.Keys + {k};
    assert k in m ==> m.Keys + {k} == m.Keys;
  }

  lemma SameCoreSameSizes(s: State, t: State)
    requires SameCore(s, t)
    ensures |t.streams| == |s.streams| && |t.servers| == |s.servers|
    ensures |t.host.tasks| == |s.host.tasks| && |t.host.aborted| == |s.host.aborted|
  {
    assert |t.streams| == |t.streams.Keys| == |s.streams.Keys| == |s.streams|;
  }

  lemma OpenStreamSizes(s: State, id: ConnectionId, peer: PeerInfo, parent: Option<ConnectionId>)
    ensures OneMoreStream(s, OpenStream(s, id, peer, parent), id)
  {
    var t := OpenStream(s, id, peer, parent);
    MapUpdate(s.streams, id, t.streams[id]);
    assert |t.servers| == |t.servers.Keys| == |s.servers.Keys| == |s.servers|;
  }

  lemma DropStreamSizes(s: State, id: ConnectionId)
    requires id in s.streams
    ensures var t := DropStream(s, id);
            |t.streams| == |s.streams| - 1 && |t.servers| == |s.servers|
            && t.host.tasks == s.host.tasks && |t.host.aborted| == |s.host.aborted| + 1
  {
    var t := DropStream(s, id);
    MapMinus(s.streams, {id});
    assert |t.servers| == |t.servers.Keys| == |s.servers.Keys| == |s.servers|;
  }

  lemma {:induction false} ReaderCount(s: State, ids: set<ConnectionId>)
    requires Inv(s) && ids <= s.streams.Keys
    ensures |multiset(ReadersAmong(s, ids))| == |ids|
  {
    if ids == {} {
      assert ReadersAmong(s, {}) == {};
    } else {
      var c :| c in ids;
      var rest := ids - {c};
      ReaderCount(s, rest);
      OneMoreGone(s, rest, c);
      assert rest + {c} == ids;
    }
  }

  lemma DropServerMaps(s: State, sid: ConnectionId)
    requires Inv(s) && sid in s.servers
    ensures |s.streams - s.servers[sid].children| == |s.streams| - |s.servers[sid].children|
    ensures |s.servers - {sid}| == |s.servers| - 1
  {
    assert ServerOk(s, sid);
    assert s.servers[sid].children <= s.streams.Keys;
    MapMinus(s.streams, s.servers[sid].children);
    MapMinus(s.servers, {sid});
  }

  lemma DropServerSizes(s: State, sid: ConnectionId)
    requires Inv(s) && sid in s.servers
    ensures var t, children := DropServer(s, sid), s.servers[sid].children;
            |t.streams| == |s.streams| - |children| && |t.servers| == |s.servers| - 1
            && t.host.tasks == s.host.tasks && |t.host.aborted| == |s.host.aborted| + 1 + |children|
  {
    DropServerMaps(s, sid);
    OwnChildren(s, sid);
    ReaderCount(s, s.servers[sid].children);
  }

  /** One more stream, unless its id was live, and one more task. */
  predicate OneMoreStream(s: State, t: State, id: ConnectionId) {
    |t.streams| == |s.streams| + (if id in s.streams then 0 else 1) && |t.servers| == |s.servers|
    && |t.host.tasks| == |s.host.tasks| + 1 && t.host.aborted == s.host.aborted
  }

  lemma AcceptSizes(s: State, base: Base, peer: PeerInfo, seed: U32)
    requires Inv(s) && seed >= 2 && Allocate(s, base, seed).Ok?
    ensures OneMoreStream(s, After(s, AcceptedStream(base, peer), seed), Allocate(s, base, seed).value.id)
  {
    var a := Allocate(s, base, seed).value;
    AllocateSizes(s, base, seed);
    OpenStreamSizes(a.state, a.id, peer, Some(base.Server()));
    AfterAccept(s, base, peer, seed);
  }

  lemma AllocateSizes(s: State, base: Base, seed: U32)
    requires Inv(s) && seed >= 2 && Allocate(s, base, seed).Ok?
    ensures var a := Allocate(s, base, seed).value;
            |a.state.streams| == |s.streams| && |a.state.servers| == |s.servers| && a.state.host == s.host
            && (a.id in a.state.streams <==> a.id in s.streams)
  {
    if base.Key() in s.servers[base.Server()].baseNoSuffix {
      AllocateCollision(s, base, seed);
      CollidedSizes(s, base, seed);
    } else {
      var t := Allocate(s, base, seed).value.state;
      assert |t.servers| == |t.servers.Keys| == |s.servers.Keys| == |s.servers|;
    }
  }

  lemma CollidedSizes(s: State, base: Base, seed: U32)
    requires Inv(s) && base.Server() in s.servers && base.Key() in s.servers[base.Server()].baseNoSuffix
    ensures var t, second := Collided(s, base, seed), base.Id(Some(2));
            |t.streams| == |s.streams| && |t.servers| == |s.servers| && t.host == s.host
            && (second in t.streams <==> second in s.streams)
  {
    OnlyPlainIsLive(s, base);
    var srv, key := s.servers[base.Server()], base.Key();
    RenameSizes(WithTables(s, base.Server(), srv.disambigNext[key := seed], srv.baseNoSuffix - {key}),
                base.Id(None), base.Id(Some(1)));
    assert |Collided(s, base, seed).servers.Keys| == |s.servers.Keys| by {
      CollidedLeavesServers(s, base, seed);
    }
  }

  lemma RenameSizes(s: State, oldId: ConnectionId, newId: ConnectionId)
    requires newId !in s.streams
    ensures |Rename(s, oldId, newId).streams| == |s.streams|
  {
    if oldId in s.streams {
      MapMinus(s.streams, {oldId});
      MapUpdate(s.streams - {oldId}, newId, Rename(s, oldId, newId).streams[newId]);
    }
  }

  // Balance

  lemma OpenServerSizes(s: State, sid: ConnectionId, path: Option<string>)
    requires sid !in s.servers
    ensures var t := OpenServer(s, sid, path);
            |t.streams| == |s.streams| && |t.servers| == |s.servers| + 1
            && |t.host.tasks| == |s.host.tasks| + 1 && t.host.aborted == s.host.aborted
  {
    MapUpdate(s.servers, sid, OpenServer(s, sid, path).servers[sid]);
  }

  predicate SizesMatch(s: State, t: State, entry: Tally) {
    |t.streams| + entry.byEvent + entry.byCommand + entry.cascaded + entry.overwritten == |s.streams| + entry.inserted
    && |t.servers| + entry.serversClosed == |s.servers| + entry.servers
    && |t.host.tasks| == |s.host.tasks| + entry.inserted + entry.servers
    && |t.host.aborted| == |s.host.aborted| + entry.byEvent + entry.byCommand + entry.cascaded + entry.serversClosed
  }

  lemma EffectSizes(s: State, effect: Effect, byEvent: bool, seed: U32)
    requires Inv(s) && seed >= 2 && Possible(s, effect, seed) && !effect.ClosedAll?
    ensures SizesMatch(s, After(s, effect, seed), EntryFor(s, effect, byEvent, seed))
  {
    match effect
    case OpenedServer(sid, path) => OpenServerSizes(s, sid, path);
    case OpenedClient(id, peer) => OpenStreamSizes(s, id, peer, None);
    case AcceptedStream(base, peer) => AcceptSizes(s, base, peer, seed);
    case ClosedOne(id) => DropStreamSizes(s, id);
    case ClosedGroup(sid) => DropServerSizes(s, sid);
    case Relabeled(id, name) => RelabelSizes(s, id, name);
    case Quiet =>
  }

  lemma RelabelSizes(s: State, id: ConnectionId, name: string)
    ensures var t := ApplyLabel(s, id, name).0;
            |t.streams| == |s.streams| && |t.servers| == |s.servers| && t.host == s.host
  {
    var t := ApplyLabel(s, id, name).0;
    assert t.streams.Keys == s.streams.Keys && t.servers.Keys == s.servers.Keys;
    assert |t.streams| == |t.streams.Keys| && |t.servers| == |t.servers.Keys|;
  }

  lemma {:induction false} ClosedLinesAppend(a: seq<Line>, b: seq<Line>)
    ensures ClosedLines(a + b) == ClosedLines(a) + ClosedLines(b)
  {
    if b == [] {
      assert a + b == a;
    } else {
      ClosedLinesAppend(a, b[..|b| - 1]);
      assert (a + b)[..|a + b| - 1] == a + b[..|b| - 1];
    }
  }

  lemma ClosedLinesShow(s: State, line: Line)
    ensures ClosedLines(s.Show(line).host.display)
            == ClosedLines(s.host.display) + if line.ClosedLine? then 1 else 0
  {
    assert s.Show(line).host.display[..|s.host.display|] == s.host.display;
  }

  lemma FailureLineClosesNothing(before: seq<Line>, name: string, error: DomainError)
    ensures ClosedLines(before + [SendFailure(name, error)]) == ClosedLines(before)
  {
    var all := before + [SendFailure(name, error)];
    assert all[..|all| - 1] == before;
  }

  lemma {:induction false} FailureLinesCloseNothing(s: State, order: seq<ConnectionId>,
                                                    writes: map<ConnectionId, WriteOutcome>)
    ensures ClosedLines(FailureLines(s, order, writes)) == 0
  {
    if order != [] {
      var init, last := order[..|order| - 1], order[|order| - 1];
      FailureLinesCloseNothing(s, init, writes);
      match WriteResult(s, last, OutcomeOf(writes, last))
      case Ok(_) => assert FailureLines(s, order, writes) == FailureLines(s, init, writes);
      case Err(e) => FailureLineClosesNothing(FailureLines(s, init, writes), s.DisplayName(last), e);
    }
  }

  /** One CLOSED line for every stream closed by event or command and for every server closed. */
  lemma StepShowsClosed(s: State, input: Input, seed: U32)
    requires Step(s, input, seed).Running?
    ensures var entry := Entry(s, input, seed);
            ClosedLines(Step(s, input, seed).state.host.display)
            == ClosedLines(s.host.display) + entry.byEvent + entry.byCommand + entry.serversClosed
  {
    match input
    case UserCommand(cmd, oracle) => CommandShowsClosed(s, cmd, oracle, seed);
    case Event(event) => EventShowsClosed(s, event, seed);
    case Accepted(parent, child, peer) =>
      AcceptedEntry(s, parent, child, peer, seed);
      AcceptedShowsClosed(s, parent, child, peer, seed);
  }

  lemma EventShowsClosed(s: State, event: NetEvent, seed: U32)
    ensures ClosedLines(HandleEvent(s, event).host.display)
            == ClosedLines(s.host.display) + Entry(s, Event(event), seed).byEvent
    ensures Entry(s, Event(event), seed).byCommand == 0 == Entry(s, Event(event), seed).serversClosed
  {
    match event
    case Received(id, bytes) => ClosedLinesShow(s, ReceivedLine(s.DisplayName(id), bytes));
    case ClosedEvent(id) =>
      if id in s.streams {
        ClosedLinesShow(DropStream(s, id), ClosedLine(s.DisplayName(id)));
      }
    case ErrorEvent(id, message) => ClosedLinesShow(s, Failure(s.DisplayName(id), message));
    case Renamed(_, _) =>
  }

  lemma AllocateShowsNothing(s: State, base: Base, seed: U32)
    requires Allocate(s, base, seed).Ok?
    ensures Allocate(s, base, seed).value.state.host == s.host
  {
  }

  lemma AcceptLinesCloseNothing(a: Allocation, peer: PeerInfo, parent: ConnectionId)
    ensures var open := OpenStream(ShowRename(a.state, a.renamed), a.id, peer, Some(parent));
            ClosedLines(open.Show(AcceptLine(a.id, peer.Text())).host.display) == ClosedLines(a.state.host.display)
  {
    if a.renamed.Some? {
      ClosedLinesShow(a.state, RenamedLine(a.renamed.value.0, a.renamed.value.1));
    }
    ClosedLinesShow(OpenStream(ShowRename(a.state, a.renamed), a.id, peer, Some(parent)),
                    AcceptLine(a.id, peer.Text()));
  }

  lemma AcceptedEntry(s: State, parent: ConnectionId, child: ConnectionId, peer: PeerInfo, seed: U32)
    ensures var entry := Entry(s, Accepted(parent, child, peer), seed);
            entry.byEvent == entry.byCommand == entry.serversClosed == 0
  {
  }

  lemma AcceptedShowsClosed(s: State, parent: ConnectionId, child: ConnectionId, peer: PeerInfo, seed: U32)
    requires HandleAccepted(s, parent, child, peer, seed).Ok?
    ensures ClosedLines(HandleAccepted(s, parent, child, peer, seed).value.host.display) == ClosedLines(s.host.display)
  {
    match BaseFor(parent, child)
    case None => ClosedLinesShow(s, MismatchLine(parent));
    case Some(base) =>
      AllocateShowsNothing(s, base, seed);
      AcceptLinesCloseNothing(Allocate(s, base, seed).value, peer, parent);
  }

  lemma CommandShowsClosed(s: State, cmd: Command, oracle: Oracle, seed: U32)
    ensures var entry := Entry(s, UserCommand(cmd, oracle), seed);
            entry.byEvent == 0
            && ClosedLines(RunCommand(s, cmd, oracle).0.host.display)
               == ClosedLines(s.host.display) + entry.byCommand + entry.serversClosed
  {
    CommandEntry(s, cmd, oracle, seed);
    match cmd
    case Close(token) => CloseShowsClosed(s, token);
    case Send(token, bytes) => SendShowsClosed(s, token, bytes, oracle);
    case Label(token, name) => LabelShowsClosed(s, token, name);
    case Status =>
    case _ => OpenShowsClosed(s, cmd, oracle);
  }

  lemma CommandEntry(s: State, cmd: Command, oracle: Oracle, seed: U32)
    ensures var entry := Entry(s, UserCommand(cmd, oracle), seed);
            entry.byEvent == 0
            && entry.byCommand + entry.serversClosed
               == if cmd.Close? && CloseToken(s, cmd.idToken).1.Ok? then 1 else 0
  {
  }

  lemma LabelShowsClosed(s: State, token: string, name: string)
    ensures LabelToken(s, token, name).0.host == s.host
  {
  }

  lemma OpenShowsClosed(s: State, cmd: Command, oracle: Oracle)
    requires !cmd.Close? && !cmd.Send? && !cmd.Label? && !cmd.Status?
    ensures ClosedLines(RunCommand(s, cmd, oracle).0.host.display) == ClosedLines(s.host.display)
  {
    var t := RunCommand(s, cmd, oracle).0;
    if t.host.display != s.host.display {
      assert t.host.display[..|t.host.display| - 1] == s.host.display;
    }
  }

  lemma CloseShowsClosed(s: State, token: string)
    ensures ClosedLines(CloseToken(s, token).0.host.display)
            == ClosedLines(s.host.display) + if CloseToken(s, token).1.Ok? then 1 else 0
  {
    if Resolve(s, token).Ok? {
      var id := Resolve(s, token).value;
      ClosedLinesShow(DropServer(s, id), ClosedLine(Render(id)));
      ClosedLinesShow(DropStream(s, id), ClosedLine(Render(id)));
    }
  }

  lemma SendShows(s: State, id: ConnectionId, bytes: seq<U8>, order: seq<ConnectionId>,
                  writes: map<ConnectionId, WriteOutcome>)
    ensures ClosedLines(SendBytes(s, id, bytes, order, writes).0.host.display) == ClosedLines(s.host.display)
  {
    var display, lines := SendBytes(s, id, bytes, order, writes).0.host.display, FailureLines(s, order, writes);
    assert display == s.host.display || display == s.host.display + lines;
    FailureLinesCloseNothing(s, order, writes);
    ClosedLinesAppend(s.host.display, lines);
  }

  lemma SendShowsClosed(s: State, token: string, bytes: seq<U8>, oracle: Oracle)
    ensures ClosedLines(SendToken(s, token, bytes, oracle).0.host.display) == ClosedLines(s.host.display)
  {
    if Resolve(s, token).Ok? {
      var id := Resolve(s, token).value;
      SendShows(s, id, bytes, oracle.walk.ChildrenOf(id), oracle.writes);
    }
  }

  lemma SameCoreKeepsMatch(s: State, t: State, u: State, entry: Tally)
    requires SizesMatch(s, t, entry) && SameCore(t, u)
    ensures SizesMatch(s, u, entry)
  {
    SameCoreSameSizes(t, u);
  }

  lemma MatchBalances(s: State, t: State, books: Tally, entry: Tally)
    requires Balanced(s, books) && SizesMatch(s, t, entry)
    requires ClosedLines(t.host.display)
             == ClosedLines(s.host.display) + entry.byEvent + entry.byCommand + entry.serversClosed
    ensures Balanced(t, books.Plus(entry))
  {
  }

  lemma StepMatches(s: State, input: Input, seed: U32)
    requires Inv(s) && seed >= 2 && Step(s, input, seed).Running?
    ensures SizesMatch(s, Step(s, input, seed).state, Entry(s, input, seed))
  {
    EffectIsPossible(s, input, seed);
    EffectSizes(s, EffectOf(s, input, seed), input.Event?, seed);
    StepHasEffect(s, input, seed);
    SameCoreKeepsMatch(s, After(s, EffectOf(s, input, seed), seed), Step(s, input, seed).state, Entry(s, input, seed));
  }

  lemma StepBalances(s: State, input: Input, seed: U32, books: Tally)
    requires Inv(s) && seed >= 2 && Step(s, input, seed).Running? && Balanced(s, books)
    ensures Balanced(Step(s, input, seed).state, books.Plus(Entry(s, input, seed)))
  {
    StepMatches(s, input, seed);
    StepShowsClosed(s, input, seed);
    MatchBalances(s, Step(s, input, seed).state, books, Entry(s, input, seed));
  }

  /** The books balance after every run that has not been shut down. */
  lemma {:induction false} BooksBalance(inputs: seq<Input>, seed: U32)
    requires seed >= 2 && Run(inputs, seed).Running?
    ensures Balanced(Run(inputs, seed).state, Books(inputs, seed))
  {
    if inputs != [] {
      var init := inputs[..|inputs| - 1];
      BooksBalance(init, seed);
      ReachableInv(init, seed);
      StepBalances(Run(init, seed).state, inputs[|inputs| - 1], seed, Books(init, seed));
    }
  }

  lemma FreshOverwritesNothing(s: State, input: Input, seed: U32)
    requires Fresh(s, input, seed)
    ensures Entry(s, input, seed).overwritten == 0
  {
  }

  lemma {:induction false} NoneOverwritten(inputs: seq<Input>, seed: U32)
    requires NoReissue(inputs, seed)
    ensures Books(inputs, seed).overwritten == 0
  {
    if inputs != [] {
      var init := inputs[..|inputs| - 1];
      NoReissueInit(inputs, seed);
      NoneOverwritten(init, seed);
      if Run(init, seed).Running? {
        FreshOverwritesNothing(Run(init, seed).state, inputs[|inputs| - 1], seed);
      }
    }
  }

  /** In a run without reissued ids nothing is overwritten: every task is live or was aborted. */
  lemma {:induction false} NothingOverwritten(inputs: seq<Input>, seed: U32)
    requires seed >= 2 && Run(inputs, seed).Running? && NoReissue(inputs, seed)
    ensures Books(inputs, seed).overwritten == 0
    ensures var s := Run(inputs, seed).state;
            |s.host.tasks| == |s.streams| + |s.servers| + |s.host.aborted|
  {
    BooksBalance(inputs, seed);
    NoneOverwritten(inputs, seed);
  }
}
