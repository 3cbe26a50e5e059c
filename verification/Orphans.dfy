// What becomes of every task that was ever spawned and of every socket file: which
// steps lose a task, which runs lose none, and what a shutdown leaves behind.
module Orphans {
  import opened Prelude
  import opened Ids
  import opened Model
  import opened Machine
  import opened Effects
  import opened Invariants
  import opened Preservation
  import opened Reachability
  import opened Numbering
  import opened LabelTable
  import opened Guarantees

  /** The task was spawned, belongs to no live handle and was not aborted: nobody will ever abort it. */
  predicate IsLost(s: State, task: nat) {
    task < |s.host.tasks| && task !in s.host.aborted && !LiveTask(s, task)
  }

  /** The reader that loses its handle by an effect: that of the stream which is overwritten. */
  function Displaced(s: State, effect: Effect, seed: U32): set<nat> {
    var id := IdOfEffect(s, effect, seed);
    if id.Some? && id.value in s.streams then {s.streams[id.value].readTask} else {}
  }

  /** From `s` to `t` just the tasks in `more` were lost. */
  ghost predicate LosesJust(s: State, t: State, more: set<nat>) {
    forall task: nat :: IsLost(t, task) <==> IsLost(s, task) || task in more
  }

  // One lemma for each effect

  lemma SameTasksLoseNothing(s: State, t: State)
    requires t.host.tasks == s.host.tasks && t.host.aborted == s.host.aborted
    requires AcceptTasks(t) == AcceptTasks(s)
    requires ReadersAmong(t, t.streams.Keys) == ReadersAmong(s, s.streams.Keys)
    ensures LosesJust(s, t, {})
  {
  }

  lemma SameAcceptTasks(s: State, t: State)
    requires t.servers.Keys == s.servers.Keys
    requires forall sid | sid in s.servers :: t.servers[sid].acceptTask == s.servers[sid].acceptTask
    ensures AcceptTasks(t) == AcceptTasks(s)
  {
  }

  lemma SameReaders(s: State, t: State)
    requires t.streams.Keys == s.streams.Keys
    requires forall id | id in s.streams :: t.streams[id].readTask == s.streams[id].readTask
    ensures ReadersAmong(t, t.streams.Keys) == ReadersAmong(s, s.streams.Keys)
  {
  }

  lemma SameCoreLosesNothing(s: State, t: State)
    requires SameCore(s, t)
    ensures LosesJust(s, t, {})
  {
    SameAcceptTasks(s, t);
    SameReaders(s, t);
    SameTasksLoseNothing(s, t);
  }

  lemma RelabelLosesNothing(s: State, id: ConnectionId, name: string)
    ensures LosesJust(s, ApplyLabel(s, id, name).0, {})
  {
    var t := ApplyLabel(s, id, name).0;
    ApplyLabelChangesLabels(s, id, name);
    SameAcceptTasks(s, t);
    SameReaders(s, t);
    SameTasksLoseNothing(s, t);
  }

  lemma OpenServerLosesNothing(s: State, sid: ConnectionId, path: Option<string>)
    requires sid !in s.servers
    ensures LosesJust(s, OpenServer(s, sid, path), {})
  {
    var t := OpenServer(s, sid, path);
    assert AcceptTasks(t) == AcceptTasks(s) + {|s.host.tasks|} by {
      assert t.servers[sid].acceptTask == |s.host.tasks|;
      assert forall other | other in s.servers :: t.servers[other] == s.servers[other];
    }
    assert ReadersAmong(t, t.streams.Keys) == ReadersAmong(s, s.streams.Keys);
  }

  function ReaderAt(s: State, id: ConnectionId): set<nat> {
    if id in s.streams then {s.streams[id].readTask} else {}
  }

  lemma ReadersAfterOpen(s: State, id: ConnectionId, peer: PeerInfo, parent: Option<ConnectionId>)
    requires Inv(s)
    ensures var t := OpenStream(s, id, peer, parent);
            ReadersAmong(t, t.streams.Keys)
            == (ReadersAmong(s, s.streams.Keys) - ReaderAt(s, id)) + {|s.host.tasks|}
  {
    var t := OpenStream(s, id, peer, parent);
    forall other | other in s.streams && other != id
      ensures t.streams[other] == s.streams[other] && s.streams[other].readTask !in ReaderAt(s, id)
    {
      if id in s.streams && s.streams[other].readTask == s.streams[id].readTask {
        ReadersUnique(s, other, id);
      }
    }
    assert t.streams[id].readTask == |s.host.tasks|;
  }

  lemma OpenStreamLoses(s: State, id: ConnectionId, peer: PeerInfo, parent: Option<ConnectionId>)
    requires Inv(s)
    ensures LosesJust(s, OpenStream(s, id, peer, parent), ReaderAt(s, id))
  {
    var t := OpenStream(s, id, peer, parent);
    ReadersAfterOpen(s, id, peer, parent);
    OpenStreamKeepsServers(s, id, peer, parent);
    SameAcceptTasks(s, t);
    if id in s.streams {
      assert ReaderOk(s.host, id, s.streams[id].readTask);
      ReaderAcceptsNothing(s, id);
    }
    BelowSpawned(s);
  }

  lemma ReaderAcceptsNothing(s: State, id: ConnectionId)
    requires Inv(s) && id in s.streams
    ensures s.streams[id].readTask !in AcceptTasks(s)
  {
    assert ReaderOk(s.host, id, s.streams[id].readTask);
    forall sid | sid in s.servers ensures s.servers[sid].acceptTask != s.streams[id].readTask {
      assert AcceptorOk(s.host, sid, s.servers[sid].acceptTask);
    }
  }

  /** The next number belongs to nobody yet. */
  lemma BelowSpawned(s: State)
    requires Inv(s)
    ensures !LiveTask(s, |s.host.tasks|) && |s.host.tasks| !in s.host.aborted
  {
    forall id | id in s.streams ensures s.streams[id].readTask < |s.host.tasks| {
      assert ReaderOk(s.host, id, s.streams[id].readTask);
    }
    forall sid | sid in s.servers ensures s.servers[sid].acceptTask < |s.host.tasks| {
      assert AcceptorOk(s.host, sid, s.servers[sid].acceptTask);
    }
  }

  lemma RenameKeepsReaders(s: State, oldId: ConnectionId, newId: ConnectionId)
    requires newId !in s.streams
    ensures var t := Rename(s, oldId, newId);
            ReadersAmong(t, t.streams.Keys) == ReadersAmong(s, s.streams.Keys)
  {
    if oldId in s.streams {
      var t := Rename(s, oldId, newId);
      assert t.streams[newId].readTask == s.streams[oldId].readTask;
      assert forall c | c in t.streams && c != newId :: c in s.streams && t.streams[c] == s.streams[c];
      assert forall c | c in s.streams && c != oldId :: c in t.streams && t.streams[c] == s.streams[c];
    }
  }

  lemma AllocateKeepsReaders(s: State, base: Base, seed: U32)
    requires Inv(s) && Allocate(s, base, seed).Ok?
    ensures var t := Allocate(s, base, seed).value.state;
            ReadersAmong(t, t.streams.Keys) == ReadersAmong(s, s.streams.Keys)
  {
    var srv, key := s.servers[base.Server()], base.Key();
    if key in srv.baseNoSuffix {
      AllocateCollision(s, base, seed);
      OnlyPlainIsLive(s, base);
      RenameKeepsReaders(WithTables(s, base.Server(), srv.disambigNext[key := seed], srv.baseNoSuffix - {key}),
                         base.Id(None), base.Id(Some(1)));
    }
  }

  lemma AllocateLosesNothing(s: State, base: Base, seed: U32)
    requires Inv(s) && Allocate(s, base, seed).Ok?
    ensures LosesJust(s, Allocate(s, base, seed).value.state, {})
  {
    var t := Allocate(s, base, seed).value.state;
    AllocateKeepsServers(s, base, seed);
    AllocateKeepsReaders(s, base, seed);
    SameAcceptTasks(s, t);
    SameTasksLoseNothing(s, t);
  }

  lemma AcceptLoses(s: State, base: Base, peer: PeerInfo, seed: U32)
    requires Inv(s) && seed >= 2 && Allocate(s, base, seed).Ok?
    ensures LosesJust(s, After(s, AcceptedStream(base, peer), seed), ReaderAt(s, Allocate(s, base, seed).value.id))
  {
    var a := Allocate(s, base, seed).value;
    AllocateLosesNothing(s, base, seed);
    AllocateKeepsInv(s, base, seed);
    AllocateKeepsOwnId(s, base, seed);
    OpenStreamLoses(a.state, a.id, peer, Some(base.Server()));
    AfterAccept(s, base, peer, seed);
  }

  lemma DropStreamLosesNothing(s: State, id: ConnectionId)
    requires Inv(s) && id in s.streams
    ensures LosesJust(s, DropStream(s, id), {})
  {
    ReadersAfterDropStream(s, id);
    SameAcceptTasks(s, DropStream(s, id));
  }

  lemma ReadersAfterDropStream(s: State, id: ConnectionId)
    requires Inv(s) && id in s.streams
    ensures var t := DropStream(s, id);
            ReadersAmong(t, t.streams.Keys) == ReadersAmong(s, s.streams.Keys) - {s.streams[id].readTask}
  {
    var t := DropStream(s, id);
    forall other | other in s.streams && other != id
      ensures t.streams[other] == s.streams[other] && s.streams[other].readTask != s.streams[id].readTask
    {
      if s.streams[other].readTask == s.streams[id].readTask {
        ReadersUnique(s, other, id);
      }
    }
  }

  lemma AcceptorsAfterDrop(s: State, sid: ConnectionId)
    requires Inv(s) && sid in s.servers
    ensures AcceptTasks(DropServer(s, sid)) == AcceptTasks(s) - {s.servers[sid].acceptTask}
  {
    var t := DropServer(s, sid);
    forall other | other in s.servers && other != sid
      ensures other in t.servers && t.servers[other] == s.servers[other]
              && s.servers[other].acceptTask != s.servers[sid].acceptTask
    {
      assert AcceptorOk(s.host, other, s.servers[other].acceptTask);
      assert AcceptorOk(s.host, sid, s.servers[sid].acceptTask);
    }
  }

  lemma ReadersAfterDrop(s: State, sid: ConnectionId)
    requires Inv(s) && sid in s.servers
    ensures var t := DropServer(s, sid);
            ReadersAmong(t, t.streams.Keys)
            == ReadersAmong(s, s.streams.Keys) - ReadersAmong(s, s.servers[sid].children)
  {
    var t, children := DropServer(s, sid), s.servers[sid].children;
    forall id | id in s.streams && id !in children
      ensures id in t.streams && t.streams[id] == s.streams[id] && s.streams[id].readTask !in ReadersAmong(s, children)
    {
      if s.streams[id].readTask in ReadersAmong(s, children) {
        ChildrensReaders(s, sid, s.streams[id].readTask);
      }
    }
  }

  lemma DropServerLosesNothing(s: State, sid: ConnectionId)
    requires Inv(s) && sid in s.servers
    ensures LosesJust(s, DropServer(s, sid), {})
  {
    AcceptorsAfterDrop(s, sid);
    ReadersAfterDrop(s, sid);
    assert ServerOk(s, sid);
  }

  lemma ShutdownLosesNothing(s: State)
    ensures LosesJust(s, Shutdown(s), {})
  {
  }

  lemma EffectLoses(s: State, effect: Effect, seed: U32)
    requires Inv(s) && seed >= 2 && Possible(s, effect, seed)
    ensures LosesJust(s, After(s, effect, seed), Displaced(s, effect, seed))
  {
    match effect
    case OpenedServer(sid, path) => OpenServerLosesNothing(s, sid, path);
    case OpenedClient(id, peer) => OpenStreamLoses(s, id, peer, None);
    case AcceptedStream(base, peer) => AcceptLoses(s, base, peer, seed);
    case ClosedOne(id) => DropStreamLosesNothing(s, id);
    case ClosedGroup(sid) => DropServerLosesNothing(s, sid);
    case Relabeled(id, name) => RelabelLosesNothing(s, id, name);
    case ClosedAll => ShutdownLosesNothing(s);
    case Quiet =>
  }

  /** A step loses just the reader of the stream that it overwrites, if it does, and no other task. */
  lemma StepLoses(s: State, input: Input, seed: U32)
    requires Inv(s) && seed >= 2 && !Step(s, input, seed).Panicked?
    ensures LosesJust(s, Step(s, input, seed).state, Displaced(s, EffectOf(s, input, seed), seed))
    ensures Displaced(s, EffectOf(s, input, seed), seed) == {} <==> Fresh(s, input, seed)
  {
    EffectIsPossible(s, input, seed);
    EffectLoses(s, EffectOf(s, input, seed), seed);
    StepHasEffect(s, input, seed);
    SameCoreLosesNothing(After(s, EffectOf(s, input, seed), seed), Step(s, input, seed).state);
  }

  // Whole runs

  ghost predicate NoneLost(s: State) {
    forall task: nat :: !IsLost(s, task)
  }

  lemma NoReissueSnoc(inputs: seq<Input>, seed: U32)
    requires inputs != []
    ensures var init := inputs[..|inputs| - 1];
            NoReissue(inputs, seed)
            <==> NoReissue(init, seed)
                 && (Run(init, seed).Running? ==> Fresh(Run(init, seed).state, inputs[|inputs| - 1], seed))
  {
    var init := inputs[..|inputs| - 1];
    if NoReissue(inputs, seed) {
      NoReissueInit(inputs, seed);
    }
    assert forall k | 0 <= k < |init| :: init[..k] == inputs[..k];
  }

  lemma StepLosesNone(s: State, input: Input, seed: U32)
    requires Inv(s) && seed >= 2 && !Step(s, input, seed).Panicked?
    ensures NoneLost(Step(s, input, seed).state) <==> NoneLost(s) && Fresh(s, input, seed)
  {
    StepLoses(s, input, seed);
    var t := Step(s, input, seed).state;
    if NoneLost(t) {
      forall task: nat ensures !IsLost(s, task) && task !in Displaced(s, EffectOf(s, input, seed), seed) {
        assert !IsLost(t, task);
      }
    }
  }

  /** A run loses no task if and only if it reissues no live id. */
  lemma {:induction false} RunLosesNone(inputs: seq<Input>, seed: U32)
    requires seed >= 2 && !Run(inputs, seed).Panicked?
    ensures NoneLost(Run(inputs, seed).state) <==> NoReissue(inputs, seed)
  {
    if inputs == [] {
      assert NoneLost(EMPTY);
    } else {
      var init := inputs[..|inputs| - 1];
      NoReissueSnoc(inputs, seed);
      RunLosesNone(init, seed);
      if Run(init, seed).Running? {
        ReachableInv(init, seed);
        StepLosesNone(Run(init, seed).state, inputs[|inputs| - 1], seed);
      }
    }
  }

  /** In a run without reissued ids every task is held by a live handle or was aborted, and never both. */
  lemma {:induction false} EveryTask(inputs: seq<Input>, seed: U32, task: nat)
    requires seed >= 2 && !Run(inputs, seed).Panicked? && NoReissue(inputs, seed)
    requires task < |Run(inputs, seed).state.host.tasks|
    ensures var s := Run(inputs, seed).state;
            s.host.aborted[task] == if LiveTask(s, task) then 0 else 1
  {
    var s := Run(inputs, seed).state;
    ReachableInv(inputs, seed);
    RunLosesNone(inputs, seed);
    assert !IsLost(s, task);
    HeldIsNotAborted(s, task);
  }

  lemma HeldIsNotAborted(s: State, task: nat)
    requires Inv(s)
    ensures LiveTask(s, task) ==> task !in s.host.aborted
    ensures s.host.aborted[task] <= 1
  {
    if task in AcceptTasks(s) {
      var sid :| sid in s.servers && s.servers[sid].acceptTask == task;
      assert AcceptorOk(s.host, sid, task);
    }
    if task in ReadersAmong(s, s.streams.Keys) {
      var id :| id in s.streams && s.streams[id].readTask == task;
      assert ReaderOk(s.host, id, task);
    }
  }

  // Socket files

  function FileCount(s: State, path: string): nat {
    if IpcServer(path) in s.servers then 1 else 0
  }

  /** How often the run opened an IPC server at `path`. */
  function FilesOpened(inputs: seq<Input>, seed: U32, path: string): nat {
    if inputs == [] then 0
    else
      var init := inputs[..|inputs| - 1];
      match Run(init, seed)
      case Running(s, _) => FilesOpened(init, seed, path) + OpensFile(s, inputs[|inputs| - 1], seed, path)
      case _ => FilesOpened(init, seed, path)
  }

  function OpensFile(s: State, input: Input, seed: U32, path: string): nat {
    var effect := EffectOf(s, input, seed);
    if effect.OpenedServer? && effect.sid == IpcServer(path) then 1 else 0
  }

  lemma DropServerFiles(s: State, sid: ConnectionId, path: string)
    requires Shape(s) && sid in s.servers
    ensures var t := DropServer(s, sid);
            t.host.unlinked[path] + FileCount(t, path) == s.host.unlinked[path] + FileCount(s, path)
  {
    assert ServerOk(s, sid);
  }

  lemma ShutdownFiles(s: State, path: string)
    requires Shape(s)
    ensures Shutdown(s).host.unlinked[path] == s.host.unlinked[path] + FileCount(s, path)
  {
    FileAtShutdown(s, path);
  }

  lemma AcceptFiles(s: State, base: Base, peer: PeerInfo, seed: U32, path: string)
    requires Inv(s) && Allocate(s, base, seed).Ok?
    ensures var t := After(s, AcceptedStream(base, peer), seed);
            t.host.unlinked == s.host.unlinked && FileCount(t, path) == FileCount(s, path)
  {
    AllocateKeepsServers(s, base, seed);
    AcceptKeepsServers(s, base, peer, seed);
    AfterAccept(s, base, peer, seed);
  }

  lemma EffectFiles(s: State, effect: Effect, seed: U32, path: string)
    requires Inv(s) && Possible(s, effect, seed)
    ensures var t := After(s, effect, seed);
            t.host.unlinked[path] + FileCount(t, path)
            == s.host.unlinked[path] + FileCount(s, path)
               + if effect.OpenedServer? && effect.sid == IpcServer(path) then 1 else 0
  {
    match effect
    case AcceptedStream(base, peer) => AcceptFiles(s, base, peer, seed, path);
    case ClosedGroup(sid) => DropServerFiles(s, sid, path);
    case ClosedAll => ShutdownFiles(s, path);
    case Relabeled(id, name) => ApplyLabelChangesLabels(s, id, name);
    case _ =>
  }

  /** The file at a path was removed as often as a server was opened there, but for one that is live. */
  lemma {:induction false} FilesInRun(inputs: seq<Input>, seed: U32, path: string)
    requires seed >= 2 && !Run(inputs, seed).Panicked?
    ensures var s := Run(inputs, seed).state;
            s.host.unlinked[path] + FileCount(s, path) == FilesOpened(inputs, seed, path)
  {
    if inputs != [] {
      var init, last := inputs[..|inputs| - 1], inputs[|inputs| - 1];
      FilesInRun(init, seed, path);
      if Run(init, seed).Running? {
        var s := Run(init, seed).state;
        ReachableInv(init, seed);
        EffectIsPossible(s, last, seed);
        EffectFiles(s, EffectOf(s, last, seed), seed, path);
        StepHasEffect(s, last, seed);
      }
    }
  }

  // The end of a run

  lemma StopClearsLabels(s: State, input: Input, seed: U32)
    requires Borne(s) && Step(s, input, seed).Stopped?
    ensures Step(s, input, seed).state.labels == map[]
  {
    ShutdownClearsLabels(s);
  }

  lemma StopEmpties(s: State, input: Input, seed: U32)
    requires Step(s, input, seed).Stopped?
    ensures Step(s, input, seed).state.streams == map[] && Step(s, input, seed).state.servers == map[]
  {
  }

  lemma {:induction false} StoppedIsEmpty(inputs: seq<Input>, seed: U32)
    requires Run(inputs, seed).Stopped?
    ensures Run(inputs, seed).state.streams == map[] && Run(inputs, seed).state.servers == map[]
  {
    var init := inputs[..|inputs| - 1];
    if Run(init, seed).Stopped? {
      StoppedIsEmpty(init, seed);
    } else {
      StopEmpties(Run(init, seed).state, inputs[|inputs| - 1], seed);
    }
  }

  lemma {:induction false} StoppedHasNoLabels(inputs: seq<Input>, seed: U32)
    requires seed >= 2 && Run(inputs, seed).Stopped? && NoReissue(inputs, seed)
    ensures Run(inputs, seed).state.labels == map[]
  {
    var init := inputs[..|inputs| - 1];
    NoReissueInit(inputs, seed);
    if Run(init, seed).Stopped? {
      StoppedHasNoLabels(init, seed);
    } else {
      ReachableBorne(init, seed);
      StopClearsLabels(Run(init, seed).state, inputs[|inputs| - 1], seed);
    }
  }

  lemma EmptyHoldsNothing(s: State, task: nat)
    requires s.streams == map[] && s.servers == map[]
    ensures !LiveTask(s, task)
  {
  }

  /** Every task that was ever spawned was aborted just once. */
  ghost predicate AllAborted(s: State) {
    forall task: nat | task < |s.host.tasks| :: s.host.aborted[task] == 1
  }

  /**
   * A run that was shut down ends with nothing live and every socket file removed as
   * often as it was made. Every task was aborted just once if and only if no id was
   * reissued, and then no label is left either.
   */
  lemma {:induction false} RunEndsEmpty(inputs: seq<Input>, seed: U32)
    requires seed >= 2 && Run(inputs, seed).Stopped?
    ensures var s := Run(inputs, seed).state;
            s.streams == map[] && s.servers == map[] && (NoReissue(inputs, seed) ==> s.labels == map[])
            && (forall path :: s.host.unlinked[path] == FilesOpened(inputs, seed, path))
    ensures AllAborted(Run(inputs, seed).state) <==> NoReissue(inputs, seed)
  {
    StoppedIsEmpty(inputs, seed);
    if NoReissue(inputs, seed) {
      StoppedHasNoLabels(inputs, seed);
    }
    forall path ensures Run(inputs, seed).state.host.unlinked[path] == FilesOpened(inputs, seed, path) {
      FilesInRun(inputs, seed, path);
    }
    RunLosesNone(inputs, seed);
    ReachableInv(inputs, seed);
    AbortedIfNoneLost(Run(inputs, seed).state);
  }

  lemma AbortedIfNoneLost(s: State)
    requires Inv(s) && s.streams == map[] && s.servers == map[]
    ensures AllAborted(s) <==> NoneLost(s)
  {
    forall task: nat | task < |s.host.tasks| ensures s.host.aborted[task] == 1 <==> !IsLost(s, task) {
      EmptyHoldsNothing(s, task);
      HeldIsNotAborted(s, task);
    }
  }
}
