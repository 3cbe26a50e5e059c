// The simple picture of the registry: a set of connections and a set of servers,
// each known by the number of its task, which never changes. There are no ids of
// connections, no child sets, no label table, no numbering and no renaming.
module Flat {
  import opened Prelude
  import opened Ids
  import opened Model
  import opened Machine
  import opened Effects
  import opened Invariants
  import opened Preservation
  import opened Reachability
  import opened Numbering
  import opened Teardown

  datatype Conn = Conn(task: nat, parent: Option<ConnectionId>, peer: Option<PeerInfo>, alias: Option<string>)

  datatype Group = Group(task: nat, sid: ConnectionId, alias: Option<string>)

  datatype FlatState = FlatState(conns: set<Conn>, groups: set<Group>, spawned: nat)

  datatype Action =
    | Stutter
    | OpenGroup(sid: ConnectionId)
    | OpenConn(parent: Option<ConnectionId>, peer: PeerInfo)
    | ReplaceConn(lost: nat, parent: Option<ConnectionId>, peer: PeerInfo)
    | CloseConn(task: nat)
    | CloseGroup(sid: ConnectionId)
    | NameConn(task: nat, name: string)
    | NameGroup(sid: ConnectionId, name: string)
    | CloseAll

  function FlatNext(f: FlatState, action: Action): FlatState {
    match action
    case Stutter => f
    case OpenGroup(sid) => f.(groups := f.groups + {Group(f.spawned, sid, None)}, spawned := f.spawned + 1)
    case OpenConn(parent, peer) =>
      f.(conns := f.conns + {Conn(f.spawned, parent, Some(peer), None)}, spawned := f.spawned + 1)
    case ReplaceConn(lost, parent, peer) =>
      f.(conns := (set c | c in f.conns && c.task != lost) + {Conn(f.spawned, parent, Some(peer), None)},
         spawned := f.spawned + 1)
    case CloseConn(task) => f.(conns := set c | c in f.conns && c.task != task)
    case CloseGroup(sid) =>
      f.(conns := (set c | c in f.conns && c.parent != Some(sid)),
         groups := (set g | g in f.groups && g.sid != sid))
    case NameConn(task, name) =>
      f.(conns := set c | c in f.conns :: if c.task == task then c.(alias := Some(name)) else c)
    case NameGroup(sid, name) =>
      f.(groups := set g | g in f.groups :: if g.sid == sid then g.(alias := Some(name)) else g)
    case CloseAll => f.(conns := {}, groups := {})
  }

  /** `name` is borne by nobody but, perhaps, the connection or server that is to get it. */
  predicate FreeFor(f: FlatState, task: Option<nat>, sid: Option<ConnectionId>, name: string) {
    (forall c | c in f.conns && c.alias == Some(name) :: task == Some(c.task))
    && (forall g | g in f.groups && g.alias == Some(name) :: sid == Some(g.sid))
  }

  predicate Allowed(f: FlatState, action: Action) {
    match action
    case Stutter => true
    case OpenGroup(sid) => forall g | g in f.groups :: g.sid != sid
    case OpenConn(parent, _) => parent.Some? ==> exists g | g in f.groups :: g.sid == parent.value
    case ReplaceConn(lost, parent, _) =>
      (exists c | c in f.conns :: c.task == lost && c.parent == parent)
      && (parent.Some? ==> exists g | g in f.groups :: g.sid == parent.value)
    case CloseConn(task) => exists c | c in f.conns :: c.task == task
    case CloseGroup(sid) => exists g | g in f.groups :: g.sid == sid
    case NameConn(task, name) => (exists c | c in f.conns :: c.task == task) && FreeFor(f, Some(task), None, name)
    case NameGroup(sid, name) => (exists g | g in f.groups :: g.sid == sid) && FreeFor(f, None, Some(sid), name)
    case CloseAll => true
  }

  // The picture of a state and of a step

  function ConnOf(h: StreamHandle): Conn {
    Conn(h.readTask, h.parent, h.state.peerInfo, h.state.alias)
  }

  function GroupOf(sid: ConnectionId, srv: ServerHandle): Group {
    Group(srv.acceptTask, sid, srv.state.alias)
  }

  function FlatOf(s: State): FlatState {
    FlatState((set id | id in s.streams :: ConnOf(s.streams[id])),
              (set sid | sid in s.servers :: GroupOf(sid, s.servers[sid])),
              |s.host.tasks|)
  }

  /** A connection is added, or comes in the place of the one that is live under its id. */
  function Insertion(s: State, id: ConnectionId, parent: Option<ConnectionId>, peer: PeerInfo): Action {
    if id in s.streams then ReplaceConn(s.streams[id].readTask, parent, peer) else OpenConn(parent, peer)
  }

  function ActionFor(s: State, effect: Effect, seed: U32): Action {
    match effect
    case Quiet => Stutter
    case OpenedServer(sid, _) => OpenGroup(sid)
    case OpenedClient(id, peer) => Insertion(s, id, None, peer)
    case AcceptedStream(base, peer) =>
      (match Allocate(s, base, seed)
       case Ok(a) => Insertion(s, a.id, Some(base.Server()), peer)
       case Err(_) => Stutter)
    case ClosedOne(id) => if id in s.streams then CloseConn(s.streams[id].readTask) else Stutter
    case ClosedGroup(sid) => CloseGroup(sid)
    case Relabeled(id, name) =>
      if id in s.streams then NameConn(s.streams[id].readTask, name) else NameGroup(id, name)
    case ClosedAll => CloseAll
  }

  lemma SameCoreSameFlat(s: State, t: State)
    requires SameCore(s, t)
    ensures FlatOf(s) == FlatOf(t)
  {
    assert forall id | id in s.streams :: ConnOf(t.streams[id]) == ConnOf(s.streams[id]);
  }

  // One lemma for each effect

  lemma OpenStreamFlat(s: State, id: ConnectionId, peer: PeerInfo, parent: Option<ConnectionId>)
    requires DistinctReaders(s)
    ensures FlatOf(OpenStream(s, id, peer, parent)) == FlatNext(FlatOf(s), Insertion(s, id, parent, peer))
  {
    var t := OpenStream(s, id, peer, parent);
    var f, g := FlatOf(s), FlatOf(t);
    var next := FlatNext(f, Insertion(s, id, parent, peer));
    forall c | c in next.conns ensures c in g.conns {
      if c != ConnOf(t.streams[id]) {
        var c' :| c' in s.streams && ConnOf(s.streams[c']) == c;
        assert t.streams[c'] == s.streams[c'];
      }
    }
    forall c | c in g.conns ensures c in next.conns {
      var c' :| c' in t.streams && ConnOf(t.streams[c']) == c;
      if c' != id {
        assert ConnOf(s.streams[c']) in f.conns;
      }
    }
    assert g.conns == next.conns;
    SameGroups(s, t);
  }

  lemma SameGroups(s: State, t: State)
    requires t.servers.Keys == s.servers.Keys
    requires forall sid | sid in s.servers :: GroupOf(sid, t.servers[sid]) == GroupOf(sid, s.servers[sid])
    ensures FlatOf(t).groups == FlatOf(s).groups
  {
  }

  /** A retroactive renaming is not seen at all. */
  lemma RenameIsStutter(s: State, oldId: ConnectionId, newId: ConnectionId)
    requires newId !in s.streams || oldId !in s.streams
    ensures FlatOf(Rename(s, oldId, newId)) == FlatOf(s)
  {
    if oldId in s.streams {
      var t := Rename(s, oldId, newId);
      assert ConnOf(t.streams[newId]) == ConnOf(s.streams[oldId]);
      forall c | c in FlatOf(s).conns ensures c in FlatOf(t).conns {
        var id :| id in s.streams && ConnOf(s.streams[id]) == c;
        assert id != oldId ==> t.streams[id] == s.streams[id];
      }
      SameGroups(s, t);
    }
  }

  /** The allocator's table changes and renaming, taken apart. */
  lemma AllocateFlat(s: State, base: Base, seed: U32)
    requires Inv(s) && Allocate(s, base, seed).Ok?
    ensures FlatOf(Allocate(s, base, seed).value.state) == FlatOf(s)
  {
    var srv, key := s.servers[base.Server()], base.Key();
    if key in srv.baseNoSuffix {
      AllocateCollision(s, base, seed);
      OnlyPlainIsLive(s, base);
      CollidedFlat(s, base, seed);
    } else {
      var t := Allocate(s, base, seed).value.state;
      assert t == WithTables(s, base.Server(), t.servers[base.Server()].disambigNext,
                             t.servers[base.Server()].baseNoSuffix);
      WithTablesFlat(s, base.Server(), t.servers[base.Server()].disambigNext, t.servers[base.Server()].baseNoSuffix);
    }
  }

  lemma WithTablesFlat(s: State, sid: ConnectionId, next: map<string, U32>, plain: map<string, ConnectionId>)
    requires sid in s.servers
    ensures FlatOf(WithTables(s, sid, next, plain)) == FlatOf(s)
  {
    SameGroups(s, WithTables(s, sid, next, plain));
  }

  lemma CollidedFlat(s: State, base: Base, seed: U32)
    requires base.Server() in s.servers && base.Id(Some(1)) !in s.streams
    ensures FlatOf(Collided(s, base, seed)) == FlatOf(s)
  {
    var srv, key := s.servers[base.Server()], base.Key();
    WithTablesFlat(s, base.Server(), srv.disambigNext[key := seed], srv.baseNoSuffix - {key});
    RenameIsStutter(WithTables(s, base.Server(), srv.disambigNext[key := seed], srv.baseNoSuffix - {key}),
                    base.Id(None), base.Id(Some(1)));
  }

  predicate DistinctReaders(s: State) {
    forall a, b | a in s.streams && b in s.streams && s.streams[a].readTask == s.streams[b].readTask :: a == b
  }

  lemma ReadersAreDistinct(s: State)
    requires Inv(s)
    ensures DistinctReaders(s)
  {
    forall a, b | a in s.streams && b in s.streams && s.streams[a].readTask == s.streams[b].readTask
      ensures a == b
    {
      ReadersUnique(s, a, b);
    }
  }

  lemma DropStreamFlat(s: State, id: ConnectionId)
    requires DistinctReaders(s) && id in s.streams
    ensures FlatOf(DropStream(s, id)) == FlatNext(FlatOf(s), CloseConn(s.streams[id].readTask))
  {
    var t, f := DropStream(s, id), FlatOf(s);
    var task := s.streams[id].readTask;
    var kept := set c | c in f.conns && c.task != task;
    forall c | c in kept ensures c in FlatOf(t).conns {
      var c' :| c' in s.streams && ConnOf(s.streams[c']) == c;
      assert c' in t.streams;
    }
    assert FlatOf(t).conns == kept;
    SameGroups(s, t);
  }

  lemma DropServerFlat(s: State, sid: ConnectionId)
    requires sid in s.servers
    requires s.servers[sid].children == set id | id in s.streams && s.streams[id].parent == Some(sid)
    ensures FlatOf(DropServer(s, sid)) == FlatNext(FlatOf(s), CloseGroup(sid))
  {
    var t, f := DropServer(s, sid), FlatOf(s);
    var kept := set c | c in f.conns && c.parent != Some(sid);
    forall c | c in kept ensures c in FlatOf(t).conns {
      var c' :| c' in s.streams && ConnOf(s.streams[c']) == c;
      assert c' in t.streams;
    }
    assert FlatOf(t).conns == kept;
    var groups := set g | g in f.groups && g.sid != sid;
    forall g | g in groups ensures g in FlatOf(t).groups {
      assert g.sid in t.servers && GroupOf(g.sid, t.servers[g.sid]) == g;
    }
    assert FlatOf(t).groups == groups;
  }

  lemma LabelStreamFlat(s: State, id: ConnectionId, name: string)
    requires DistinctReaders(s) && id in s.streams
    ensures FlatOf(SetLabel(s, id, name)) == FlatNext(FlatOf(s), NameConn(s.streams[id].readTask, name))
  {
    var t, f, task := SetLabel(s, id, name), FlatOf(s), s.streams[id].readTask;
    var renamed := set c | c in f.conns :: if c.task == task then c.(alias := Some(name)) else c;
    forall c | c in renamed ensures c in FlatOf(t).conns {
      var c0 :| c0 in f.conns && c == if c0.task == task then c0.(alias := Some(name)) else c0;
      var c' :| c' in s.streams && ConnOf(s.streams[c']) == c0;
      assert ConnOf(t.streams[c']) == c;
    }
    forall c | c in FlatOf(t).conns ensures c in renamed {
      var c' :| c' in t.streams && ConnOf(t.streams[c']) == c;
      assert ConnOf(s.streams[c']) in f.conns;
    }
    assert FlatOf(t).conns == renamed;
  }

  lemma LabelServerFlat(s: State, sid: ConnectionId, name: string)
    requires sid in s.servers && sid !in s.streams
    ensures FlatOf(SetLabel(s, sid, name)) == FlatNext(FlatOf(s), NameGroup(sid, name))
  {
    var t, f := SetLabel(s, sid, name), FlatOf(s);
    var renamed := set g | g in f.groups :: if g.sid == sid then g.(alias := Some(name)) else g;
    forall g | g in renamed ensures g in FlatOf(t).groups {
      var g0 :| g0 in f.groups && g == if g0.sid == sid then g0.(alias := Some(name)) else g0;
      assert GroupOf(g0.sid, t.servers[g0.sid]) == g;
    }
    forall g | g in FlatOf(t).groups ensures g in renamed {
      assert GroupOf(g.sid, s.servers[g.sid]) in f.groups;
    }
  }

  /** A label that the table lets through is nobody else's. */
  lemma LabelIsFree(s: State, id: ConnectionId, name: string)
    requires Inv(s) && ApplyLabel(s, id, name).1.Ok?
    ensures id in s.streams ==> FreeFor(FlatOf(s), Some(s.streams[id].readTask), None, name)
    ensures id !in s.streams ==> FreeFor(FlatOf(s), None, Some(id), name)
  {
    LabelHasOneBearer(s, id, name);
    BearersInFlat(s, id, name);
  }

  lemma LabelHasOneBearer(s: State, id: ConnectionId, name: string)
    requires Inv(s) && ApplyLabel(s, id, name).1.Ok?
    ensures forall c | s.IsLive(c) && s.LabelOf(c) == Some(name) :: c == id
  {
    forall c | s.IsLive(c) && s.LabelOf(c) == Some(name) ensures c == id {
      AnchorUnique(s, c, id, id);
    }
  }

  lemma BearersInFlat(s: State, id: ConnectionId, name: string)
    requires Shape(s) && forall c | s.IsLive(c) && s.LabelOf(c) == Some(name) :: c == id
    ensures forall c | c in FlatOf(s).conns && c.alias == Some(name) ::
              id in s.streams && c.task == s.streams[id].readTask
    ensures forall g | g in FlatOf(s).groups && g.alias == Some(name) :: id !in s.streams && g.sid == id
  {
    forall c | c in FlatOf(s).conns && c.alias == Some(name)
      ensures id in s.streams && c.task == s.streams[id].readTask
    {
      var c' :| c' in s.streams && ConnOf(s.streams[c']) == c;
      assert s.LabelOf(c') == Some(name);
    }
    forall g | g in FlatOf(s).groups && g.alias == Some(name) ensures id !in s.streams && g.sid == id {
      assert ServerOk(s, g.sid);
      assert g.sid in s.streams ==> StreamOk(s, g.sid);
      assert s.LabelOf(g.sid) == Some(name);
    }
  }

  // The refinement

  lemma EffectRefines(s: State, effect: Effect, seed: U32)
    requires Inv(s) && seed >= 2 && Possible(s, effect, seed)
    ensures FlatOf(After(s, effect, seed)) == FlatNext(FlatOf(s), ActionFor(s, effect, seed))
  {
    ReadersAreDistinct(s);
    match effect
    case OpenedClient(id, peer) => OpenStreamFlat(s, id, peer, None);
    case AcceptedStream(base, peer) => AcceptRefines(s, base, peer, seed);
    case ClosedOne(id) => DropStreamFlat(s, id);
    case ClosedGroup(sid) =>
      OwnChildren(s, sid);
      DropServerFlat(s, sid);
    case Relabeled(id, name) => RelabelRefines(s, id, name, seed);
    case OpenedServer(sid, path) => OpenServerFlat(s, sid, path);
    case Quiet =>
    case ClosedAll =>
  }

  lemma OpenServerFlat(s: State, sid: ConnectionId, path: Option<string>)
    requires sid !in s.servers
    ensures FlatOf(OpenServer(s, sid, path)) == FlatNext(FlatOf(s), OpenGroup(sid))
  {
    var t, f := OpenServer(s, sid, path), FlatOf(s);
    forall g | g in f.groups ensures g in FlatOf(t).groups {
      assert t.servers[g.sid] == s.servers[g.sid];
    }
    assert GroupOf(sid, t.servers[sid]) == Group(f.spawned, sid, None);
    assert FlatOf(t).groups == f.groups + {Group(f.spawned, sid, None)};
    assert FlatOf(t).conns == f.conns;
  }

  lemma RelabelRefines(s: State, id: ConnectionId, name: string, seed: U32)
    requires Inv(s) && ApplyLabel(s, id, name).1.Ok?
    ensures FlatOf(ApplyLabel(s, id, name).0) == FlatNext(FlatOf(s), ActionFor(s, Relabeled(id, name), seed))
  {
    assert FlatOf(ApplyLabel(s, id, name).0) == FlatOf(SetLabel(s, id, name));
    if id in s.streams {
      ReadersAreDistinct(s);
      LabelStreamFlat(s, id, name);
    } else {
      LabelServerFlat(s, id, name);
    }
  }

  lemma AcceptRefines(s: State, base: Base, peer: PeerInfo, seed: U32)
    requires Inv(s) && seed >= 2 && Allocate(s, base, seed).Ok?
    ensures FlatOf(After(s, AcceptedStream(base, peer), seed))
            == FlatNext(FlatOf(s), Insertion(s, Allocate(s, base, seed).value.id, Some(base.Server()), peer))
  {
    var a := Allocate(s, base, seed).value;
    AllocateFlat(s, base, seed);
    AllocateKeepsInv(s, base, seed);
    AllocateKeepsOwnId(s, base, seed);
    AfterAccept(s, base, peer, seed);
    ReadersAreDistinct(a.state);
    OpenStreamFlat(a.state, a.id, peer, Some(base.Server()));
  }

  lemma InsertionIsAllowed(s: State, id: ConnectionId, parent: Option<ConnectionId>, peer: PeerInfo)
    requires Inv(s) && parent == id.Parent() && (parent.Some? ==> parent.value in s.servers)
    ensures Allowed(FlatOf(s), Insertion(s, id, parent, peer))
  {
    var f := FlatOf(s);
    if parent.Some? {
      assert GroupOf(parent.value, s.servers[parent.value]) in f.groups;
    }
    if id in s.streams {
      assert StreamOk(s, id);
      assert ConnOf(s.streams[id]) in f.conns;
    }
  }

  lemma EffectIsAllowed(s: State, effect: Effect, seed: U32)
    requires Inv(s) && seed >= 2 && Possible(s, effect, seed)
    ensures Allowed(FlatOf(s), ActionFor(s, effect, seed))
  {
    var f := FlatOf(s);
    match effect
    case OpenedClient(id, peer) => InsertionIsAllowed(s, id, None, peer);
    case AcceptedStream(base, peer) =>
      AllocateKeepsInv(s, base, seed);
      InsertionIsAllowed(s, Allocate(s, base, seed).value.id, Some(base.Server()), peer);
    case ClosedOne(id) => assert ConnOf(s.streams[id]) in f.conns;
    case ClosedGroup(sid) => assert GroupOf(sid, s.servers[sid]) in f.groups;
    case Relabeled(id, name) =>
      LabelIsFree(s, id, name);
      if id in s.streams {
        assert ConnOf(s.streams[id]) in f.conns;
      } else {
        assert GroupOf(id, s.servers[id]) in f.groups;
      }
    case _ =>
  }

  /**
   * Every step is one allowed step of the simple picture, and it replaces a
   * connection exactly if it reissues a live id.
   */
  lemma StepRefines(s: State, input: Input, seed: U32)
    requires Inv(s) && seed >= 2 && !Step(s, input, seed).Panicked?
    ensures var action := ActionFor(s, EffectOf(s, input, seed), seed);
            Allowed(FlatOf(s), action)
            && FlatOf(Step(s, input, seed).state) == FlatNext(FlatOf(s), action)
            && (action.ReplaceConn? <==> !Fresh(s, input, seed))
  {
    EffectIsPossible(s, input, seed);
    EffectIsAllowed(s, EffectOf(s, input, seed), seed);
    EffectRefines(s, EffectOf(s, input, seed), seed);
    StepHasEffect(s, input, seed);
    SameCoreSameFlat(After(s, EffectOf(s, input, seed), seed), Step(s, input, seed).state);
  }

  // Whole runs

  /** The actions of a run, one for each message the task takes. */
  function Actions(inputs: seq<Input>, seed: U32): seq<Action> {
    if inputs == [] then []
    else
      var init := inputs[..|inputs| - 1];
      match Run(init, seed)
      case Running(s, _) => Actions(init, seed) + [ActionFor(s, EffectOf(s, inputs[|inputs| - 1], seed), seed)]
      case _ => Actions(init, seed)
  }

  const FLAT_EMPTY: FlatState := FlatState({}, {}, 0)

  function FlatRun(actions: seq<Action>): FlatState {
    if actions == [] then FLAT_EMPTY
    else FlatNext(FlatRun(actions[..|actions| - 1]), actions[|actions| - 1])
  }

  predicate AllAllowed(actions: seq<Action>) {
    actions == []
    || (AllAllowed(actions[..|actions| - 1])
        && Allowed(FlatRun(actions[..|actions| - 1]), actions[|actions| - 1]))
  }

  /** Every run is, seen simply, a run of the flat machine. */
  lemma {:induction false} RunRefines(inputs: seq<Input>, seed: U32)
    requires seed >= 2 && !Run(inputs, seed).Panicked?
    ensures AllAllowed(Actions(inputs, seed))
    ensures FlatOf(Run(inputs, seed).state) == FlatRun(Actions(inputs, seed))
  {
    if inputs != [] {
      var init, last := inputs[..|inputs| - 1], inputs[|inputs| - 1];
      RunRefines(init, seed);
      if Run(init, seed).Running? {
        var s := Run(init, seed).state;
        ReachableInv(init, seed);
        StepRefines(s, last, seed);
        var actions := Actions(inputs, seed);
        assert actions[..|actions| - 1] == Actions(init, seed);
      }
    }
  }

  /** Without reissued ids nothing is ever replaced: connections come by opening and go by closing. */
  lemma {:induction false} NothingReplaced(inputs: seq<Input>, seed: U32)
    requires seed >= 2 && !Run(inputs, seed).Panicked? && NoReissue(inputs, seed)
    ensures forall action | action in Actions(inputs, seed) :: !action.ReplaceConn?
  {
    if inputs != [] {
      var init, last := inputs[..|inputs| - 1], inputs[|inputs| - 1];
      NoReissueInit(inputs, seed);
      NothingReplaced(init, seed);
      if Run(init, seed).Running? {
        ReachableInv(init, seed);
        StepRefines(Run(init, seed).state, last, seed);
      }
    }
  }

  // What the simple picture keeps

  /** Tasks tell connections apart, labels form a partial injection, parents are there. */
  ghost predicate FlatInv(f: FlatState) {
    (forall c, d | c in f.conns && d in f.conns && c.task == d.task :: c == d)
    && (forall g, h | g in f.groups && h in f.groups && g.sid == h.sid :: g == h)
    && (forall c | c in f.conns :: c.task < f.spawned)
    && (forall c | c in f.conns && c.parent.Some? :: exists g | g in f.groups :: g.sid == c.parent.value)
    && (forall c, d | c in f.conns && d in f.conns && c.alias.Some? && c.alias == d.alias :: c == d)
    && (forall g, h | g in f.groups && h in f.groups && g.alias.Some? && g.alias == h.alias :: g == h)
    && (forall c, g | c in f.conns && g in f.groups && c.alias.Some? :: c.alias != g.alias)
  }

  lemma OpenGroupKeeps(f: FlatState, sid: ConnectionId)
    requires FlatInv(f) && Allowed(f, OpenGroup(sid))
    ensures FlatInv(FlatNext(f, OpenGroup(sid)))
  {
    assert forall g | g in f.groups :: g in FlatNext(f, OpenGroup(sid)).groups;
  }

  lemma CloseGroupKeeps(f: FlatState, sid: ConnectionId)
    requires FlatInv(f)
    ensures FlatInv(FlatNext(f, CloseGroup(sid)))
  {
    var f' := FlatNext(f, CloseGroup(sid));
    forall c | c in f'.conns && c.parent.Some? ensures exists g | g in f'.groups :: g.sid == c.parent.value {
      var g :| g in f.groups && g.sid == c.parent.value;
      assert g in f'.groups;
    }
  }

  lemma NameConnKeeps(f: FlatState, task: nat, name: string)
    requires FlatInv(f) && Allowed(f, NameConn(task, name))
    ensures FlatInv(FlatNext(f, NameConn(task, name)))
  {
  }

  lemma NameGroupKeeps(f: FlatState, sid: ConnectionId, name: string)
    requires FlatInv(f) && Allowed(f, NameGroup(sid, name))
    ensures FlatInv(FlatNext(f, NameGroup(sid, name)))
  {
    var f' := FlatNext(f, NameGroup(sid, name));
    forall c | c in f'.conns && c.parent.Some? ensures exists g | g in f'.groups :: g.sid == c.parent.value {
      var g :| g in f.groups && g.sid == c.parent.value;
      assert (if g.sid == sid then g.(alias := Some(name)) else g) in f'.groups;
    }
  }

  lemma ReplaceConnKeeps(f: FlatState, lost: nat, parent: Option<ConnectionId>, peer: PeerInfo)
    requires FlatInv(f) && Allowed(f, ReplaceConn(lost, parent, peer))
    ensures FlatInv(FlatNext(f, ReplaceConn(lost, parent, peer)))
  {
  }

  lemma FlatNextKeepsInv(f: FlatState, action: Action)
    requires FlatInv(f) && Allowed(f, action)
    ensures FlatInv(FlatNext(f, action))
  {
    match action
    case OpenGroup(sid) => OpenGroupKeeps(f, sid);
    case ReplaceConn(lost, parent, peer) => ReplaceConnKeeps(f, lost, parent, peer);
    case CloseGroup(sid) => CloseGroupKeeps(f, sid);
    case NameConn(task, name) => NameConnKeeps(f, task, name);
    case NameGroup(sid, name) => NameGroupKeeps(f, sid, name);
    case _ =>
  }

  lemma {:induction false} FlatRunKeepsInv(actions: seq<Action>)
    requires AllAllowed(actions)
    ensures FlatInv(FlatRun(actions))
  {
    if actions != [] {
      FlatRunKeepsInv(actions[..|actions| - 1]);
      FlatNextKeepsInv(FlatRun(actions[..|actions| - 1]), actions[|actions| - 1]);
    }
  }
}
