// The label table in runs that reissue no live id: every entry belongs to a live
// handle, and what an entry is good for after its handle was renamed.
module LabelTable {
  import opened Prelude
  import opened Ids
  import opened Model
  import opened Machine
  import opened Effects
  import opened Invariants
  import opened Preservation
  import opened Reachability
  import opened Numbering

  predicate Bears(s: State, id: ConnectionId, name: string) {
    s.IsLive(id) && s.LabelOf(id) == Some(name)
  }

  /** Every entry of the table is the label of some live handle. */
  ghost predicate Borne(s: State) {
    forall name | name in s.labels :: exists id :: Bears(s, id, name)
  }

  lemma SameCoreSameBorne(s: State, t: State)
    requires SameCore(s, t)
    ensures Borne(s) <==> Borne(t)
  {
    assert forall id, name :: Bears(s, id, name) <==> Bears(t, id, name);
  }

  predicate Labelled(s: State, id: ConnectionId) {
    id in s.streams && s.streams[id].state.alias.Some?
  }

  lemma OpenStreamKeepsBorne(s: State, id: ConnectionId, peer: PeerInfo, parent: Option<ConnectionId>)
    requires Shape(s) && Borne(s) && !id.IsServer() && !Labelled(s, id)
    ensures Borne(OpenStream(s, id, peer, parent))
  {
    var t := OpenStream(s, id, peer, parent);
    forall name | name in t.labels ensures exists c :: Bears(t, c, name) {
      var c :| Bears(s, c, name);
      assert c in s.servers ==> ServerOk(s, c);
      assert Bears(t, c, name);
    }
  }

  lemma OverwritingLosesBearer(s: State, id: ConnectionId, peer: PeerInfo, parent: Option<ConnectionId>)
    requires Inv(s) && Labelled(s, id)
    ensures !Borne(OpenStream(s, id, peer, parent))
  {
    var t, name := OpenStream(s, id, peer, parent), s.streams[id].state.alias.value;
    assert s.LabelOf(id) == Some(name) && name in t.labels;
    forall c ensures !Bears(t, c, name) {
      if Bears(t, c, name) {
        assert Bears(s, c, name);
        LabelsUnique(s, c, id);
      }
    }
  }

  /** Inserting a stream costs an entry its bearer exactly if it overwrites a labelled one. */
  lemma OpenStreamBorne(s: State, id: ConnectionId, peer: PeerInfo, parent: Option<ConnectionId>)
    requires Inv(s) && Borne(s) && !id.IsServer()
    ensures Borne(OpenStream(s, id, peer, parent)) <==> !Labelled(s, id)
  {
    if Labelled(s, id) {
      OverwritingLosesBearer(s, id, peer, parent);
    } else {
      OpenStreamKeepsBorne(s, id, peer, parent);
    }
  }

  lemma OpenServerKeepsBorne(s: State, sid: ConnectionId, path: Option<string>)
    requires Borne(s) && sid !in s.servers
    ensures Borne(OpenServer(s, sid, path))
  {
    var t := OpenServer(s, sid, path);
    forall name | name in t.labels ensures exists c :: Bears(t, c, name) {
      var c :| Bears(s, c, name);
      assert Bears(t, c, name);
    }
  }

  lemma DropStreamKeepsBorne(s: State, id: ConnectionId)
    requires Shape(s) && Borne(s)
    ensures Borne(DropStream(s, id))
  {
    var t := DropStream(s, id);
    if id in s.streams {
      assert StreamOk(s, id);
      forall name | name in t.labels ensures exists c :: Bears(t, c, name) {
        var c :| Bears(s, c, name);
        assert c != id && Bears(t, c, name);
      }
    }
  }

  lemma DropServerKeepsBorne(s: State, sid: ConnectionId)
    requires Shape(s) && Borne(s) && sid in s.servers
    ensures Borne(DropServer(s, sid))
  {
    var t, srv := DropServer(s, sid), s.servers[sid];
    assert ServerOk(s, sid);
    forall name | name in t.labels ensures exists c :: Bears(t, c, name) {
      var c :| Bears(s, c, name);
      assert c in s.streams ==> c !in srv.children by {
        assert c in s.streams && c in srv.children ==> name in LabelsAmong(s, srv.children);
      }
      assert c in s.streams ==> StreamOk(s, c);
      assert Bears(t, c, name);
    }
  }

  lemma ApplyLabelKeepsBorne(s: State, id: ConnectionId, name: string)
    requires Borne(s)
    ensures Borne(ApplyLabel(s, id, name).0)
  {
    var (t, r) := ApplyLabel(s, id, name);
    if r.Ok? {
      forall other | other in t.labels ensures exists c :: Bears(t, c, other) {
        if other == name {
          assert Bears(t, id, name);
        } else {
          var c :| Bears(s, c, other);
          assert c != id && Bears(t, c, other);
        }
      }
    }
  }

  lemma RenameKeepsBorne(s: State, base: Base)
    requires Shape(s) && Borne(s) && base.Id(Some(1)) !in s.streams
    ensures Borne(Rename(s, base.Id(None), base.Id(Some(1))))
  {
    var oldId, first := base.Id(None), base.Id(Some(1));
    var t := Rename(s, oldId, first);
    if oldId in s.streams {
      forall name | name in t.labels ensures exists c :: Bears(t, c, name) {
        var c :| Bears(s, c, name);
        assert c in s.servers ==> ServerOk(s, c);
        assert Bears(t, if c == oldId then first else c, name);
      }
    }
  }

  lemma WithTablesKeepsBorne(s: State, sid: ConnectionId, next: map<string, U32>, plain: map<string, ConnectionId>)
    requires Borne(s) && sid in s.servers
    ensures Borne(WithTables(s, sid, next, plain))
  {
    var t := WithTables(s, sid, next, plain);
    forall name | name in t.labels ensures exists c :: Bears(t, c, name) {
      var c :| Bears(s, c, name);
      assert Bears(t, c, name);
    }
  }

  lemma AllocateKeepsBorne(s: State, base: Base, seed: U32)
    requires Inv(s) && Borne(s) && Allocate(s, base, seed).Ok?
    ensures Borne(Allocate(s, base, seed).value.state)
  {
    var srv, key := s.servers[base.Server()], base.Key();
    if key in srv.baseNoSuffix {
      AllocateCollision(s, base, seed);
      OnlyPlainIsLive(s, base);
      var next, plain := srv.disambigNext[key := seed], srv.baseNoSuffix - {key};
      WithTablesKeepsBorne(s, base.Server(), next, plain);
      WithTablesKeepsRest(s, base.Server(), WithTables(s, base.Server(), next, plain));
      RenameKeepsBorne(WithTables(s, base.Server(), next, plain), base);
    } else {
      var t := Allocate(s, base, seed).value.state;
      var after := t.servers[base.Server()];
      WithTablesKeepsBorne(s, base.Server(), after.disambigNext, after.baseNoSuffix);
    }
  }

  /** A labelled connection is overwritten: another one is inserted under its id. */
  predicate Overwrites(s: State, effect: Effect, seed: U32) {
    var id := IdOfEffect(s, effect, seed);
    id.Some? && Labelled(s, id.value)
  }

  lemma AcceptOverwrites(s: State, base: Base, peer: PeerInfo, seed: U32)
    requires Allocate(s, base, seed).Ok?
    ensures Overwrites(s, AcceptedStream(base, peer), seed) <==> Labelled(s, Allocate(s, base, seed).value.id)
  {
  }

  lemma AcceptBorne(s: State, base: Base, peer: PeerInfo, seed: U32)
    requires Inv(s) && Borne(s) && seed >= 2 && Allocate(s, base, seed).Ok?
    ensures Borne(After(s, AcceptedStream(base, peer), seed)) <==> !Overwrites(s, AcceptedStream(base, peer), seed)
  {
    var a := Allocate(s, base, seed).value;
    AllocateKeepsBorne(s, base, seed);
    AllocateKeepsInv(s, base, seed);
    AllocateKeepsOwnId(s, base, seed);
    AcceptOverwrites(s, base, peer, seed);
    AfterAccept(s, base, peer, seed);
    assert Borne(OpenStream(a.state, a.id, peer, Some(base.Server()))) <==> !Labelled(a.state, a.id) by {
      OpenStreamBorne(a.state, a.id, peer, Some(base.Server()));
    }
  }

  lemma EffectBorne(s: State, effect: Effect, seed: U32)
    requires Inv(s) && Borne(s) && seed >= 2 && Possible(s, effect, seed)
    ensures Borne(After(s, effect, seed)) <==> !Overwrites(s, effect, seed)
  {
    match effect
    case OpenedServer(sid, path) => OpenServerKeepsBorne(s, sid, path);
    case OpenedClient(id, peer) => OpenStreamBorne(s, id, peer, None);
    case AcceptedStream(base, peer) => AcceptBorne(s, base, peer, seed);
    case ClosedOne(id) => DropStreamKeepsBorne(s, id);
    case ClosedGroup(sid) => DropServerKeepsBorne(s, sid);
    case Relabeled(id, name) => ApplyLabelKeepsBorne(s, id, name);
    case ClosedAll => ShutdownClearsLabels(s);
    case Quiet =>
  }

  /** After a shutdown nothing is left in the table. */
  lemma ShutdownClearsLabels(s: State)
    requires Borne(s)
    ensures Shutdown(s).labels == map[]
  {
    forall name | name in s.labels ensures name in LiveLabels(s) {
      var id :| Bears(s, id, name);
      assert id in s.streams.Keys + s.servers.Keys;
    }
    assert Shutdown(s).labels.Keys == {};
  }

  /** An entry of the table loses its bearer exactly when a labelled stream is overwritten. */
  lemma StepBorne(s: State, input: Input, seed: U32)
    requires Inv(s) && Borne(s) && seed >= 2 && !Step(s, input, seed).Panicked?
    ensures Borne(Step(s, input, seed).state) <==> !Overwrites(s, EffectOf(s, input, seed), seed)
  {
    var after := After(s, EffectOf(s, input, seed), seed);
    EffectIsPossible(s, input, seed);
    EffectBorne(s, EffectOf(s, input, seed), seed);
    StepHasEffect(s, input, seed);
    SameCoreSameBorne(after, Step(s, input, seed).state);
  }

  /** In a run without reissued ids every label in the table names a live handle. */
  lemma {:induction false} ReachableBorne(inputs: seq<Input>, seed: U32)
    requires seed >= 2 && NoReissue(inputs, seed) && !Run(inputs, seed).Panicked?
    ensures Inv(Run(inputs, seed).state) && Borne(Run(inputs, seed).state)
  {
    ReachableInv(inputs, seed);
    if inputs != [] {
      var init := inputs[..|inputs| - 1];
      NoReissueInit(inputs, seed);
      ReachableBorne(init, seed);
      if Run(init, seed).Running? {
        StepBorne(Run(init, seed).state, inputs[|inputs| - 1], seed);
      }
    }
  }

  // Using a label

  /**
   * What is shown as the name of a live handle: its label, which the table has under
   * the handle's own or former id and nobody else bears, or else the text of its id.
   */
  lemma LabelMeaning(s: State, id: ConnectionId, name: string)
    requires Inv(s)
    ensures s.LabelOf(id) == Some(name) ==>
              s.IsLive(id) && s.DisplayName(id) == name && name in s.labels && id.AnchoredAt(s.labels[name])
              && Resolve(s, name) == Ok(s.labels[name])
              && forall other | s.IsLive(other) && s.LabelOf(other) == Some(name) :: other == id
    ensures s.LabelOf(id) == None ==> s.DisplayName(id) == Render(id)
  {
    assert id in s.streams ==> StreamOk(s, id);
    assert id in s.servers ==> ServerOk(s, id);
    forall other | s.LabelOf(id) == Some(name) && s.IsLive(other) && s.LabelOf(other) == Some(name)
      ensures other == id
    {
      LabelsUnique(s, other, id);
    }
  }

  /** What the table gives for `name` is `id`, or the id that `id` was renamed from, which is dead. */
  predicate LeadsTo(s: State, name: string, id: ConnectionId)
    requires name in s.labels
  {
    s.labels[name] == id
    || (id.IsRenamed() && s.labels[name] == id.BaseOf().Id(None) && !s.IsLive(s.labels[name]))
  }

  /** A label leads to the one handle that bears it, or to the dead id it was renamed from. */
  lemma LabelLeadsHome(s: State, name: string)
    requires Inv(s) && Borne(s) && name in s.labels
    ensures Resolve(s, name) == Ok(s.labels[name])
    ensures exists id :: Bears(s, id, name) && LeadsTo(s, name, id) && forall c | Bears(s, c, name) :: c == id
  {
    var id :| Bears(s, id, name);
    forall c | Bears(s, c, name) ensures c == id {
      LabelsUnique(s, c, id);
    }
    if s.labels[name] != id {
      PlainIsDead(s, id);
    }
    assert LeadsTo(s, name, id);
  }

  /** While a base's `#1` is live, its plain id is not. */
  lemma PlainIsDead(s: State, id: ConnectionId)
    requires Inv(s) && s.IsLive(id) && id.IsRenamed()
    ensures !s.IsLive(id.BaseOf().Id(None))
  {
    var plain := id.BaseOf().Id(None);
    assert forall sid | sid in s.servers :: ServerOk(s, sid);
    assert Numbered(s.servers, id);
    assert TableOk(s.servers[id.BaseOf().Server()], id.BaseOf());
    assert plain in s.streams ==> Numbered(s.servers, plain);
  }

  /** A label that leads to a dead id closes nothing, sends nothing and renames nothing. */
  lemma StaleLabelIsInert(s: State, name: string, bytes: seq<U8>, other: string, oracle: Oracle)
    requires name in s.labels && !s.IsLive(s.labels[name]) && !s.labels[name].IsServer()
    ensures CloseToken(s, name) == (s, Err(UnknownId(name)))
    ensures bytes != [] ==> SendToken(s, name, bytes, oracle) == (s, Err(UnknownId(Render(s.labels[name]))))
    ensures LabelToken(s, name, other).0 == s
    ensures LabelToken(s, name, other).1
            == if other in s.labels && s.labels[other] != s.labels[name] then Err(LabelAlreadyInUse(other))
               else Err(UnknownId(Render(s.labels[name])))
  {
  }

  /**
   * In a run without reissued ids: whatever label is in the table, one live handle
   * bears it, and the label either leads to that handle or closes, sends and labels nothing.
   */
  lemma {:induction false} LabelInRun(inputs: seq<Input>, seed: U32, name: string)
    requires seed >= 2 && Run(inputs, seed).Running? && NoReissue(inputs, seed)
    requires name in Run(inputs, seed).state.labels
    ensures var s := Run(inputs, seed).state;
            exists id :: Bears(s, id, name) && LeadsTo(s, name, id) && forall c | Bears(s, c, name) :: c == id
    ensures var s := Run(inputs, seed).state;
            s.IsLive(s.labels[name]) || UselessLabel(s, name)
  {
    ReachableBorne(inputs, seed);
    LabelLeadsHome(Run(inputs, seed).state, name);
    if !Run(inputs, seed).state.IsLive(Run(inputs, seed).state.labels[name]) {
      DeadLabelFails(Run(inputs, seed).state, name);
    }
  }

  /** Close, send and label through `name` answer with an error and change nothing. */
  ghost predicate UselessLabel(s: State, name: string)
    requires name in s.labels
  {
    CloseToken(s, name) == (s, Err(UnknownId(name)))
    && (forall bytes, oracle | bytes != [] ::
          SendToken(s, name, bytes, oracle) == (s, Err(UnknownId(Render(s.labels[name])))))
    && (forall other | other !in s.labels ::
          LabelToken(s, name, other) == (s, Err(UnknownId(Render(s.labels[name])))))
  }

  lemma DeadLabelFails(s: State, name: string)
    requires name in s.labels && !s.IsLive(s.labels[name]) && !s.labels[name].IsServer()
    ensures UselessLabel(s, name)
  {
    forall bytes, other, oracle
      ensures CloseToken(s, name) == (s, Err(UnknownId(name)))
      ensures bytes != [] ==> SendToken(s, name, bytes, oracle) == (s, Err(UnknownId(Render(s.labels[name]))))
      ensures other !in s.labels ==> LabelToken(s, name, other) == (s, Err(UnknownId(Render(s.labels[name]))))
    {
      StaleLabelIsInert(s, name, bytes, other, oracle);
    }
  }

  /** `#1` bears the label, but the table still has the plain id, which is dead. */
  predicate Stranded(s: State, base: Base, name: string) {
    Bears(s, base.Id(Some(1)), name) && name in s.labels
    && s.labels[name] == base.Id(None) && !s.IsLive(base.Id(None))
  }

  /**
   * When a base collides, a label stays with the renamed connection but leads
   * nowhere if and only if it was given before the collision.
   */
  lemma RenameStrandsLabel(s: State, base: Base, peer: PeerInfo, seed: U32, name: string)
    requires Inv(s) && seed >= 2 && base.Server() in s.servers
    requires base.Key() in s.servers[base.Server()].baseNoSuffix
    ensures Stranded(After(s, AcceptedStream(base, peer), seed), base, name) <==> Bears(s, base.Id(None), name)
  {
    AllocateCollision(s, base, seed);
    AfterAccept(s, base, peer, seed);
    if Bears(s, base.Id(None), name) {
      CollisionStrands(s, base, seed, name);
      StrandedStays(Collided(s, base, seed), base, peer, name);
    } else {
      NothingToStrand(s, base, seed, name);
      StrandedWasThere(Collided(s, base, seed), base, peer, name);
    }
  }

  lemma NothingToStrand(s: State, base: Base, seed: U32, name: string)
    requires Inv(s) && base.Server() in s.servers && base.Key() in s.servers[base.Server()].baseNoSuffix
    requires !Bears(s, base.Id(None), name)
    ensures !Bears(Collided(s, base, seed), base.Id(Some(1)), name)
  {
    OnlyPlainIsLive(s, base);
    CollidedLeavesServers(s, base, seed);
    assert base.Id(Some(1)) in s.servers ==> ServerOk(s, base.Id(Some(1)));
  }

  lemma StrandedWasThere(s: State, base: Base, peer: PeerInfo, name: string)
    requires !Bears(s, base.Id(Some(1)), name)
    ensures !Bears(OpenStream(s, base.Id(Some(2)), peer, Some(base.Server())), base.Id(Some(1)), name)
  {
  }

  lemma CollisionStrands(s: State, base: Base, seed: U32, name: string)
    requires Inv(s) && base.Server() in s.servers && Bears(s, base.Id(None), name)
    ensures Stranded(Collided(s, base, seed), base, name)
  {
    var plain := base.Id(None);
    assert plain !in s.servers by {
      assert forall sid | sid in s.servers :: ServerOk(s, sid);
    }
    assert StreamOk(s, plain);
    assert plain.AnchoredAt(s.labels[name]);
  }

  lemma StrandedStays(s: State, base: Base, peer: PeerInfo, name: string)
    requires Stranded(s, base, name) && base.Server() in s.servers
    ensures Stranded(OpenStream(s, base.Id(Some(2)), peer, Some(base.Server())), base, name)
  {
  }

  /** A token that is no label is only ever resolved to something live. */
  lemma {:induction false} FirstLiveIsLive(s: State, ids: seq<ConnectionId>)
    ensures match FirstLive(s, ids)
            case Some(id) => id in ids && s.IsLive(id)
            case None => forall id | id in ids :: !s.IsLive(id)
  {
    if ids != [] {
      FirstLiveIsLive(s, ids[1..]);
    }
  }

  lemma ParsedTokenIsLive(s: State, token: string)
    requires token !in s.labels
    ensures Resolve(s, token).Ok? <==> exists id | id in TokenParser.Candidates(token) :: s.IsLive(id)
    ensures Resolve(s, token).Ok? ==> s.IsLive(Resolve(s, token).value)
  {
    FirstLiveIsLive(s, TokenParser.Candidates(token));
  }
}
