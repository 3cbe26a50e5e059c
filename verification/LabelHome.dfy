// When labels lead home: exactly which steps break the tie between a label and the
// connection that bears it, in a step and over whole runs.
module LabelHome {
  import opened Prelude
  import opened Ids
  import opened Model
  import opened Machine
  import opened Effects
  import opened Invariants
  import opened Preservation
  import opened Reachability
  import opened Numbering
  import opened LabelTable

  /** Every label in the table leads to the handle that bears it. */
  ghost predicate Home(s: State) {
    forall name | name in s.labels :: Bears(s, s.labels[name], name)
  }

  lemma HomeIsBorne(s: State)
    requires Home(s)
    ensures Borne(s)
  {
    forall name | name in s.labels ensures exists id :: Bears(s, id, name) {
      assert Bears(s, s.labels[name], name);
    }
  }

  // Two ways to break it

  /** An accept that renames a labelled connection. */
  predicate Strands(s: State, effect: Effect) {
    effect.AcceptedStream?
    && var base := effect.base;
    base.Server() in s.servers && base.Key() in s.servers[base.Server()].baseNoSuffix
    && Labelled(s, base.Id(None))
  }

  // One lemma for each effect

  lemma SameCoreSameHome(s: State, t: State)
    requires SameCore(s, t)
    ensures Home(s) <==> Home(t)
  {
    assert forall id, name :: Bears(s, id, name) <==> Bears(t, id, name);
  }

  lemma OpenServerKeepsHome(s: State, sid: ConnectionId, path: Option<string>)
    requires Home(s) && sid !in s.servers
    ensures Home(OpenServer(s, sid, path))
  {
    var t := OpenServer(s, sid, path);
    forall name | name in t.labels ensures Bears(t, t.labels[name], name) {
      assert Bears(s, s.labels[name], name);
    }
  }

  /** Inserting a stream, also over a live one, takes away the bearer of that one's label and no other. */
  lemma OpenStreamHome(s: State, id: ConnectionId, peer: PeerInfo, parent: Option<ConnectionId>)
    requires Shape(s) && !id.IsServer()
    requires Labels(s) && !id.IsRenamed()
    ensures Home(OpenStream(s, id, peer, parent)) <==> Home(s) && !Labelled(s, id)
  {
    var t := OpenStream(s, id, peer, parent);
    assert id !in s.servers by {
      assert id in s.servers ==> ServerOk(s, id);
    }
    assert forall c, name | c != id :: Bears(t, c, name) <==> Bears(s, c, name);
    assert forall name :: !Bears(t, id, name);
    if Labelled(s, id) {
      var name := s.streams[id].state.alias.value;
      assert s.LabelOf(id) == Some(name) && s.labels[name] == id;
      assert name in t.labels && !Bears(t, t.labels[name], name);
    } else {
      assert forall name :: !Bears(s, id, name);
    }
  }

  lemma DropStreamKeepsHome(s: State, id: ConnectionId)
    requires Shape(s) && Home(s)
    ensures Home(DropStream(s, id))
  {
    var t := DropStream(s, id);
    if id in s.streams {
      assert StreamOk(s, id);
      forall name | name in t.labels ensures Bears(t, t.labels[name], name) {
        assert Bears(s, s.labels[name], name);
      }
    }
  }

  lemma DropServerKeepsHome(s: State, sid: ConnectionId)
    requires Shape(s) && Home(s) && sid in s.servers
    ensures Home(DropServer(s, sid))
  {
    var t, srv := DropServer(s, sid), s.servers[sid];
    assert ServerOk(s, sid);
    forall name | name in t.labels ensures Bears(t, t.labels[name], name) {
      var c := s.labels[name];
      assert Bears(s, c, name);
      assert c in s.streams && c in srv.children ==> name in LabelsAmong(s, srv.children);
      assert c in s.streams ==> StreamOk(s, c);
    }
  }

  lemma ApplyLabelKeepsHome(s: State, id: ConnectionId, name: string)
    requires Home(s)
    ensures Home(ApplyLabel(s, id, name).0)
  {
    var (t, r) := ApplyLabel(s, id, name);
    if r.Ok? {
      forall other | other in t.labels ensures Bears(t, t.labels[other], other) {
        if other != name {
          assert Bears(s, s.labels[other], other);
          assert s.labels[other] != id;
        }
      }
    }
  }

  lemma WithTablesSameHome(s: State, sid: ConnectionId, next: map<string, U32>, plain: map<string, ConnectionId>)
    requires sid in s.servers
    ensures Home(WithTables(s, sid, next, plain)) <==> Home(s)
  {
    assert forall id, name :: Bears(WithTables(s, sid, next, plain), id, name) <==> Bears(s, id, name);
  }

  /** A renaming breaks the tie exactly if the renamed connection has a label. */
  lemma RenameHome(s: State, base: Base)
    requires Shape(s) && Labels(s) && Home(s) && base.Id(Some(1)) !in s.streams
    ensures Home(Rename(s, base.Id(None), base.Id(Some(1))))
            <==> !Labelled(s, base.Id(None))
  {
    var plain, first := base.Id(None), base.Id(Some(1));
    var t := Rename(s, plain, first);
    if plain in s.streams {
      assert plain !in s.servers by {
        assert plain in s.servers ==> ServerOk(s, plain);
      }
      assert forall c, name | c != plain && c != first :: Bears(t, c, name) <==> Bears(s, c, name);
      if s.streams[plain].state.alias.Some? {
        var name := s.streams[plain].state.alias.value;
        assert s.LabelOf(plain) == Some(name) && plain.AnchoredAt(s.labels[name]);
        assert name in t.labels && !Bears(t, t.labels[name], name);
      } else {
        forall name | name in t.labels ensures Bears(t, t.labels[name], name) {
          assert Bears(s, s.labels[name], name);
          assert s.labels[name] in s.servers ==> ServerOk(s, s.labels[name]);
        }
      }
    }
  }

  lemma CollidedHome(s: State, base: Base, seed: U32)
    requires Inv(s) && Home(s) && base.Server() in s.servers
    requires base.Key() in s.servers[base.Server()].baseNoSuffix
    ensures Home(Collided(s, base, seed))
            <==> !Labelled(s, base.Id(None))
  {
    var srv, key := s.servers[base.Server()], base.Key();
    var u := WithTables(s, base.Server(), srv.disambigNext[key := seed], srv.baseNoSuffix - {key});
    OnlyPlainIsLive(s, base);
    WithTablesSameHome(s, base.Server(), srv.disambigNext[key := seed], srv.baseNoSuffix - {key});
    WithTablesKeepsRest(s, base.Server(), u);
    RenameHome(u, base);
  }

  lemma AllocateHome(s: State, base: Base, peer: PeerInfo, seed: U32)
    requires Inv(s) && Home(s) && Allocate(s, base, seed).Ok?
    ensures Home(Allocate(s, base, seed).value.state) <==> !Strands(s, AcceptedStream(base, peer))
  {
    var t := Allocate(s, base, seed).value.state;
    if base.Key() in s.servers[base.Server()].baseNoSuffix {
      AllocateCollision(s, base, seed);
      CollidedHome(s, base, seed);
    } else {
      var srv := t.servers[base.Server()];
      WithTablesSameHome(s, base.Server(), srv.disambigNext, srv.baseNoSuffix);
    }
  }

  lemma AcceptHome(s: State, base: Base, peer: PeerInfo, seed: U32)
    requires Inv(s) && Home(s) && seed >= 2 && Allocate(s, base, seed).Ok?
    ensures Home(After(s, AcceptedStream(base, peer), seed))
            <==> !Strands(s, AcceptedStream(base, peer)) && !Overwrites(s, AcceptedStream(base, peer), seed)
  {
    var a := Allocate(s, base, seed).value;
    AllocateHome(s, base, peer, seed);
    AllocateKeepsInv(s, base, seed);
    AllocateKeepsOwnId(s, base, seed);
    AcceptOverwrites(s, base, peer, seed);
    AfterAccept(s, base, peer, seed);
    OpenedHome(a.state, a.id, peer, Some(base.Server()), After(s, AcceptedStream(base, peer), seed),
               Strands(s, AcceptedStream(base, peer)), Overwrites(s, AcceptedStream(base, peer), seed));
  }

  lemma OpenedHome(s: State, id: ConnectionId, peer: PeerInfo, parent: Option<ConnectionId>, t: State,
                   strands: bool, overwrites: bool)
    requires Inv(s) && id.IsAccepted() && !id.IsRenamed() && t == OpenStream(s, id, peer, parent)
    requires (Home(s) <==> !strands) && (Labelled(s, id) <==> overwrites)
    ensures Home(t) <==> !strands && !overwrites
  {
    OpenStreamHome(s, id, peer, parent);
  }

  lemma EffectHome(s: State, effect: Effect, seed: U32)
    requires Inv(s) && Home(s) && seed >= 2 && Possible(s, effect, seed)
    ensures Home(After(s, effect, seed)) <==> !Strands(s, effect) && !Overwrites(s, effect, seed)
  {
    match effect
    case OpenedServer(sid, path) => OpenServerKeepsHome(s, sid, path);
    case OpenedClient(id, peer) => OpenStreamHome(s, id, peer, None);
    case AcceptedStream(base, peer) => AcceptHome(s, base, peer, seed);
    case ClosedOne(id) => DropStreamKeepsHome(s, id);
    case ClosedGroup(sid) => DropServerKeepsHome(s, sid);
    case Relabeled(id, name) => ApplyLabelKeepsHome(s, id, name);
    case Quiet =>
    case ClosedAll =>
      HomeIsBorne(s);
      ShutdownClearsLabels(s);
  }

  /** The message renames a labelled connection or overwrites one. */
  predicate Breaks(s: State, input: Input, seed: U32) {
    Strands(s, EffectOf(s, input, seed)) || Overwrites(s, EffectOf(s, input, seed), seed)
  }

  lemma FreshBreaks(s: State, input: Input, seed: U32)
    ensures Fresh(s, input, seed) ==> (Breaks(s, input, seed) <==> Strands(s, EffectOf(s, input, seed)))
  {
  }

  /** While labels lead home, a step ends that exactly if it renames or overwrites a labelled connection. */
  lemma StepHome(s: State, input: Input, seed: U32)
    requires Inv(s) && Home(s) && seed >= 2 && !Step(s, input, seed).Panicked?
    ensures Home(Step(s, input, seed).state) <==> !Breaks(s, input, seed)
    ensures Fresh(s, input, seed) ==> (Breaks(s, input, seed) <==> Strands(s, EffectOf(s, input, seed)))
  {
    FreshBreaks(s, input, seed);
    EffectIsPossible(s, input, seed);
    EffectHome(s, EffectOf(s, input, seed), seed);
    StepHasEffect(s, input, seed);
    SameCoreSameHome(After(s, EffectOf(s, input, seed), seed), Step(s, input, seed).state);
  }

  // Whole runs

  /** Labels lead home before every message of the run and after the last. */
  ghost predicate AlwaysHome(inputs: seq<Input>, seed: U32) {
    forall k | 0 <= k <= |inputs| && !Run(inputs[..k], seed).Panicked? :: Home(Run(inputs[..k], seed).state)
  }

  ghost predicate NothingBreaks(inputs: seq<Input>, seed: U32) {
    forall k | 0 <= k < |inputs| && Run(inputs[..k], seed).Running? ::
      !Breaks(Run(inputs[..k], seed).state, inputs[k], seed)
  }

  lemma HomeSoFar(inputs: seq<Input>, k: nat, seed: U32)
    requires seed >= 2 && NothingBreaks(inputs, seed) && k <= |inputs| && !Run(inputs[..k], seed).Panicked?
    ensures Home(Run(inputs[..k], seed).state)
  {
    if k > 0 {
      RunOneMore(inputs, k - 1, seed);
      HomeSoFar(inputs, k - 1, seed);
      if Run(inputs[..k - 1], seed).Running? {
        ReachableInv(inputs[..k - 1], seed);
        StepHome(Run(inputs[..k - 1], seed).state, inputs[k - 1], seed);
      }
    }
  }

  /**
   * In a run labels always lead home if and only if no message renames or
   * overwrites a connection that has a label.
   */
  lemma {:induction false} RunHome(inputs: seq<Input>, seed: U32)
    requires seed >= 2
    ensures AlwaysHome(inputs, seed) <==> NothingBreaks(inputs, seed)
  {
    if NothingBreaks(inputs, seed) {
      forall k | 0 <= k <= |inputs| && !Run(inputs[..k], seed).Panicked?
        ensures Home(Run(inputs[..k], seed).state)
      {
        HomeSoFar(inputs, k, seed);
      }
    }
    if AlwaysHome(inputs, seed) {
      forall k | 0 <= k < |inputs| && Run(inputs[..k], seed).Running?
        ensures !Breaks(Run(inputs[..k], seed).state, inputs[k], seed)
      {
        NotBroken(inputs, k, seed);
      }
    }
  }

  lemma NotBroken(inputs: seq<Input>, k: nat, seed: U32)
    requires seed >= 2 && AlwaysHome(inputs, seed) && k < |inputs| && Run(inputs[..k], seed).Running?
    ensures !Breaks(Run(inputs[..k], seed).state, inputs[k], seed)
  {
    var s := Run(inputs[..k], seed).state;
    RunOneMore(inputs, k, seed);
    ReachableInv(inputs[..k], seed);
    assert Home(s);
    if !Step(s, inputs[k], seed).Panicked? {
      StepHome(s, inputs[k], seed);
      assert Run(inputs[..k + 1], seed) == Step(s, inputs[k], seed);
    }
  }
}
