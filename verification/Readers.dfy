// Events from reader tasks: whom they can hit, and what becomes of a connection
// whose reader still reports under the id it had before it was renamed.
module Readers {
  import opened Prelude
  import opened Ids
  import opened Model
  import opened Repl
  import opened Machine
  import opened Effects
  import opened Invariants
  import opened Preservation
  import opened Reachability
  import opened Numbering
  import opened LabelTable

  /**
   * An event that a task of this run could have sent: a reader sends all kinds under
   * the id it captured, an accept loop reports failed accepts under its server's id.
   */
  predicate SentByTask(s: State, event: NetEvent) {
    match event
    case Renamed(_, _) => false
    case ErrorEvent(id, _) => ReadTask(id) in s.host.tasks || AcceptTask(id) in s.host.tasks
    case Received(id, _) => ReadTask(id) in s.host.tasks
    case ClosedEvent(id) => ReadTask(id) in s.host.tasks
  }

  /** The id under which the stream's reader reports. */
  function ReportId(s: State, id: ConnectionId): ConnectionId
    requires id in s.streams && s.streams[id].readTask < |s.host.tasks|
    requires s.host.tasks[s.streams[id].readTask].ReadTask?
  {
    s.host.tasks[s.streams[id].readTask].readId
  }

  /** A reader reports under the plain id exactly if its stream was renamed. */
  lemma ReportsUnder(s: State, id: ConnectionId)
    requires Inv(s) && id in s.streams
    ensures ReaderOk(s.host, id, s.streams[id].readTask)
    ensures ReportId(s, id) == if id.IsRenamed() then id.BaseOf().Id(None) else id
  {
    assert ReaderOk(s.host, id, s.streams[id].readTask);
    assert !s.host.tasks[s.streams[id].readTask].readId.IsRenamed();
  }

  /**
   * The end of a live stream, as its own reader reports it, removes that stream and
   * no other; if the stream was renamed it changes nothing at all.
   */
  lemma OwnReaderCloses(s: State, id: ConnectionId)
    requires Inv(s) && id in s.streams
    ensures ReaderOk(s.host, id, s.streams[id].readTask)
    ensures HandleEvent(s, ClosedEvent(ReportId(s, id)))
            == if id.IsRenamed() then s else DropStream(s, id).Show(ClosedLine(s.DisplayName(id)))
  {
    ReportsUnder(s, id);
    if id.IsRenamed() {
      PlainIsDead(s, id);
    }
  }

  /** The plain id of a base that has collided is not live as long as its server runs. */
  lemma {:induction false} PlainStaysDead(s: State, inputs: seq<Input>, seed: U32, base: Base, k: nat)
    requires Inv(s) && seed >= 2 && RunFrom(s, inputs, seed).Running? && k >= 2
    requires base.Server() in s.servers && Counted(s.servers[base.Server()], base, k, seed)
    requires SameLifetime(s, RunFrom(s, inputs, seed).state, base.Server())
    ensures var t, plain := RunFrom(s, inputs, seed).state, base.Id(None);
            !t.IsLive(plain)
            && HandleEvent(t, ClosedEvent(plain)) == t
            && (forall bytes :: HandleEvent(t, Received(plain, bytes)) == t.Show(ReceivedLine(Render(plain), bytes)))
            && (forall message :: HandleEvent(t, ErrorEvent(plain, message)) == t.Show(Failure(Render(plain), message)))
  {
    RunCounts(s, inputs, seed, base, k);
    RunFromKeepsInv(s, inputs, seed);
    CollidedPlainIsDead(RunFrom(s, inputs, seed).state, base, k + Arrivals(inputs, base), seed);
  }

  lemma CollidedPlainIsDead(s: State, base: Base, k: nat, seed: U32)
    requires Inv(s) && base.Server() in s.servers && Counted(s.servers[base.Server()], base, k, seed) && k >= 2
    ensures !s.IsLive(base.Id(None))
  {
    assert base.Id(None) in s.streams ==> Numbered(s.servers, base.Id(None));
    assert base.Id(None) in s.servers ==> ServerOk(s, base.Id(None));
  }

  /** The command, if it is one, that closes `id` or its server. */
  predicate ClosesByCommand(s: State, input: Input, id: ConnectionId) {
    input.UserCommand? && input.cmd.Close? && Resolve(s, input.cmd.idToken).Ok?
    && var target := Resolve(s, input.cmd.idToken).value;
    target == id || Some(target) == id.Parent()
  }

  /** The same connection is still live under `id`, not just some connection. */
  predicate Stays(s: State, t: State, id: ConnectionId)
    requires id in s.streams
  {
    id in t.streams && t.streams[id].readTask == s.streams[id].readTask
  }

  /**
   * A renamed stream leaves by a close command for it or for its server, and only so: no
   * other message but a shutdown, and a Closed event under its new id, which nobody
   * sends, removes it or puts another connection in its place.
   */
  lemma RenamedLeavesByCommand(s: State, input: Input, seed: U32, id: ConnectionId)
    requires Inv(s) && id in s.streams && id.IsRenamed() && seed >= 2
    requires input != Event(ClosedEvent(id))
    requires Step(s, input, seed).Running?
    ensures Stays(s, Step(s, input, seed).state, id) <==> !ClosesByCommand(s, input, id)
  {
    StepHasEffect(s, input, seed);
    EffectIsPossible(s, input, seed);
    EffectRemoves(s, EffectOf(s, input, seed), seed, id);
    if !Stays(s, Step(s, input, seed).state, id) {
      ClosingMessages(s, input, seed, id);
    }
    if ClosesByCommand(s, input, id) {
      ClosingTakesAway(s, input, seed, id);
    }
  }

  lemma ClosingTakesAway(s: State, input: Input, seed: U32, id: ConnectionId)
    requires Inv(s) && id in s.streams && id.IsRenamed() && ClosesByCommand(s, input, id)
    requires Step(s, input, seed).Running?
    ensures id !in Step(s, input, seed).state.streams
  {
    assert StreamOk(s, id);
    assert id.Parent().Some?;
    ClosedByTakesAway(s, input.cmd.idToken, id);
  }

  /** Events come from tasks of the run, and no command closes `id` or its server. */
  ghost predicate LeftAlone(s: State, inputs: seq<Input>, seed: U32, id: ConnectionId) {
    forall k | 0 <= k < |inputs| && RunFrom(s, inputs[..k], seed).Running? ::
      var t := RunFrom(s, inputs[..k], seed).state;
      (inputs[k].Event? ==> SentByTask(t, inputs[k].event)) && !ClosesByCommand(t, inputs[k], id)
  }

  /**
   * A renamed connection whose peer has gone is never noticed: whatever else comes,
   * it is still there as long as no command closes it or its server, and the end
   * that its reader reports changes nothing.
   */
  lemma {:induction false} RenamedIsNeverNoticed(s: State, inputs: seq<Input>, seed: U32, id: ConnectionId)
    requires Inv(s) && seed >= 2 && RunFrom(s, inputs, seed).Running?
    requires id in s.streams && id.IsRenamed() && LeftAlone(s, inputs, seed, id)
    ensures var t := RunFrom(s, inputs, seed).state;
            Inv(t) && Stays(s, t, id)
            && ReaderOk(t.host, id, t.streams[id].readTask) && HandleEvent(t, ClosedEvent(ReportId(t, id))) == t
  {
    RunFromKeepsInv(s, inputs, seed);
    if inputs != [] {
      var init, last := inputs[..|inputs| - 1], inputs[|inputs| - 1];
      assert LeftAlone(s, init, seed, id) by {
        assert forall k | 0 <= k < |init| :: init[..k] == inputs[..k];
      }
      RenamedIsNeverNoticed(s, init, seed, id);
      ReadersNeverReport(RunFrom(s, init, seed).state, id);
      RenamedLeavesByCommand(RunFrom(s, init, seed).state, last, seed, id);
    }
    OwnReaderCloses(RunFrom(s, inputs, seed).state, id);
  }

  predicate ClosingEffect(effect: Effect, id: ConnectionId) {
    effect.ClosedAll? || (effect.ClosedOne? && effect.id == id)
    || (effect.ClosedGroup? && id.Parent() == Some(effect.sid))
  }

  lemma ClosingCommands(s: State, cmd: Command, oracle: Oracle, id: ConnectionId)
    requires ClosingEffect(CommandEffect(s, cmd, oracle), id)
    ensures ClosesByCommand(s, UserCommand(cmd, oracle), id)
  {
  }

  /** The messages that have a closing effect on `id`. */
  lemma ClosingMessages(s: State, input: Input, seed: U32, id: ConnectionId)
    requires ClosingEffect(EffectOf(s, input, seed), id)
    ensures input.ShutdownRequest? || input == Event(ClosedEvent(id)) || ClosesByCommand(s, input, id)
  {
    match input
    case UserCommand(cmd, oracle) => ClosingCommands(s, cmd, oracle, id);
    case _ =>
  }

  /** No reader was ever spawned under the id of a renamed stream. */
  lemma ReadersNeverReport(s: State, id: ConnectionId)
    requires Inv(s) && id.IsRenamed()
    ensures !SentByTask(s, ClosedEvent(id))
  {
  }

  lemma CloseKeepsOthers(s: State, effect: Effect, seed: U32, id: ConnectionId)
    requires Inv(s) && id in s.streams && Possible(s, effect, seed) && !ClosingEffect(effect, id)
    requires effect.ClosedOne? || effect.ClosedGroup?
    ensures Stays(s, After(s, effect, seed), id)
  {
    if effect.ClosedGroup? {
      assert ServerOk(s, effect.sid);
    }
  }

  lemma OpenKeepsRenamed(s: State, effect: Effect, seed: U32, id: ConnectionId)
    requires id in s.streams && id.IsRenamed() && Possible(s, effect, seed)
    requires effect.OpenedServer? || effect.OpenedClient?
    ensures Stays(s, After(s, effect, seed), id)
  {
  }

  /** Only these effects take a renamed stream out of the map, and none replaces it. */
  lemma EffectRemoves(s: State, effect: Effect, seed: U32, id: ConnectionId)
    requires Inv(s) && id in s.streams && id.IsRenamed() && Possible(s, effect, seed) && seed >= 2
    ensures Stays(s, After(s, effect, seed), id) || ClosingEffect(effect, id)
  {
    if !ClosingEffect(effect, id) {
      match effect
      case AcceptedStream(base, peer) => AcceptKeepsRenamed(s, base, peer, seed, id);
      case Relabeled(other, name) => RelabelKeepsReader(s, other, name, id);
      case OpenedServer(_, _) => OpenKeepsRenamed(s, effect, seed, id);
      case OpenedClient(_, _) => OpenKeepsRenamed(s, effect, seed, id);
      case Quiet =>
      case _ => CloseKeepsOthers(s, effect, seed, id);
    }
  }

  lemma RelabelKeepsReader(s: State, other: ConnectionId, name: string, id: ConnectionId)
    requires id in s.streams
    ensures Stays(s, ApplyLabel(s, other, name).0, id)
  {
  }

  lemma CollidedKeepsOthers(s: State, base: Base, seed: U32, id: ConnectionId)
    requires base.Server() in s.servers && id in s.streams && id != base.Id(None) && id != base.Id(Some(1))
    ensures Stays(s, Collided(s, base, seed), id)
  {
  }

  lemma AllocateKeepsRenamed(s: State, base: Base, seed: U32, id: ConnectionId)
    requires Inv(s) && id in s.streams && id.IsRenamed() && Allocate(s, base, seed).Ok?
    ensures Stays(s, Allocate(s, base, seed).value.state, id)
  {
    if base.Key() in s.servers[base.Server()].baseNoSuffix {
      OnlyPlainIsLive(s, base);
      CollidedKeepsOthers(s, base, seed, id);
      AllocateCollision(s, base, seed);
    }
  }

  /** The new connection gets another id, so it does not come in the old one's place. */
  lemma AcceptKeepsRenamed(s: State, base: Base, peer: PeerInfo, seed: U32, id: ConnectionId)
    requires Inv(s) && id in s.streams && id.IsRenamed() && Allocate(s, base, seed).Ok? && seed >= 2
    ensures Stays(s, After(s, AcceptedStream(base, peer), seed), id)
  {
    AllocateKeepsRenamed(s, base, seed, id);
    AllocateKeepsInv(s, base, seed);
    AfterAccept(s, base, peer, seed);
  }

  // Closed events that come late

  /** The message makes `id` the id of a stream: it inserts one or renames one. */
  predicate Revives(s: State, input: Input, seed: U32, id: ConnectionId) {
    InsertedId(s, input, seed) == Some(id)
    || match EffectOf(s, input, seed)
       case AcceptedStream(base, _) =>
         Allocate(s, base, seed).Ok? && Allocate(s, base, seed).value.renamed.Some?
         && Allocate(s, base, seed).value.renamed.value.0 == id
       case _ => false
  }

  ghost predicate NeverRevived(s: State, inputs: seq<Input>, seed: U32, id: ConnectionId) {
    forall k | 0 <= k < |inputs| && RunFrom(s, inputs[..k], seed).Running? ::
      !Revives(RunFrom(s, inputs[..k], seed).state, inputs[k], seed, id)
  }

  lemma AcceptAdds(s: State, base: Base, peer: PeerInfo, seed: U32, id: ConnectionId)
    requires Inv(s) && Allocate(s, base, seed).Ok? && id !in s.streams
    requires var a := Allocate(s, base, seed).value;
             id != a.id && (a.renamed.Some? ==> a.renamed.value.0 != id)
    ensures id !in After(s, AcceptedStream(base, peer), seed).streams
  {
    AllocateAdds(s, base, seed, id);
    AfterAccept(s, base, peer, seed);
  }

  lemma AllocateAdds(s: State, base: Base, seed: U32, id: ConnectionId)
    requires Inv(s) && Allocate(s, base, seed).Ok? && id !in s.streams
    requires var renamed := Allocate(s, base, seed).value.renamed;
             renamed.Some? ==> renamed.value.0 != id
    ensures id !in Allocate(s, base, seed).value.state.streams
  {
    if base.Key() in s.servers[base.Server()].baseNoSuffix {
      AllocateCollision(s, base, seed);
    }
  }

  lemma StepAdds(s: State, input: Input, seed: U32, id: ConnectionId)
    requires Inv(s) && Step(s, input, seed).Running? && id !in s.streams && !Revives(s, input, seed, id)
    ensures id !in Step(s, input, seed).state.streams
  {
    var effect := EffectOf(s, input, seed);
    StepHasEffect(s, input, seed);
    EffectIsPossible(s, input, seed);
    if effect.AcceptedStream? {
      AcceptAdds(s, effect.base, effect.peer, seed, id);
    }
  }

  /** A dead id stays dead until a message gives it to a stream again; its Closed events are ignored. */
  lemma {:induction false} DeadStaysSilent(s: State, inputs: seq<Input>, seed: U32, id: ConnectionId)
    requires Inv(s) && seed >= 2 && RunFrom(s, inputs, seed).Running?
    requires id !in s.streams && NeverRevived(s, inputs, seed, id)
    ensures id !in RunFrom(s, inputs, seed).state.streams
    ensures HandleEvent(RunFrom(s, inputs, seed).state, ClosedEvent(id)) == RunFrom(s, inputs, seed).state
  {
    if inputs != [] {
      var init := inputs[..|inputs| - 1];
      assert NeverRevived(s, init, seed, id) by {
        assert forall k | 0 <= k < |init| :: init[..k] == inputs[..k];
      }
      DeadStaysSilent(s, init, seed, id);
      RunFromKeepsInv(s, init, seed);
      StepAdds(RunFrom(s, init, seed).state, inputs[|inputs| - 1], seed, id);
    }
  }

  /** `id` is closed by what the user typed: itself, or with its server. */
  predicate ClosedBy(s: State, token: string, id: ConnectionId) {
    id in s.streams && CloseToken(s, token).1.Ok?
    && (CloseToken(s, token).1 == Ok(ClosedStream(id)) || Some(Resolve(s, token).value) == id.Parent())
  }

  lemma ClosedByTakesAway(s: State, token: string, id: ConnectionId)
    requires Inv(s) && ClosedBy(s, token, id)
    ensures CloseToken(s, token).0.streams.Keys <= s.streams.Keys - {id}
  {
    assert StreamOk(s, id);
  }

  /**
   * A close command takes the stream away at once; a Closed event that its reader
   * had queued, under whatever id it reports, shows and changes nothing, whatever
   * came in between, unless that id was given out again.
   */
  lemma {:induction false} LateClosedIsSilent(s: State, token: string, inputs: seq<Input>, seed: U32, id: ConnectionId)
    requires Inv(s) && seed >= 2 && ClosedBy(s, token, id) && ReaderOk(s.host, id, s.streams[id].readTask)
    requires var t := CloseToken(s, token).0;
             RunFrom(t, inputs, seed).Running? && NeverRevived(t, inputs, seed, ReportId(s, id))
    ensures id !in CloseToken(s, token).0.streams
    ensures var t := RunFrom(CloseToken(s, token).0, inputs, seed).state;
            HandleEvent(t, ClosedEvent(ReportId(s, id))) == t
  {
    CloseKeepsInv(s, token);
    ClosedByTakesAway(s, token, id);
    ReportsUnder(s, id);
    if id.IsRenamed() {
      PlainIsDead(s, id);
    }
    DeadStaysSilent(CloseToken(s, token).0, inputs, seed, ReportId(s, id));
  }
}
