// Which id the k-th connection of a base gets within one lifetime of its server,
// whatever else happens in between, and when an id is given out twice.
module Numbering {
  import opened Prelude
  import opened Ids
  import opened Model
  import opened Machine
  import opened Effects
  import opened Invariants
  import opened Preservation
  import opened Reachability

  /** The server's tables as they are after `k` connections of `base`. */
  predicate Counted(srv: ServerHandle, base: Base, k: nat, seed: U32) {
    var key := base.Key();
    if k == 0 then key !in srv.baseNoSuffix && key !in srv.disambigNext
    else if k == 1 then key in srv.baseNoSuffix
    else key !in srv.baseNoSuffix && key in srv.disambigNext && srv.disambigNext[key] == seed + (k - 2)
  }

  /** The server of the base runs and has had `k` of its connections. */
  ghost predicate HasCounted(s: State, base: Base, k: nat, seed: U32) {
    Inv(s) && base.Server() in s.servers && Counted(s.servers[base.Server()], base, k, seed)
  }

  /** The suffix of the `k`-th connection's id, `k` counting from 1. */
  function SuffixOf(k: nat, seed: U32): Option<int> {
    if k <= 1 then None
    else if k == 2 then Some(2)
    else Some(seed + (k - 3))
  }

  function AsSuffix(disambig: Option<U32>): Option<int> {
    match disambig
    case Some(n) => Some(n)
    case None => None
  }

  /** Whether a message brings a connection of `base`. */
  predicate Brings(input: Input, base: Base) {
    input.Accepted? && BaseFor(input.parent, input.child) == Some(base)
  }

  function Arrivals(inputs: seq<Input>, base: Base): nat {
    if inputs == [] then 0
    else Arrivals(inputs[..|inputs| - 1], base) + (if Brings(inputs[|inputs| - 1], base) then 1 else 0)
  }

  // The allocator

  /** What the allocator answers when the `k`-th connection of a base comes in state `s`. */
  predicate Gives(s: State, base: Base, k: nat, seed: U32) {
    match Allocate(s, base, seed)
    case Ok(a) =>
      !CounterIsUp(k, seed) && a.id.IsAccepted() && a.id.BaseOf() == base
      && AsSuffix(a.id.disambig) == SuffixOf(k, seed)
      && a.renamed == if k == 2 then Some((base.Id(Some(1)), base.Id(None))) else None
    case Err(panic) => CounterIsUp(k, seed) && panic == CounterOverflow
  }

  /** The number for the `k`-th connection is the last one, which cannot be counted on from. */
  predicate CounterIsUp(k: nat, seed: U32) {
    k >= 3 && seed + (k - 3) == U32_MAX
  }

  /** The id that the allocator gives out after `k` connections, and what it renames. */
  lemma AllocateAfter(s: State, base: Base, counted: nat, k: nat, seed: U32)
    requires HasCounted(s, base, counted, seed) && k == counted + 1
    ensures Gives(s, base, k, seed)
  {
    assert TableOk(s.servers[base.Server()], base);
    if k == 2 {
      AllocateCollision(s, base, seed);
    }
  }

  lemma AllocateCounts(s: State, base: Base, k: nat, seed: U32)
    requires Inv(s) && base.Server() in s.servers && Counted(s.servers[base.Server()], base, k, seed)
    requires Allocate(s, base, seed).Ok?
    ensures var t := Allocate(s, base, seed).value.state;
            base.Server() in t.servers && Counted(t.servers[base.Server()], base, k + 1, seed)
  {
    assert TableOk(s.servers[base.Server()], base);
    if k == 1 {
      AllocateCollision(s, base, seed);
      CollidedTables(s, base, seed);
    }
  }

  lemma OtherKey(base: Base, other: Base)
    requires other != base
    ensures other.Server() == base.Server() ==> other.Key() != base.Key()
  {
    if other.Server() == base.Server() && other.Key() == base.Key() {
      KeyInjective(other, base);
    }
  }

  lemma CollidedLeavesOthers(s: State, base: Base, other: Base, k: nat, seed: U32)
    requires Shape(s) && other != base && other.Server() in s.servers && base.Server() in s.servers
    requires Counted(s.servers[other.Server()], other, k, seed)
    ensures var t := Collided(s, base, seed);
            other.Server() in t.servers && Counted(t.servers[other.Server()], other, k, seed)
  {
    OtherKey(base, other);
    CollidedTables(s, base, seed);
    CollidedLeavesServers(s, base, seed);
  }

  /** Other bases, also those of the same server, are not affected. */
  lemma AllocateLeavesOthers(s: State, base: Base, other: Base, k: nat, seed: U32)
    requires Inv(s) && other != base && other.Server() in s.servers
    requires Counted(s.servers[other.Server()], other, k, seed) && Allocate(s, base, seed).Ok?
    ensures var t := Allocate(s, base, seed).value.state;
            other.Server() in t.servers && Counted(t.servers[other.Server()], other, k, seed)
  {
    if base.Key() in s.servers[base.Server()].baseNoSuffix {
      AllocateCollision(s, base, seed);
      CollidedLeavesOthers(s, base, other, k, seed);
    } else {
      OtherKey(base, other);
    }
  }

  lemma CollidedLeavesServers(s: State, base: Base, seed: U32)
    requires Shape(s) && base.Server() in s.servers
    ensures var t := Collided(s, base, seed);
            t.servers.Keys == s.servers.Keys
            && (forall sid | sid in s.servers :: t.servers[sid].acceptTask == s.servers[sid].acceptTask)
            && (forall sid | sid in s.servers && sid != base.Server() :: t.servers[sid] == s.servers[sid])
  {
    assert base.Id(None) in s.streams ==> StreamOk(s, base.Id(None));
  }

  // Lifetimes of servers

  /** Servers of `t` are those of `s`, tables included, or were opened since. */
  predicate Continues(s: State, t: State) {
    |s.host.tasks| <= |t.host.tasks|
    && forall sid | sid in t.servers ::
         if sid in s.servers then
           t.servers[sid].acceptTask == s.servers[sid].acceptTask
           && t.servers[sid].disambigNext == s.servers[sid].disambigNext
           && t.servers[sid].baseNoSuffix == s.servers[sid].baseNoSuffix
         else t.servers[sid].acceptTask >= |s.host.tasks|
  }

  lemma RelabelContinues(s: State, id: ConnectionId, name: string)
    ensures Continues(s, ApplyLabel(s, id, name).0)
  {
    ApplyLabelChangesLabels(s, id, name);
  }

  lemma CloseContinues(s: State, effect: Effect, seed: U32)
    requires effect.ClosedOne? || effect.ClosedGroup? || effect.ClosedAll?
    ensures Continues(s, After(s, effect, seed))
  {
  }

  lemma EffectContinues(s: State, effect: Effect, seed: U32)
    requires Possible(s, effect, seed) && !effect.AcceptedStream?
    ensures Continues(s, After(s, effect, seed))
  {
    match effect
    case Relabeled(id, name) => RelabelContinues(s, id, name);
    case OpenedClient(id, peer) => OpenStreamKeepsServers(s, id, peer, None);
    case OpenedServer(_, _) =>
    case Quiet =>
    case _ => CloseContinues(s, effect, seed);
  }

  lemma AllocateKeepsServers(s: State, base: Base, seed: U32)
    requires Inv(s) && Allocate(s, base, seed).Ok?
    ensures var t := Allocate(s, base, seed).value.state;
            t.host == s.host && t.servers.Keys == s.servers.Keys
            && (forall sid | sid in s.servers :: t.servers[sid].acceptTask == s.servers[sid].acceptTask)
  {
    if base.Key() in s.servers[base.Server()].baseNoSuffix {
      AllocateCollision(s, base, seed);
      CollidedLeavesServers(s, base, seed);
    } else {
      PlainAllocateKeepsServers(s, base, seed);
    }
  }

  lemma PlainAllocateKeepsServers(s: State, base: Base, seed: U32)
    requires Allocate(s, base, seed).Ok? && base.Key() !in s.servers[base.Server()].baseNoSuffix
    ensures var t := Allocate(s, base, seed).value.state;
            t.host == s.host && t.servers.Keys == s.servers.Keys
            && (forall sid | sid in s.servers :: t.servers[sid].acceptTask == s.servers[sid].acceptTask)
  {
  }

  lemma OpenStreamKeepsServers(s: State, id: ConnectionId, peer: PeerInfo, parent: Option<ConnectionId>)
    ensures var t := OpenStream(s, id, peer, parent);
            |t.host.tasks| == |s.host.tasks| + 1 && t.servers.Keys == s.servers.Keys
            && (forall sid | sid in s.servers ::
                  t.servers[sid].acceptTask == s.servers[sid].acceptTask
                  && t.servers[sid].disambigNext == s.servers[sid].disambigNext
                  && t.servers[sid].baseNoSuffix == s.servers[sid].baseNoSuffix)
  {
  }

  /** `t` has the servers of `s`, each with the tables that it has in `u`. */
  predicate ServersWithTables(s: State, u: State, t: State) {
    |s.host.tasks| <= |t.host.tasks| && t.servers.Keys == s.servers.Keys == u.servers.Keys
    && forall sid | sid in s.servers ::
         t.servers[sid].acceptTask == s.servers[sid].acceptTask
         && t.servers[sid].disambigNext == u.servers[sid].disambigNext
         && t.servers[sid].baseNoSuffix == u.servers[sid].baseNoSuffix
  }

  lemma AcceptKeepsServers(s: State, base: Base, peer: PeerInfo, seed: U32)
    requires Inv(s) && Allocate(s, base, seed).Ok?
    ensures ServersWithTables(s, Allocate(s, base, seed).value.state, After(s, AcceptedStream(base, peer), seed))
  {
    AllocateKeepsServers(s, base, seed);
    OpenAfterAllocate(s, Allocate(s, base, seed).value, peer, Some(base.Server()));
    AfterAccept(s, base, peer, seed);
  }

  lemma AfterAccept(s: State, base: Base, peer: PeerInfo, seed: U32)
    requires Allocate(s, base, seed).Ok?
    ensures var a := Allocate(s, base, seed).value;
            After(s, AcceptedStream(base, peer), seed) == OpenStream(a.state, a.id, peer, Some(base.Server()))
  {
  }

  lemma OpenAfterAllocate(s: State, a: Allocation, peer: PeerInfo, parent: Option<ConnectionId>)
    requires a.state.host == s.host && a.state.servers.Keys == s.servers.Keys
    requires forall sid | sid in s.servers :: a.state.servers[sid].acceptTask == s.servers[sid].acceptTask
    ensures ServersWithTables(s, a.state, OpenStream(a.state, a.id, peer, parent))
  {
    OpenStreamKeepsServers(a.state, a.id, peer, parent);
  }

  /** A server that was running before a step is the same one after it, and there are no old strangers. */
  lemma StepKeepsLifetimes(s: State, input: Input, seed: U32, sid: ConnectionId)
    requires Inv(s) && Step(s, input, seed).Running?
    ensures var t := Step(s, input, seed).state;
            |s.host.tasks| <= |t.host.tasks|
            && (sid in t.servers ==>
                  if sid in s.servers then t.servers[sid].acceptTask == s.servers[sid].acceptTask
                  else t.servers[sid].acceptTask >= |s.host.tasks|)
  {
    var effect := EffectOf(s, input, seed);
    EffectIsPossible(s, input, seed);
    StepHasEffect(s, input, seed);
    if effect.AcceptedStream? {
      AcceptKeepsServers(s, effect.base, effect.peer, seed);
    } else {
      EffectContinues(s, effect, seed);
    }
  }

  lemma CountedByTables(srv: ServerHandle, srv': ServerHandle, base: Base, k: nat, seed: U32)
    requires srv'.disambigNext == srv.disambigNext && srv'.baseNoSuffix == srv.baseNoSuffix
    ensures Counted(srv', base, k, seed) == Counted(srv, base, k, seed)
  {
  }

  lemma AcceptCounts(s: State, arrived: Base, peer: PeerInfo, seed: U32, base: Base, k: nat)
    requires Inv(s) && base.Server() in s.servers && Counted(s.servers[base.Server()], base, k, seed)
    requires Allocate(s, arrived, seed).Ok?
    ensures var t := After(s, AcceptedStream(arrived, peer), seed);
            base.Server() in t.servers
            && Counted(t.servers[base.Server()], base, k + if arrived == base then 1 else 0, seed)
  {
    AcceptKeepsServers(s, arrived, peer, seed);
    var sid, a := base.Server(), Allocate(s, arrived, seed).value.state;
    CountedByTables(a.servers[sid], After(s, AcceptedStream(arrived, peer), seed).servers[sid], base,
                    k + if arrived == base then 1 else 0, seed);
    if arrived == base {
      AllocateCounts(s, base, k, seed);
    } else {
      AllocateLeavesOthers(s, arrived, base, k, seed);
    }
  }

  lemma EffectCounts(s: State, effect: Effect, seed: U32, base: Base, k: nat)
    requires Inv(s) && base.Server() in s.servers && Counted(s.servers[base.Server()], base, k, seed)
    requires Possible(s, effect, seed) && base.Server() in After(s, effect, seed).servers
    ensures Counted(After(s, effect, seed).servers[base.Server()], base,
                    k + if effect.AcceptedStream? && effect.base == base then 1 else 0, seed)
  {
    if effect.AcceptedStream? {
      AcceptCounts(s, effect.base, effect.peer, seed, base, k);
    } else {
      QuietCounts(s, effect, seed, base, k);
    }
  }

  lemma BringsByEffect(s: State, input: Input, seed: U32, base: Base)
    requires Step(s, input, seed).Running?
    ensures Brings(input, base)
            <==> EffectOf(s, input, seed).AcceptedStream? && EffectOf(s, input, seed).base == base
  {
  }

  /** One step counts one connection of its base, and none of any other. */
  lemma StepCounts(s: State, input: Input, seed: U32, base: Base, k: nat)
    requires Inv(s) && base.Server() in s.servers && Counted(s.servers[base.Server()], base, k, seed)
    requires Step(s, input, seed).Running? && base.Server() in Step(s, input, seed).state.servers
    ensures Counted(Step(s, input, seed).state.servers[base.Server()], base,
                    k + if Brings(input, base) then 1 else 0, seed)
  {
    EffectIsPossible(s, input, seed);
    StepHasEffect(s, input, seed);
    BringsByEffect(s, input, seed, base);
    EffectCounts(s, EffectOf(s, input, seed), seed, base, k);
  }

  lemma QuietCounts(s: State, effect: Effect, seed: U32, base: Base, k: nat)
    requires base.Server() in s.servers && Counted(s.servers[base.Server()], base, k, seed)
    requires Possible(s, effect, seed) && !effect.AcceptedStream? && base.Server() in After(s, effect, seed).servers
    ensures Counted(After(s, effect, seed).servers[base.Server()], base, k, seed)
  {
    EffectContinues(s, effect, seed);
    CountedByTables(s.servers[base.Server()], After(s, effect, seed).servers[base.Server()], base, k, seed);
  }

  /** `sid` names the same running server in both states. */
  predicate SameLifetime(s: State, t: State, sid: ConnectionId) {
    sid in s.servers && sid in t.servers && s.servers[sid].acceptTask == t.servers[sid].acceptTask
  }

  /** A server that is the same at both ends of a run was never closed in between. */
  lemma {:induction false} RunCounts(s: State, inputs: seq<Input>, seed: U32, base: Base, k: nat)
    requires Inv(s) && seed >= 2 && RunFrom(s, inputs, seed).Running?
    requires base.Server() in s.servers && Counted(s.servers[base.Server()], base, k, seed)
    ensures var t := RunFrom(s, inputs, seed).state;
            |s.host.tasks| <= |t.host.tasks|
            && (base.Server() in t.servers ==>
                  t.servers[base.Server()].acceptTask == s.servers[base.Server()].acceptTask
                  || t.servers[base.Server()].acceptTask >= |s.host.tasks|)
            && (SameLifetime(s, t, base.Server()) ==>
                  Counted(t.servers[base.Server()], base, k + Arrivals(inputs, base), seed))
  {
    if inputs != [] {
      var init, last := inputs[..|inputs| - 1], inputs[|inputs| - 1];
      RunCounts(s, init, seed, base, k);
      RunFromKeepsInv(s, init, seed);
      var u := RunFrom(s, init, seed).state;
      StepKeepsLifetimes(u, last, seed, base.Server());
      var t := Step(u, last, seed).state;
      assert s.servers[base.Server()].acceptTask < |s.host.tasks| by {
        assert AcceptorOk(s.host, base.Server(), s.servers[base.Server()].acceptTask);
      }
      if SameLifetime(s, t, base.Server()) {
        assert SameLifetime(s, u, base.Server());
        StepCounts(u, last, seed, base, k + Arrivals(init, base));
      }
    }
  }

  lemma RunHasCounted(s: State, t: State, inputs: seq<Input>, seed: U32, base: Base)
    requires seed >= 2 && HasCounted(s, base, 0, seed) && RunFrom(s, inputs, seed).Running?
    requires RunFrom(s, inputs, seed).state == t && SameLifetime(s, t, base.Server())
    ensures HasCounted(t, base, Arrivals(inputs, base), seed)
  {
    RunCounts(s, inputs, seed, base, 0);
    RunFromKeepsInv(s, inputs, seed);
  }

  lemma GivesAfterRun(s: State, inputs: seq<Input>, seed: U32, base: Base, t: State, k: nat)
    requires seed >= 2 && HasCounted(s, base, 0, seed) && RunFrom(s, inputs, seed).Running?
    requires t == RunFrom(s, inputs, seed).state && SameLifetime(s, t, base.Server())
    requires k == Arrivals(inputs, base) + 1
    ensures Gives(t, base, k, seed)
  {
    RunHasCounted(s, t, inputs, seed, base);
    AllocateAfter(t, base, k - 1, k, seed);
  }

  /**
   * The k-th connection of a base in one lifetime of its server: no suffix for the
   * first, `#2` for the second, which also renames the first to `#1`, and the seed
   * plus k - 3 from the third on. Closes, labels and other connections in between
   * make no difference.
   */
  lemma {:induction false} KthConnection(s: State, inputs: seq<Input>, seed: U32, base: Base)
    requires seed >= 2 && HasCounted(s, base, 0, seed) && RunFrom(s, inputs, seed).Running?
    requires SameLifetime(s, RunFrom(s, inputs, seed).state, base.Server())
    ensures Gives(RunFrom(s, inputs, seed).state, base, Arrivals(inputs, base) + 1, seed)
  {
    GivesAfterRun(s, inputs, seed, base, RunFrom(s, inputs, seed).state, Arrivals(inputs, base) + 1);
  }

  /** A server that was just opened has counted nothing yet. */
  lemma OpenedServerCountsNothing(s: State, sid: ConnectionId, path: Option<string>, base: Base, seed: U32)
    requires base.Server() == sid
    ensures Counted(OpenServer(s, sid, path).servers[sid], base, 0, seed)
  {
  }

  /** The `n`-th message of a run opened the server `sid` that is still running at the end. */
  ghost predicate OpenedAt(inputs: seq<Input>, n: nat, seed: U32, sid: ConnectionId) {
    n < |inputs| && Run(inputs, seed).Running? && Run(inputs[..n], seed).Running?
    && var u, t := Run(inputs[..n], seed).state, Run(inputs, seed).state;
    EffectOf(u, inputs[n], seed).OpenedServer? && EffectOf(u, inputs[n], seed).sid == sid
    && sid in t.servers && t.servers[sid].acceptTask == |u.host.tasks|
  }

  /** Right after its opening message, the server has counted nothing. */
  lemma OpeningCountsNothing(u: State, input: Input, seed: U32, base: Base)
    requires EffectOf(u, input, seed).OpenedServer? && EffectOf(u, input, seed).sid == base.Server()
    requires Step(u, input, seed).Running?
    ensures var s := Step(u, input, seed).state;
            base.Server() in s.servers && Counted(s.servers[base.Server()], base, 0, seed)
            && s.servers[base.Server()].acceptTask == |u.host.tasks|
  {
    var path := EffectOf(u, input, seed).path;
    StepHasEffect(u, input, seed);
    OpenedServerCountsNothing(u, base.Server(), path, base, seed);
    assert Step(u, input, seed).state.servers == OpenServer(u, base.Server(), path).servers;
  }

  lemma OpenedThenRuns(inputs: seq<Input>, n: nat, seed: U32, base: Base)
    requires seed >= 2 && OpenedAt(inputs, n, seed, base.Server())
    ensures Run(inputs[..n + 1], seed).Running?
    ensures var s := Run(inputs[..n + 1], seed).state;
            HasCounted(s, base, 0, seed)
            && RunFrom(s, inputs[n + 1..], seed).Running?
            && RunFrom(s, inputs[n + 1..], seed).state == Run(inputs, seed).state
            && SameLifetime(s, Run(inputs, seed).state, base.Server())
  {
    RunOneMore(inputs, n, seed);
    assert inputs == inputs[..n + 1] + inputs[n + 1..];
    RunAppend(EMPTY, inputs[..n + 1], inputs[n + 1..], seed);
    OpeningCountsNothing(Run(inputs[..n], seed).state, inputs[n], seed, base);
    ReachableInv(inputs[..n + 1], seed);
  }

  lemma OpenedHasCounted(inputs: seq<Input>, n: nat, seed: U32, base: Base, t: State, k: nat)
    requires seed >= 2 && OpenedAt(inputs, n, seed, base.Server())
    requires t == Run(inputs, seed).state && k == Arrivals(inputs[n + 1..], base)
    ensures HasCounted(t, base, k, seed)
  {
    OpenedThenRuns(inputs, n, seed, base);
    RunHasCounted(Run(inputs[..n + 1], seed).state, Run(inputs, seed).state, inputs[n + 1..], seed, base);
  }

  lemma KthAt(inputs: seq<Input>, n: nat, seed: U32, base: Base, t: State, k: nat)
    requires seed >= 2 && OpenedAt(inputs, n, seed, base.Server())
    requires t == Run(inputs, seed).state && k == Arrivals(inputs[n + 1..], base) + 1
    ensures Gives(t, base, k, seed)
  {
    OpenedHasCounted(inputs, n, seed, base, t, k - 1);
    AllocateAfter(t, base, k - 1, k, seed);
  }

  /** The same over whole runs: the k-th connection of a base since its server was opened. */
  lemma {:induction false} KthInRun(inputs: seq<Input>, n: nat, seed: U32, base: Base)
    requires seed >= 2 && OpenedAt(inputs, n, seed, base.Server())
    ensures Gives(Run(inputs, seed).state, base, Arrivals(inputs[n + 1..], base) + 1, seed)
  {
    KthAt(inputs, n, seed, base, Run(inputs, seed).state, Arrivals(inputs[n + 1..], base) + 1);
  }

  /** Two connections get the same id only with the code's seed, and then the second and third. */
  lemma SuffixRepeats(j: nat, k: nat, seed: U32)
    requires 1 <= j < k && seed >= 2
    ensures SuffixOf(j, seed) == SuffixOf(k, seed) <==> seed == CODE_SEED && j == 2 && k == 3
    ensures seed == 3 && k >= 2 ==> SuffixOf(k, seed) == Some(k)
  {
  }

  lemma {:induction false} ArrivalsAppend(a: seq<Input>, b: seq<Input>, base: Base)
    ensures Arrivals(a + b, base) == Arrivals(a, base) + Arrivals(b, base)
  {
    if b == [] {
      assert a + b == a;
    } else {
      ArrivalsAppend(a, b[..|b| - 1], base);
      assert (a + b)[..|a + b| - 1] == a + b[..|b| - 1];
    }
  }

  /** Of two connections of a base, the later one has more before it. */
  lemma ArrivalsGrow(inputs: seq<Input>, n: nat, i: nat, j: nat, base: Base)
    requires n < i < j <= |inputs| && Brings(inputs[i], base)
    ensures Arrivals(inputs[n + 1..i], base) < Arrivals(inputs[n + 1..j], base)
  {
    var head, one, tail := inputs[n + 1..i], [inputs[i]], inputs[i + 1..j];
    assert inputs[n + 1..j] == head + one + tail;
    ArrivalsAppend(head + one, tail, base);
    ArrivalsAppend(head, one, base);
    assert one[..0] == [];
  }

  /** A server that runs at the end of a run and is not younger than its beginning ran at its beginning. */
  lemma {:induction false} OldServerStays(s: State, inputs: seq<Input>, seed: U32, sid: ConnectionId)
    requires Inv(s) && seed >= 2 && RunFrom(s, inputs, seed).Running?
    ensures var t := RunFrom(s, inputs, seed).state;
            |s.host.tasks| <= |t.host.tasks|
            && (sid in t.servers && t.servers[sid].acceptTask < |s.host.tasks| ==> SameLifetime(s, t, sid))
  {
    if inputs != [] {
      var init, last := inputs[..|inputs| - 1], inputs[|inputs| - 1];
      OldServerStays(s, init, seed, sid);
      RunFromKeepsInv(s, init, seed);
      StepKeepsLifetimes(RunFrom(s, init, seed).state, last, seed, sid);
    }
  }

  /** A server that was opened by the `n`-th message and runs after `j` messages ran in between. */
  lemma OpenedInBetween(inputs: seq<Input>, n: nat, i: nat, j: nat, seed: U32, base: Base)
    requires seed >= 2 && n < i <= j <= |inputs| && OpenedAt(inputs[..j], n, seed, base.Server())
    ensures OpenedAt(inputs[..i], n, seed, base.Server())
  {
    assert inputs[..j][..n] == inputs[..n] == inputs[..i][..n];
    assert inputs[..j][..n + 1] == inputs[..n + 1] && inputs[..i] == inputs[..n + 1] + inputs[n + 1..i];
    assert inputs[..j] == inputs[..i] + inputs[i..j];
    RunAppend(EMPTY, inputs[..i], inputs[i..j], seed);
    RunAppend(EMPTY, inputs[..n + 1], inputs[n + 1..i], seed);
    ReachableInv(inputs[..n + 1], seed);
    ReachableInv(inputs[..i], seed);
    OpenedThenRuns(inputs[..j], n, seed, base);
    BornBefore(Run(inputs[..n + 1], seed).state, base.Server());
    OldServerStays(Run(inputs[..n + 1], seed).state, inputs[n + 1..i], seed, base.Server());
    OldServerStays(Run(inputs[..i], seed).state, inputs[i..j], seed, base.Server());
  }

  lemma BornBefore(s: State, sid: ConnectionId)
    requires Inv(s) && sid in s.servers
    ensures s.servers[sid].acceptTask < |s.host.tasks|
  {
    assert AcceptorOk(s.host, sid, s.servers[sid].acceptTask);
  }

  lemma GivesSuffix(s: State, base: Base, k: nat, seed: U32)
    requires Gives(s, base, k, seed) && Allocate(s, base, seed).Ok?
    ensures var id := Allocate(s, base, seed).value.id;
            id.IsAccepted() && id.BaseOf() == base && AsSuffix(id.disambig) == SuffixOf(k, seed)
  {
  }

  lemma SameSuffixSameId(a: ConnectionId, b: ConnectionId)
    requires a.IsAccepted() && b.IsAccepted() && a.BaseOf() == b.BaseOf()
    ensures AsSuffix(a.disambig) == AsSuffix(b.disambig) <==> a == b
  {
  }

  /** Two answers name the same id if and only if the seed is 2, `j` is 2 and `k` is 3. */
  predicate SameIdOnly(a: Result<Allocation, Panic>, j: nat, b: Result<Allocation, Panic>, k: nat, seed: U32) {
    a.Ok? && b.Ok? ==> (a.value.id == b.value.id <==> seed == CODE_SEED && j == 2 && k == 3)
  }

  /** The `j`-th connection, coming in state `s`, and the `k`-th, coming in state `t`. */
  predicate RepeatsExactly(s: State, j: nat, t: State, k: nat, base: Base, seed: U32) {
    SameIdOnly(Allocate(s, base, seed), j, Allocate(t, base, seed), k, seed)
  }

  lemma AnswersRepeat(s: State, j: nat, t: State, k: nat, base: Base, seed: U32)
    requires 1 <= j < k && seed >= 2 && Gives(s, base, j, seed) && Gives(t, base, k, seed)
    ensures RepeatsExactly(s, j, t, k, base, seed)
  {
    if Allocate(s, base, seed).Ok? && Allocate(t, base, seed).Ok? {
      GivesSuffix(s, base, j, seed);
      GivesSuffix(t, base, k, seed);
      SameSuffixSameId(Allocate(s, base, seed).value.id, Allocate(t, base, seed).value.id);
      SuffixRepeats(j, k, seed);
    }
  }

  lemma GivesInBetween(inputs: seq<Input>, n: nat, i: nat, j: nat, seed: U32, base: Base, s: State, k: nat)
    requires seed >= 2 && n < i <= j <= |inputs| && OpenedAt(inputs[..j], n, seed, base.Server())
    requires Run(inputs[..i], seed).Running? && s == Run(inputs[..i], seed).state
    requires k == Arrivals(inputs[n + 1..i], base) + 1
    ensures Gives(s, base, k, seed)
  {
    OpenedInBetween(inputs, n, i, j, seed, base);
    assert inputs[..i][n + 1..] == inputs[n + 1..i];
    KthAt(inputs[..i], n, seed, base, s, k);
  }

  lemma RepeatsInRun(inputs: seq<Input>, n: nat, i: nat, j: nat, seed: U32, base: Base,
                     s: State, first: nat, t: State, second: nat)
    requires seed >= 2 && n < i < j <= |inputs| && OpenedAt(inputs[..j], n, seed, base.Server())
    requires Brings(inputs[i], base) && Run(inputs[..i], seed).Running?
    requires s == Run(inputs[..i], seed).state && first == Arrivals(inputs[n + 1..i], base) + 1
    requires t == Run(inputs[..j], seed).state && second == Arrivals(inputs[n + 1..j], base) + 1
    ensures RepeatsExactly(s, first, t, second, base, seed)
  {
    GivesInBetween(inputs, n, i, j, seed, base, s, first);
    GivesInBetween(inputs, n, j, j, seed, base, t, second);
    ArrivalsGrow(inputs, n, i, j, base);
    AnswersRepeat(s, first, t, second, base, seed);
  }

  /**
   * Two connections of one base in one lifetime of its server, the `i`-th and the
   * `j`-th message of a run, get the same id if and only if the seed is 2 and they
   * are the second and the third connection.
   */
  lemma {:induction false} IdsRepeat(inputs: seq<Input>, n: nat, i: nat, j: nat, seed: U32, base: Base)
    requires seed >= 2 && n < i < j <= |inputs| && OpenedAt(inputs[..j], n, seed, base.Server())
    requires Brings(inputs[i], base)
    ensures Run(inputs[..i], seed).Running?
    ensures RepeatsExactly(Run(inputs[..i], seed).state, Arrivals(inputs[n + 1..i], base) + 1,
                           Run(inputs[..j], seed).state, Arrivals(inputs[n + 1..j], base) + 1, base, seed)
  {
    OpenedInBetween(inputs, n, i, j, seed, base);
    RepeatsInRun(inputs, n, i, j, seed, base,
                 Run(inputs[..i], seed).state, Arrivals(inputs[n + 1..i], base) + 1,
                 Run(inputs[..j], seed).state, Arrivals(inputs[n + 1..j], base) + 1);
  }

  // Reissued ids

  /** An accept reissues a live id exactly when the counter stands at 2 and `#2` is still live. */
  lemma ReissueExactly(s: State, base: Base, seed: U32)
    requires Inv(s) && seed >= 2 && Allocate(s, base, seed).Ok?
    ensures var srv, key := s.servers[base.Server()], base.Key();
            Allocate(s, base, seed).value.id in s.streams
            <==> key in srv.disambigNext && srv.disambigNext[key] == 2 && base.Id(Some(2)) in s.streams
  {
    var srv, key := s.servers[base.Server()], base.Key();
    var id := Allocate(s, base, seed).value.id;
    assert TableOk(srv, base);
    if key in srv.baseNoSuffix {
      AllocateCollision(s, base, seed);
      OnlyPlainIsLive(s, base);
    } else if key in srv.disambigNext {
      assert id == base.Id(Some(srv.disambigNext[key]));
      assert id in s.streams ==> Numbered(s.servers, id);
    } else {
      NoneIsLive(s, base);
    }
  }

  /** All counters stand at `floor` or higher. */
  ghost predicate CountersFrom(s: State, floor: U32) {
    forall sid, key | sid in s.servers && key in s.servers[sid].disambigNext ::
      s.servers[sid].disambigNext[key] >= floor
  }

  lemma StepKeepsFloor(s: State, input: Input, seed: U32)
    requires Inv(s) && CountersFrom(s, seed) && Step(s, input, seed).Running?
    ensures CountersFrom(Step(s, input, seed).state, seed)
  {
    var effect := EffectOf(s, input, seed);
    EffectIsPossible(s, input, seed);
    StepHasEffect(s, input, seed);
    if effect.AcceptedStream? {
      AcceptKeepsServers(s, effect.base, effect.peer, seed);
      AllocateKeepsFloor(s, effect.base, seed);
    } else {
      EffectKeepsFloor(s, effect, seed);
    }
  }

  lemma EffectKeepsFloor(s: State, effect: Effect, seed: U32)
    requires CountersFrom(s, seed) && Possible(s, effect, seed) && !effect.AcceptedStream?
    ensures CountersFrom(After(s, effect, seed), seed)
  {
    EffectContinues(s, effect, seed);
    var t := After(s, effect, seed);
    forall sid, key | sid in t.servers && key in t.servers[sid].disambigNext
      ensures t.servers[sid].disambigNext[key] >= seed
    {
      assert sid in s.servers;
    }
  }

  lemma AllocateKeepsFloor(s: State, base: Base, seed: U32)
    requires Inv(s) && CountersFrom(s, seed) && Allocate(s, base, seed).Ok?
    ensures CountersFrom(Allocate(s, base, seed).value.state, seed)
  {
    if base.Key() in s.servers[base.Server()].baseNoSuffix {
      AllocateCollision(s, base, seed);
      CollidedKeepsFloor(s, base, seed);
    }
  }

  lemma CollidedKeepsFloor(s: State, base: Base, seed: U32)
    requires Shape(s) && CountersFrom(s, seed) && base.Server() in s.servers
    ensures CountersFrom(Collided(s, base, seed), seed)
  {
    CollidedTables(s, base, seed);
    CollidedLeavesServers(s, base, seed);
    var t := Collided(s, base, seed);
    forall sid, key | sid in t.servers && key in t.servers[sid].disambigNext
      ensures t.servers[sid].disambigNext[key] >= seed
    {
      assert sid in s.servers;
      assert key in s.servers[sid].disambigNext ==> s.servers[sid].disambigNext[key] >= seed;
    }
  }

  lemma {:induction false} ReachableFloor(inputs: seq<Input>, seed: U32)
    requires seed >= 2 && Run(inputs, seed).Running?
    ensures CountersFrom(Run(inputs, seed).state, seed)
  {
    if inputs != [] {
      var init := inputs[..|inputs| - 1];
      ReachableFloor(init, seed);
      ReachableInv(init, seed);
      StepKeepsFloor(Run(init, seed).state, inputs[|inputs| - 1], seed);
    }
  }

  /** With 3 stored instead of 2, no accept of any run reissues a live id. */
  lemma {:induction false} SeedThreeIsFresh(inputs: seq<Input>, seed: U32, base: Base)
    requires seed >= 3 && Run(inputs, seed).Running? && Allocate(Run(inputs, seed).state, base, seed).Ok?
    ensures Allocate(Run(inputs, seed).state, base, seed).value.id !in Run(inputs, seed).state.streams
  {
    ReachableInv(inputs, seed);
    ReachableFloor(inputs, seed);
    ReissueExactly(Run(inputs, seed).state, base, seed);
  }
}
