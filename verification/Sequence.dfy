// The numbers of IPC clients, and which runs reissue no id at all.
module Sequence {
  import opened Prelude
  import opened Ids
  import opened Model
  import opened Repl
  import opened Machine
  import opened Effects
  import opened Invariants
  import opened Preservation
  import opened Reachability
  import opened Numbering

  predicate OpensIpc(input: Input) {
    input.UserCommand? && input.cmd.OpenIpcClient?
  }

  /** The IPC opens of a run, failed connects included. */
  function Opens(inputs: seq<Input>): nat {
    if inputs == [] then 0
    else Opens(inputs[..|inputs| - 1]) + (if OpensIpc(inputs[|inputs| - 1]) then 1 else 0)
  }

  function Min(a: int, b: int): int {
    if a < b then a else b
  }

  lemma AllocateKeepsSeq(s: State, base: Base, seed: U32)
    requires Allocate(s, base, seed).Ok?
    ensures Allocate(s, base, seed).value.state.nextSeq == s.nextSeq
  {
  }

  lemma AcceptedKeepsSeq(s: State, parent: ConnectionId, child: ConnectionId, peer: PeerInfo, seed: U32)
    requires HandleAccepted(s, parent, child, peer, seed).Ok?
    ensures HandleAccepted(s, parent, child, peer, seed).value.nextSeq == s.nextSeq
  {
    if BaseFor(parent, child).Some? {
      AllocateKeepsSeq(s, BaseFor(parent, child).value, seed);
    }
  }

  lemma CommandSeq(s: State, cmd: Command, oracle: Oracle)
    ensures RunCommand(s, cmd, oracle).0.nextSeq
            == if cmd.OpenIpcClient? then Min(s.nextSeq + 1, U32_MAX) else s.nextSeq
  {
  }

  lemma StepSeq(s: State, input: Input, seed: U32)
    requires Step(s, input, seed).Running?
    ensures Step(s, input, seed).state.nextSeq == if OpensIpc(input) then Min(s.nextSeq + 1, U32_MAX) else s.nextSeq
  {
    match input
    case UserCommand(cmd, oracle) => CommandSeq(s, cmd, oracle);
    case Accepted(parent, child, peer) => AcceptedKeepsSeq(s, parent, child, peer, seed);
    case Event(_) =>
  }

  lemma AllocateAddsNoClient(s: State, base: Base, seed: U32, id: ConnectionId)
    requires Inv(s) && Allocate(s, base, seed).Ok? && id.IpcClient?
    ensures Allocate(s, base, seed).value.id != id
    ensures id in Allocate(s, base, seed).value.state.streams ==> id in s.streams
  {
    if base.Key() in s.servers[base.Server()].baseNoSuffix {
      AllocateCollision(s, base, seed);
    }
  }

  lemma AcceptAddsNoClient(s: State, base: Base, peer: PeerInfo, seed: U32, id: ConnectionId)
    requires Inv(s) && Allocate(s, base, seed).Ok? && id.IpcClient?
    requires id in After(s, AcceptedStream(base, peer), seed).streams
    ensures id in s.streams
  {
    AllocateAddsNoClient(s, base, seed, id);
    AfterAccept(s, base, peer, seed);
  }

  lemma EffectClients(s: State, effect: Effect, seed: U32, id: ConnectionId)
    requires Inv(s) && Possible(s, effect, seed) && id.IpcClient? && id in After(s, effect, seed).streams
    ensures id in s.streams || (effect.OpenedClient? && effect.id == id && id == IpcClient(s.nextSeq))
  {
    if effect.AcceptedStream? {
      AcceptAddsNoClient(s, effect.base, effect.peer, seed, id);
    }
  }

  lemma IpcClientsByOpen(s: State, input: Input, seed: U32)
    requires EffectOf(s, input, seed).OpenedClient? && EffectOf(s, input, seed).id.IpcClient?
    ensures OpensIpc(input)
  {
  }

  /** IPC clients come from IPC opens only, under the number of that open. */
  lemma StepClients(s: State, input: Input, seed: U32, id: ConnectionId)
    requires Inv(s) && Step(s, input, seed).Running?
    requires id.IpcClient? && id in Step(s, input, seed).state.streams
    ensures id in s.streams || (OpensIpc(input) && id == IpcClient(s.nextSeq))
  {
    StepHasEffect(s, input, seed);
    EffectIsPossible(s, input, seed);
    EffectClients(s, EffectOf(s, input, seed), seed, id);
    if id !in s.streams {
      IpcClientsByOpen(s, input, seed);
    }
  }

  /** The n-th IPC open is numbered min(n, 2^32 - 1), and live numbers were all given out before. */
  lemma {:induction false} NthOpen(inputs: seq<Input>, seed: U32)
    requires seed >= 2 && Run(inputs, seed).Running?
    ensures var s := Run(inputs, seed).state;
            s.nextSeq == Min(Opens(inputs) + 1, U32_MAX)
            && forall id | id in s.streams && id.IpcClient? :: id.seqNo <= Opens(inputs)
  {
    if inputs != [] {
      var init, last := inputs[..|inputs| - 1], inputs[|inputs| - 1];
      NthOpen(init, seed);
      ReachableInv(init, seed);
      var s := Run(init, seed).state;
      StepSeq(s, last, seed);
      var t := Step(s, last, seed).state;
      forall id | id in t.streams && id.IpcClient? ensures id.seqNo <= Opens(inputs) {
        StepClients(s, last, seed, id);
      }
    }
  }

  /** The first 2^32 - 1 IPC opens of a run never hit a live client. */
  lemma {:induction false} IpcOpenIsFresh(inputs: seq<Input>, seed: U32)
    requires seed >= 2 && Run(inputs, seed).Running? && Opens(inputs) < U32_MAX
    ensures Run(inputs, seed).state.nextSeq == Opens(inputs) + 1
    ensures IpcClient(Run(inputs, seed).state.nextSeq) !in Run(inputs, seed).state.streams
  {
    NthOpen(inputs, seed);
  }

  /** An accept that meets a counter of 2 while `#2` is live. */
  predicate HitsSecond(s: State, input: Input, seed: U32) {
    EffectOf(s, input, seed).AcceptedStream?
    && var base := EffectOf(s, input, seed).base;
    base.Server() in s.servers
    && var srv := s.servers[base.Server()];
    base.Key() in srv.disambigNext && srv.disambigNext[base.Key()] == 2 && base.Id(Some(2)) in s.streams
  }

  /** An IPC open that meets the saturated counter while the last client is live. */
  predicate HitsLast(s: State, input: Input, seed: U32) {
    EffectOf(s, input, seed).OpenedClient? && EffectOf(s, input, seed).id == IpcClient(U32_MAX)
    && s.nextSeq == U32_MAX && IpcClient(U32_MAX) in s.streams
  }

  /** These two are all the ways to reissue a live id. */
  lemma FreshExactly(s: State, input: Input, seed: U32)
    requires Inv(s) && seed >= 2
    ensures Fresh(s, input, seed) <==> !HitsSecond(s, input, seed) && !HitsLast(s, input, seed)
  {
    EffectIsPossible(s, input, seed);
    match EffectOf(s, input, seed)
    case AcceptedStream(base, _) => ReissueExactly(s, base, seed);
    case _ =>
  }

  /** In the first 2^32 - 1 IPC opens of a run only the first way is possible. */
  lemma {:induction false} FreshInRun(inputs: seq<Input>, input: Input, seed: U32)
    requires seed >= 2 && Run(inputs, seed).Running? && (Opens(inputs) < U32_MAX || !OpensIpc(input))
    ensures Fresh(Run(inputs, seed).state, input, seed) <==> !HitsSecond(Run(inputs, seed).state, input, seed)
  {
    var s := Run(inputs, seed).state;
    ReachableInv(inputs, seed);
    FreshExactly(s, input, seed);
    if HitsLast(s, input, seed) {
      IpcClientsByOpen(s, input, seed);
      IpcOpenIsFresh(inputs, seed);
    }
  }

  lemma {:induction false} OpensOfPrefix(inputs: seq<Input>, k: nat)
    requires k < |inputs|
    ensures Opens(inputs[..k]) + (if OpensIpc(inputs[k]) then 1 else 0) <= Opens(inputs)
    decreases |inputs|
  {
    var init := inputs[..|inputs| - 1];
    if k < |init| {
      OpensOfPrefix(init, k);
      assert init[..k] == inputs[..k];
    }
  }

  /** With seed 3, runs of at most 2^32 - 1 IPC opens reissue no id: all that is proved of such runs holds. */
  lemma {:induction false} SeedThreeNoReissue(inputs: seq<Input>, seed: U32)
    requires seed >= 3 && Opens(inputs) <= U32_MAX
    ensures NoReissue(inputs, seed)
  {
    forall k | 0 <= k < |inputs| && Run(inputs[..k], seed).Running?
      ensures Fresh(Run(inputs[..k], seed).state, inputs[k], seed)
    {
      OpensOfPrefix(inputs, k);
      ReachableFloor(inputs[..k], seed);
      FreshInRun(inputs[..k], inputs[k], seed);
    }
  }
}
