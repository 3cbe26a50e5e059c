// What single operations guarantee in every reachable state: exact effects of
// closing a server, of shutting down and of broadcasting, and when a step panics.
module Guarantees {
  import opened Prelude
  import opened Ids
  import opened Model
  import opened Machine
  import opened Invariants
  import opened Preservation
  import opened Reachability
  import opened Sorting
  import opened Teardown
  import opened LabelTable

  // Parents and children

  /** Child sets and parent fields say the same, parents are live and are what the id says. */
  lemma {:induction false} ParentsAndChildren(inputs: seq<Input>, seed: U32, sid: ConnectionId, id: ConnectionId)
    requires seed >= 2 && Run(inputs, seed).Running?
    ensures var s := Run(inputs, seed).state;
            (sid in s.servers ==>
               sid.IsServer() && s.servers[sid].state.id == sid && s.servers[sid].state.status == Connected
               && s.servers[sid].children == set c | c in s.streams && s.streams[c].parent == Some(sid))
            && (id in s.streams ==>
                  var h := s.streams[id];
                  !id.IsServer() && h.state.id == id && h.state.status == Connected && h.parent == id.Parent()
                  && (h.parent.Some? ==> h.parent.value in s.servers))
  {
    ReachableInv(inputs, seed);
    var s := Run(inputs, seed).state;
    if sid in s.servers {
      OwnChildren(s, sid);
      assert ServerOk(s, sid);
    }
    if id in s.streams {
      assert StreamOk(s, id);
    }
  }

  /** The branch that refuses to write to a closing or closed stream is never taken. */
  lemma AlwaysWritable(s: State, id: ConnectionId, outcome: WriteOutcome)
    requires Inv(s)
    ensures WriteResult(s, id, outcome).Err? ==>
              WriteResult(s, id, outcome).error == UnknownId(Render(id)) || WriteResult(s, id, outcome).error.Io?
    ensures id in s.streams ==> (WriteResult(s, id, outcome).Ok? <==> outcome == Delivered)
  {
    assert id in s.streams ==> StreamOk(s, id);
  }

  /** Overwritten and renamed connections included, each live label is in the table and nobody else's. */
  lemma {:induction false} LiveLabelsInTable(inputs: seq<Input>, seed: U32, a: ConnectionId, b: ConnectionId)
    requires seed >= 2 && Run(inputs, seed).Running?
    ensures var s := Run(inputs, seed).state;
            s.IsLive(a) && s.LabelOf(a).Some? ==>
              var name := s.LabelOf(a).value;
              name in s.labels
              && (s.labels[name] == a || (a.IsRenamed() && s.labels[name] == a.BaseOf().Id(None)))
              && (s.IsLive(b) && s.LabelOf(b) == Some(name) ==> a == b)
    ensures Run(inputs, seed).state.IsLive(a) && a.IsRenamed() ==>
              !Run(inputs, seed).state.IsLive(a.BaseOf().Id(None))
  {
    ReachableInv(inputs, seed);
    var s := Run(inputs, seed).state;
    if s.IsLive(a) && a.IsRenamed() {
      PlainIsDead(s, a);
    }
    if s.IsLive(a) && s.LabelOf(a).Some? && s.IsLive(b) && s.LabelOf(b) == s.LabelOf(a) {
      LabelsUnique(s, a, b);
    }
  }

  // Panics

  /** A step panics exactly on an accept whose server is gone, or whose counter is used up. */
  lemma PanicsExactly(s: State, input: Input, seed: U32)
    requires Inv(s)
    ensures Step(s, input, seed).Panicked? <==>
              input.Accepted? && BaseFor(input.parent, input.child).Some?
              && (input.parent !in s.servers
                  || var base := BaseFor(input.parent, input.child).value;
                     var srv := s.servers[input.parent];
                     base.Key() !in srv.baseNoSuffix && base.Key() in srv.disambigNext
                     && srv.disambigNext[base.Key()] == U32_MAX)
    ensures Step(s, input, seed).Panicked? ==>
              (Step(s, input, seed).panic == ParentGone <==> input.parent !in s.servers)
  {
    if input.Accepted? && BaseFor(input.parent, input.child).Some? {
      var base := BaseFor(input.parent, input.child).value;
      assert base.Server() == input.parent;
      if input.parent in s.servers && base.Key() in s.servers[input.parent].baseNoSuffix {
        AllocateCollision(s, base, seed);
      }
    }
  }

  /** The messages of accept loops have the shape that the allocator expects, for their own server. */
  lemma AcceptLoopsMatch(server: ConnectionId, peer: PeerInfo)
    ensures AcceptMessage(server, peer).Some? ==>
              var m := AcceptMessage(server, peer).value;
              m.Accepted? && m.parent == server && BaseFor(m.parent, m.child).Some?
    ensures forall port: U16, host, remote: U16
              | server == TcpServer(port) && peer == TcpSocket(host + ":" + Decimal.Dec(remote)) ::
              AcceptMessage(server, peer) == Some(Accepted(server, AcceptedTcp(port, remote, None), peer))
  {
    forall port: U16, host, remote: U16
      | server == TcpServer(port) && peer == TcpSocket(host + ":" + Decimal.Dec(remote))
      ensures AcceptMessage(server, peer) == Some(Accepted(server, AcceptedTcp(port, remote, None), peer))
    {
      TokenParser.RemotePortOfAddress(host, remote);
    }
  }

  /** An accept that was queued behind the close of its server: the task panics. */
  lemma LateHandoffPanics(s: State, token: string, sid: ConnectionId, peer: PeerInfo, seed: U32)
    requires CloseToken(s, token).1 == Ok(ClosedServer(sid)) && AcceptMessage(sid, peer).Some?
    ensures Step(CloseToken(s, token).0, AcceptMessage(sid, peer).value, seed) == Panicked(ParentGone)
  {
    AcceptLoopsMatch(sid, peer);
    assert sid !in CloseToken(s, token).0.servers;
  }

  // Closing a server

  /** The labels of a server and of its children. */
  predicate GroupBears(s: State, sid: ConnectionId, name: string)
    requires sid in s.servers
  {
    s.servers[sid].state.alias == Some(name)
    || exists c | c in s.servers[sid].children :: c in s.streams && s.streams[c].state.alias == Some(name)
  }

  /**
   * Closing a server takes away that server, the streams it is the parent of and
   * their labels, and leaves every other handle and label exactly as it was.
   */
  lemma DropServerExactly(s: State, sid: ConnectionId)
    requires Inv(s) && sid in s.servers
    ensures var t := DropServer(s, sid);
            (forall id :: id in t.streams <==> id in s.streams && s.streams[id].parent != Some(sid))
            && (forall id | id in t.streams :: t.streams[id] == s.streams[id])
            && (forall other :: other in t.servers <==> other in s.servers && other != sid)
            && (forall other | other in t.servers :: t.servers[other] == s.servers[other])
            && (forall name :: name in t.labels <==> name in s.labels && !GroupBears(s, sid, name))
            && (forall name | name in t.labels :: t.labels[name] == s.labels[name])
            && (forall task ::
                  t.host.aborted[task] == s.host.aborted[task]
                  + if task == s.servers[sid].acceptTask || task in ReadersAmong(s, s.servers[sid].children) then 1
                    else 0)
            && t.host.unlinked == s.host.unlinked + (if sid.IpcServer? then multiset{sid.path} else multiset{})
  {
    OwnChildren(s, sid);
    assert ServerOk(s, sid);
    DropServerLabels(s, sid);
    assert AcceptorOk(s.host, sid, s.servers[sid].acceptTask);
    forall task | task in ReadersAmong(s, s.servers[sid].children) ensures task != s.servers[sid].acceptTask {
      var c :| c in s.servers[sid].children && c in s.streams && s.streams[c].readTask == task;
      assert ReaderOk(s.host, c, task);
    }
  }

  lemma DropServerLabels(s: State, sid: ConnectionId)
    requires sid in s.servers
    ensures forall name ::
              name in LabelsAmong(s, s.servers[sid].children) || name in LabelSet(s.servers[sid].state.alias)
              <==> GroupBears(s, sid, name)
  {
  }

  // Shutdown

  /** The task of some live handle. */
  predicate LiveTask(s: State, task: nat) {
    task in AcceptTasks(s) || task in ReadersAmong(s, s.streams.Keys)
  }

  /**
   * Shutting down leaves no handle, aborts the task of every live handle exactly
   * once and removes the socket file of every live IPC server exactly once.
   */
  lemma ShutdownExactly(s: State)
    requires Inv(s)
    ensures var t := Shutdown(s);
            t.streams == map[] && t.servers == map[] && t.host.display == s.host.display
            && (forall task :: LiveTask(s, task) ==> s.host.aborted[task] == 0)
            && (forall task :: t.host.aborted[task] == if LiveTask(s, task) then 1 else s.host.aborted[task])
            && (forall path ::
                  t.host.unlinked[path] == s.host.unlinked[path] + if IpcServer(path) in s.servers then 1 else 0)
  {
    var t := Shutdown(s);
    forall task: nat
      ensures LiveTask(s, task) ==> s.host.aborted[task] == 0
      ensures t.host.aborted[task] == if LiveTask(s, task) then 1 else s.host.aborted[task]
    {
      TaskAtShutdown(s, task);
    }
    forall path
      ensures t.host.unlinked[path] == s.host.unlinked[path] + if IpcServer(path) in s.servers then 1 else 0
    {
      FileAtShutdown(s, path);
    }
  }

  lemma TaskAtShutdown(s: State, task: nat)
    requires Inv(s)
    ensures !(task in AcceptTasks(s) && task in ReadersAmong(s, s.streams.Keys))
    ensures LiveTask(s, task) ==> s.host.aborted[task] == 0
  {
    if task in ReadersAmong(s, s.streams.Keys) {
      var id :| id in s.streams && s.streams[id].readTask == task;
      assert ReaderOk(s.host, id, task);
    }
    if task in AcceptTasks(s) {
      var sid :| sid in s.servers && s.servers[sid].acceptTask == task;
      assert AcceptorOk(s.host, sid, task);
    }
  }

  lemma FileAtShutdown(s: State, path: string)
    requires Shape(s)
    ensures path in SocketFiles(s) <==> IpcServer(path) in s.servers
  {
    if path in SocketFiles(s) {
      var sid :| sid in s.servers && s.servers[sid].ipcPath == Some(path);
      assert ServerOk(s, sid);
    }
    if IpcServer(path) in s.servers {
      assert ServerOk(s, IpcServer(path));
    }
  }

  // Broadcast

  /** The children whose write or flush failed. */
  function Failing(s: State, ids: set<ConnectionId>, writes: map<ConnectionId, WriteOutcome>): set<ConnectionId> {
    set c | c in ids && WriteResult(s, c, OutcomeOf(writes, c)).Err?
  }

  predicate IsFailureLine(s: State, line: Line, c: ConnectionId, writes: map<ConnectionId, WriteOutcome>) {
    WriteResult(s, c, OutcomeOf(writes, c)).Err?
    && line == SendFailure(s.DisplayName(c), WriteResult(s, c, OutcomeOf(writes, c)).error)
  }

  /** `failed` names, in order, the child that each of the lines is about. */
  predicate OneLineEach(s: State, lines: seq<Line>, failed: seq<ConnectionId>,
                        writes: map<ConnectionId, WriteOutcome>)
  {
    |failed| == |lines| && forall k | 0 <= k < |lines| :: IsFailureLine(s, lines[k], failed[k], writes)
  }

  lemma {:induction false} FailureLinesExactly(s: State, order: seq<ConnectionId>,
                                               writes: map<ConnectionId, WriteOutcome>)
    requires NoRepeats(order)
    ensures exists failed ::
              Enumerates(failed, Failing(s, Members(order), writes))
              && OneLineEach(s, FailureLines(s, order, writes), failed, writes)
  {
    if order == [] {
      assert Enumerates([], Failing(s, Members(order), writes));
      assert OneLineEach(s, FailureLines(s, order, writes), [], writes);
    } else {
      var init, last := order[..|order| - 1], order[|order| - 1];
      FailureLinesExactly(s, init, writes);
      var failed :| Enumerates(failed, Failing(s, Members(init), writes))
                    && OneLineEach(s, FailureLines(s, init, writes), failed, writes);
      FailingOneMore(s, order, writes);
      if WriteResult(s, last, OutcomeOf(writes, last)).Err? {
        EnumeratesOneMore(failed, Failing(s, Members(init), writes), last);
        assert OneLineEach(s, FailureLines(s, order, writes), failed + [last], writes);
      } else {
        assert FailureLines(s, order, writes) == FailureLines(s, init, writes);
      }
    }
  }

  lemma EnumeratesOneMore(order: seq<ConnectionId>, ids: set<ConnectionId>, c: ConnectionId)
    requires Enumerates(order, ids) && c !in ids
    ensures Enumerates(order + [c], ids + {c})
  {
  }

  lemma FailingOneMore(s: State, order: seq<ConnectionId>, writes: map<ConnectionId, WriteOutcome>)
    requires order != [] && NoRepeats(order)
    ensures var init, last := order[..|order| - 1], order[|order| - 1];
            last !in Failing(s, Members(init), writes)
            && Failing(s, Members(order), writes)
               == Failing(s, Members(init), writes)
                  + if WriteResult(s, last, OutcomeOf(writes, last)).Err? then {last} else {}
  {
    var init, last := order[..|order| - 1], order[|order| - 1];
    assert order == init + [last];
    assert Members(order) == Members(init) + {last};
    assert last !in Members(init);
  }

  /**
   * Sending to a server with children succeeds whatever its children do: each child
   * gets the payload once (or the part its socket took), each failure adds just one
   * line, and nothing else changes. The order of the children does not matter.
   */
  lemma BroadcastExactly(s: State, sid: ConnectionId, bytes: seq<U8>, order: seq<ConnectionId>,
                         writes: map<ConnectionId, WriteOutcome>)
    requires Inv(s) && sid in s.servers && bytes != [] && s.servers[sid].children != {}
    requires Enumerates(order, s.servers[sid].children)
    ensures var (t, r) := SendBytes(s, sid, bytes, order, writes);
            r == Ok(())
            && t == s.(streams := t.streams, host := s.host.(display := t.host.display))
            && t.streams.Keys == s.streams.Keys
            && (forall id | id in s.streams ::
                  t.streams[id] == s.streams[id].(output := t.streams[id].output)
                  && t.streams[id].output == s.streams[id].output
                     + if s.streams[id].parent == Some(sid) then SentPart(bytes, OutcomeOf(writes, id)) else [])
    ensures exists failed ::
              Enumerates(failed, set c | c in s.servers[sid].children && OutcomeOf(writes, c) != Delivered)
              && OneLineEach(s, SendBytes(s, sid, bytes, order, writes).0.host.display[|s.host.display|..],
                             failed, writes)
  {
    assert sid.IsServer() by {
      assert ServerOk(s, sid);
    }
    OwnChildren(s, sid);
    BroadcastOutput(s, sid, bytes, order, writes);
    FailureLinesExactly(s, order, writes);
    FailingChildren(s, sid, order, writes);
    assert SendBytes(s, sid, bytes, order, writes).0.host.display[|s.host.display|..] == FailureLines(s, order, writes);
  }

  /** Sending to a stream reaches that stream only, succeeds just when its socket took all, and shows nothing. */
  lemma SendToOneExactly(s: State, id: ConnectionId, bytes: seq<U8>, order: seq<ConnectionId>,
                         writes: map<ConnectionId, WriteOutcome>)
    requires Inv(s) && !id.IsServer() && bytes != []
    ensures var (t, r) := SendBytes(s, id, bytes, order, writes);
            t == s.(streams := t.streams) && t.streams.Keys == s.streams.Keys
            && (forall other | other in s.streams && other != id :: t.streams[other] == s.streams[other])
            && (id in s.streams ==>
                  t.streams[id]
                  == s.streams[id].(output := s.streams[id].output + SentPart(bytes, OutcomeOf(writes, id))))
            && (r.Ok? <==> id in s.streams && OutcomeOf(writes, id) == Delivered)
            && (r.Ok? ==> t.streams[id].output == s.streams[id].output + bytes)
            && (id !in s.streams ==> t == s && r == Err(UnknownId(Render(id))))
  {
    AlwaysWritable(s, id, OutcomeOf(writes, id));
    assert id in s.streams ==> StreamOk(s, id);
  }

  lemma FailingChildren(s: State, sid: ConnectionId, order: seq<ConnectionId>, writes: map<ConnectionId, WriteOutcome>)
    requires Inv(s) && sid in s.servers && Enumerates(order, s.servers[sid].children)
    ensures Failing(s, Members(order), writes)
            == set c | c in s.servers[sid].children && OutcomeOf(writes, c) != Delivered
  {
    assert ServerOk(s, sid);
    assert Members(order) == s.servers[sid].children;
    forall c | c in s.servers[sid].children
      ensures WriteResult(s, c, OutcomeOf(writes, c)).Err? <==> OutcomeOf(writes, c) != Delivered
    {
      AlwaysWritable(s, c, OutcomeOf(writes, c));
    }
  }

  lemma BroadcastOutput(s: State, sid: ConnectionId, bytes: seq<U8>, order: seq<ConnectionId>,
                        writes: map<ConnectionId, WriteOutcome>)
    requires Shape(s) && sid in s.servers
    requires s.servers[sid].children == set c | c in s.streams && s.streams[c].parent == Some(sid)
    ensures var t := Broadcast(s, s.servers[sid].children, order, bytes, writes);
            t == s.(streams := t.streams, host := s.host.(display := t.host.display))
            && t.streams.Keys == s.streams.Keys
            && (forall id | id in s.streams ::
                  t.streams[id] == s.streams[id].(output := t.streams[id].output)
                  && t.streams[id].output == s.streams[id].output
                     + if s.streams[id].parent == Some(sid) then SentPart(bytes, OutcomeOf(writes, id)) else [])
  {
    forall id | id in s.streams ensures s.streams[id].state.status == Connected {
      assert StreamOk(s, id);
    }
  }
}
