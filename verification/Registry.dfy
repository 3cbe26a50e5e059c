// The registry as the program keeps it: maps updated in place, loops over hash
// sets in whatever order they yield. Each method is tied to its closed form.
module RegistryClass {
  import opened Prelude
  import opened Ids
  import opened Model
  import opened Machine
  import opened Invariants
  import opened Preservation
  import opened Sorting
  import opened StatusReport
  import opened Teardown

  class Registry {
    var streams: map<ConnectionId, StreamHandle>
    var servers: map<ConnectionId, ServerHandle>
    var labels: map<string, ConnectionId>
    var nextIpcClientSeq: U32
    var host: Host

    ghost function Abs(): State
      reads this
    {
      State(streams, servers, labels, nextIpcClientSeq, host)
    }

    ghost predicate Valid()
      reads this
    {
      Inv(Abs())
    }

    constructor ()
      ensures Abs() == EMPTY && Valid()
    {
      streams, servers, labels := map[], map[], map[];
      nextIpcClientSeq := 1;
      host := EMPTY.host;
      new;
      EmptyInv();
    }

    // The outside world

    method SpawnTask(task: Task) returns (number: nat)
      modifies this`host
      ensures Abs() == old(Abs()).Spawn(task) && number == old(|host.tasks|)
    {
      number := |host.tasks|;
      host := host.(tasks := host.tasks + [task]);
    }

    method AbortTask(number: nat)
      modifies this`host
      ensures host == old(host).(aborted := old(host).aborted + multiset{number})
    {
      host := host.(aborted := host.aborted + multiset{number});
    }

    method RemoveFile(path: string)
      modifies this`host
      ensures host == old(host).(unlinked := old(host).unlinked + multiset{path})
    {
      host := host.(unlinked := host.unlinked + multiset{path});
    }

    method Display(line: Line)
      modifies this`host
      ensures Abs() == old(Abs()).Show(line)
    {
      host := host.(display := host.display + [line]);
    }

    // Lookups

    method ResolveId(token: string) returns (r: Result<ConnectionId, DomainError>)
      ensures r == Resolve(Abs(), token)
    {
      if token in labels {
        return Ok(labels[token]);
      }
      var candidates := TokenParser.Candidates(token);
      for k := 0 to |candidates|
        invariant FirstLive(Abs(), candidates) == FirstLive(Abs(), candidates[k..])
      {
        var id := candidates[k];
        if id in streams || id in servers {
          return Ok(id);
        }
      }
      return Err(UnknownId(token));
    }

    method DisplayName(id: ConnectionId) returns (name: string)
      ensures name == Abs().DisplayName(id)
    {
      if id in streams && streams[id].state.alias.Some? {
        return streams[id].state.alias.value;
      }
      if id in servers && servers[id].state.alias.Some? {
        return servers[id].state.alias.value;
      }
      return Render(id);
    }

    method CurrentLabel(id: ConnectionId) returns (name: Option<string>)
      ensures name == Abs().LabelOf(id)
    {
      if id in streams {
        return streams[id].state.alias;
      }
      if id in servers {
        return servers[id].state.alias;
      }
      return None;
    }

    // Updates

    /** The sequence number of a new IPC client; the counter saturates. */
    method AllocIpcClientSeq() returns (n: U32)
      modifies this`nextIpcClientSeq
      ensures n == old(nextIpcClientSeq) && Abs() == NextSeq(old(Abs()))
    {
      n := nextIpcClientSeq;
      if nextIpcClientSeq < U32_MAX {
        nextIpcClientSeq := nextIpcClientSeq + 1;
      }
    }

    method ApplyLabel(id: ConnectionId, name: string) returns (r: Result<(), DomainError>)
      modifies this`labels, this`streams, this`servers
      ensures (Abs(), r) == Model.ApplyLabel(old(Abs()), id, name)
    {
      if name in labels && labels[name] != id {
        return Err(LabelAlreadyInUse(name));
      }
      var oldName := CurrentLabel(id);
      MinusLabel(labels, oldName);
      if oldName.Some? {
        labels := labels - {oldName.value};
      }
      if id in streams {
        var h := streams[id];
        streams := streams[id := h.(state := h.state.(alias := Some(name)))];
      } else if id in servers {
        var srv := servers[id];
        servers := servers[id := srv.(state := srv.state.(alias := Some(name)))];
      } else {
        return Err(UnknownId(Render(id)));
      }
      labels := labels[name := id];
      return Ok(());
    }

    method InsertStream(handle: StreamHandle)
      modifies this`streams, this`servers
      ensures Abs() == Model.InsertStream(old(Abs()), handle)
    {
      var id := handle.state.id;
      if handle.parent.Some? && handle.parent.value in servers {
        var srv := servers[handle.parent.value];
        servers := servers[handle.parent.value := srv.(children := srv.children + {id})];
      }
      streams := streams[id := handle];
    }

    method DropStream(id: ConnectionId)
      modifies this`streams, this`servers, this`labels, this`host
      ensures Abs() == Model.DropStream(old(Abs()), id)
    {
      if id in streams {
        var h := streams[id];
        streams := streams - {id};
        h := h.(state := h.state.OnClosed());
        AbortTask(h.readTask);
        if h.parent.Some? && h.parent.value in servers {
          var srv := servers[h.parent.value];
          servers := servers[h.parent.value := srv.(children := srv.children - {id})];
        }
        if h.state.alias.Some? {
          labels := labels - {h.state.alias.value};
        }
      }
    }

    /** Close the children of `sid`, whose server `s` still had, in whatever order they come. */
    method DropChildren(ghost s: State, sid: ConnectionId, children: set<ConnectionId>)
      requires Inv(s) && sid in s.servers && children == s.servers[sid].children
      requires Abs() == HalfClosed(s, sid, {})
      modifies this`streams, this`servers, this`labels, this`host
      ensures Abs() == HalfClosed(s, sid, children)
    {
      var todo := children;
      assert children - todo == {};
      while todo != {}
        invariant todo <= children
        invariant Abs() == HalfClosed(s, sid, children - todo)
      {
        var c :| c in todo;
        HalfClosedOneMore(s, sid, children - todo, c);
        TakeOne(children, todo, c);
        DropStream(c);
        todo := todo - {c};
      }
      assert children - todo == children;
    }

    /** Whatever the order of the children, closing a server comes to its closed form. */
    method DropServer(id: ConnectionId)
      requires Valid()
      modifies this`streams, this`servers, this`labels, this`host
      ensures Abs() == Model.DropServer(old(Abs()), id) && Valid()
    {
      ghost var s := Abs();
      DropServerKeepsInv(s, id);
      if id in servers {
        var srv := servers[id];
        servers := servers - {id};
        AbortTask(srv.acceptTask);
        HalfClosedNone(s, id);
        DropChildren(s, id, srv.children);
        if srv.ipcPath.Some? {
          RemoveFile(srv.ipcPath.value);
        }
        MinusLabel(labels, srv.state.alias);
        if srv.state.alias.Some? {
          labels := labels - {srv.state.alias.value};
        }
        HalfClosedAll(s, id);
      }
    }

    method WriteToStream(id: ConnectionId, bytes: seq<U8>, outcome: WriteOutcome) returns (r: Result<(), DomainError>)
      modifies this`streams
      ensures Abs() == WriteTo(old(Abs()), id, bytes, outcome)
      ensures r == WriteResult(old(Abs()), id, outcome)
    {
      if id !in streams {
        return Err(UnknownId(Render(id)));
      }
      var h := streams[id];
      if h.state.status == Closed || h.state.status == Closing {
        assert streams[id := h] == streams;
        return Err(Logic(Render(id)));
      }
      streams := streams[id := h.(output := h.output + SentPart(bytes, outcome))];
      match outcome {
        case Delivered => return Ok(());
        case WriteFailed(_, message) => return Err(Io(message));
        case FlushFailed(message) => return Err(Io(message));
      }
    }

    /** `order` is how the child set happens to be walked; a failing child stops nobody. */
    method WriteToChildren(order: seq<ConnectionId>, bytes: seq<U8>, writes: map<ConnectionId, WriteOutcome>)
      requires NoRepeats(order)
      modifies this`streams, this`host
      ensures Abs() == Broadcast(old(Abs()), Members(order), order, bytes, writes)
    {
      ghost var s := Abs();
      BroadcastToNone(s, bytes, writes);
      for k := 0 to |order|
        invariant Abs() == Broadcast(s, Members(order[..k]), order[..k], bytes, writes)
      {
        var c := order[k];
        BroadcastToOneMore(s, order, k, bytes, writes);
        var written := WriteToStream(c, bytes, OutcomeOf(writes, c));
        if written.Err? {
          var name := DisplayName(c);
          Display(SendFailure(name, written.error));
        }
      }
      assert order[..|order|] == order;
    }

    method SendBytes(target: ConnectionId, bytes: seq<U8>, order: seq<ConnectionId>,
                     writes: map<ConnectionId, WriteOutcome>)
      returns (r: Result<(), DomainError>)
      requires target in servers ==> Enumerates(order, servers[target].children)
      modifies this`streams, this`host
      ensures (Abs(), r) == Model.SendBytes(old(Abs()), target, bytes, order, writes)
    {
      if bytes == [] {
        return Err(EmptyPayload);
      }
      if target.IsServer() {
        if target !in servers {
          return Err(UnknownId(Render(target)));
        }
        if servers[target].children == {} {
          return Err(ServerHasNoChildren(Render(target)));
        }
        assert Members(order) == servers[target].children;
        WriteToChildren(order, bytes, writes);
        return Ok(());
      }
      r := WriteToStream(target, bytes, OutcomeOf(writes, target));
    }

    method OnReceived(id: ConnectionId, bytes: seq<U8>)
      modifies this`host
      ensures Abs() == Model.OnReceived(old(Abs()), id, bytes)
    {
      var name := DisplayName(id);
      Display(ReceivedLine(name, bytes));
    }

    method OnClosedEvent(id: ConnectionId)
      modifies this`streams, this`servers, this`labels, this`host
      ensures Abs() == Model.OnClosedEvent(old(Abs()), id)
    {
      if id !in streams {
        return;
      }
      var name := DisplayName(id);
      DropStream(id);
      Display(ClosedLine(name));
    }

    method OnErrorEvent(id: ConnectionId, message: string)
      modifies this`host
      ensures Abs() == Model.OnErrorEvent(old(Abs()), id, message)
    {
      var name := DisplayName(id);
      Display(Failure(name, message));
    }

    // Ids of accepted connections

    method RenameAccepted(oldId: ConnectionId, newId: ConnectionId)
      modifies this`streams, this`servers
      ensures Abs() == Rename(old(Abs()), oldId, newId)
    {
      if oldId in streams {
        var h := streams[oldId];
        streams := streams - {oldId};
        h := h.(state := h.state.(id := newId));
        if h.parent.Some? && h.parent.value in servers {
          var srv := servers[h.parent.value];
          servers := servers[h.parent.value := srv.(children := srv.children - {oldId} + {newId})];
        }
        streams := streams[newId := h];
      }
    }

    method AllocateAcceptedTcpId(parentPort: U16, remotePort: U16)
      returns (r: Result<(ConnectionId, Option<(ConnectionId, ConnectionId)>), Panic>)
      requires Valid()
      modifies this`streams, this`servers
      ensures match Allocate(old(Abs()), TcpBase(parentPort, remotePort), CODE_SEED)
              case Ok(a) => r == Ok((a.id, a.renamed)) && Abs() == a.state
              case Err(panic) => r == Err(panic) && Abs() == old(Abs())
    {
      var baseKey := Decimal.Dec(parentPort) + "." + Decimal.Dec(remotePort);
      var parent := TcpServer(parentPort);
      if parent !in servers {
        return Err(ParentGone);
      }
      var srv := servers[parent];
      if baseKey !in srv.baseNoSuffix && baseKey !in srv.disambigNext {
        var id := AcceptedTcp(parentPort, remotePort, None);
        servers := servers[parent := srv.(baseNoSuffix := srv.baseNoSuffix[baseKey := id])];
        return Ok((id, None));
      }
      if baseKey in srv.baseNoSuffix {
        AllocateCollision(Abs(), TcpBase(parentPort, remotePort), CODE_SEED);
        var oldId := srv.baseNoSuffix[baseKey];
        servers := servers[parent := srv.(baseNoSuffix := srv.baseNoSuffix - {baseKey})];
        var newFirst := AcceptedTcp(parentPort, remotePort, Some(1));
        RenameAccepted(oldId, newFirst);
        var srv2 := servers[parent];
        servers := servers[parent := srv2.(disambigNext := srv2.disambigNext[baseKey := CODE_SEED])];
        return Ok((AcceptedTcp(parentPort, remotePort, Some(2)), Some((newFirst, oldId))));
      }
      var n := srv.disambigNext[baseKey];
      if n == U32_MAX {
        return Err(CounterOverflow);
      }
      servers := servers[parent := srv.(disambigNext := srv.disambigNext[baseKey := n + 1])];
      return Ok((AcceptedTcp(parentPort, remotePort, Some(n)), None));
    }

    method AllocateAcceptedIpcId(parentPath: string, pid: I32)
      returns (r: Result<(ConnectionId, Option<(ConnectionId, ConnectionId)>), Panic>)
      requires Valid()
      modifies this`streams, this`servers
      ensures match Allocate(old(Abs()), IpcBase(parentPath, pid), CODE_SEED)
              case Ok(a) => r == Ok((a.id, a.renamed)) && Abs() == a.state
              case Err(panic) => r == Err(panic) && Abs() == old(Abs())
    {
      var baseKey := parentPath + "." + Decimal.IntText(pid);
      var parent := IpcServer(parentPath);
      if parent !in servers {
        return Err(ParentGone);
      }
      var srv := servers[parent];
      if baseKey !in srv.baseNoSuffix && baseKey !in srv.disambigNext {
        var id := AcceptedIpc(parentPath, pid, None);
        servers := servers[parent := srv.(baseNoSuffix := srv.baseNoSuffix[baseKey := id])];
        return Ok((id, None));
      }
      if baseKey in srv.baseNoSuffix {
        AllocateCollision(Abs(), IpcBase(parentPath, pid), CODE_SEED);
        var oldId := srv.baseNoSuffix[baseKey];
        servers := servers[parent := srv.(baseNoSuffix := srv.baseNoSuffix - {baseKey})];
        var newFirst := AcceptedIpc(parentPath, pid, Some(1));
        RenameAccepted(oldId, newFirst);
        var srv2 := servers[parent];
        servers := servers[parent := srv2.(disambigNext := srv2.disambigNext[baseKey := CODE_SEED])];
        return Ok((AcceptedIpc(parentPath, pid, Some(2)), Some((newFirst, oldId))));
      }
      var n := srv.disambigNext[baseKey];
      if n == U32_MAX {
        return Err(CounterOverflow);
      }
      servers := servers[parent := srv.(disambigNext := srv.disambigNext[baseKey := n + 1])];
      return Ok((AcceptedIpc(parentPath, pid, Some(n)), None));
    }

    // Shutdown

    method DropAllServers(ghost s: State)
      requires Valid() && Abs() == s
      modifies this`streams, this`servers, this`labels, this`host
      ensures Abs() == Torn(s, s.servers.Keys, ChildrenOfAll(s, s.servers.Keys))
    {
      var todo := servers.Keys;
      ghost var all := todo;
      TornNone(s);
      assert all - todo == {};
      while todo != {}
        invariant todo <= all == s.servers.Keys
        invariant Valid() && Abs() == Torn(s, all - todo, ChildrenOfAll(s, all - todo))
      {
        var sid :| sid in todo;
        TornOneServer(s, all - todo, sid);
        TakeOne(all, todo, sid);
        DropServer(sid);
        todo := todo - {sid};
      }
      assert all - todo == all;
    }

    method DropAllStreams(ghost s: State, ghost before: set<ConnectionId>)
      requires Inv(s) && before <= s.streams.Keys && Abs() == Torn(s, s.servers.Keys, before)
      modifies this`streams, this`servers, this`labels, this`host
      ensures Abs() == Torn(s, s.servers.Keys, s.streams.Keys)
    {
      var todo := streams.Keys;
      ghost var all := s.streams.Keys;
      assert todo == all - before && all - todo == before;
      while todo != {}
        invariant todo <= all
        invariant Abs() == Torn(s, s.servers.Keys, all - todo)
      {
        var id :| id in todo;
        TornOneStream(s, all - todo, id);
        TakeOne(all, todo, id);
        DropStream(id);
        todo := todo - {id};
      }
      assert all - todo == all;
    }

    /** All servers in any order, then all streams that are left, in any order. */
    method Shutdown()
      requires Valid()
      modifies this`streams, this`servers, this`labels, this`host
      ensures Abs() == Model.Shutdown(old(Abs()))
    {
      ghost var s := Abs();
      DropAllServers(s);
      DropAllStreams(s, ChildrenOfAll(s, s.servers.Keys));
      TornAll(s);
    }

    // Status

    method FreeClients(walk: seq<ConnectionId>) returns (ids: seq<ConnectionId>)
      requires forall id | id in walk :: id in streams
      ensures ids == Unparented(Abs(), walk)
    {
      ids := [];
      for k := 0 to |walk|
        invariant ids == Unparented(Abs(), walk[..k])
      {
        assert walk[..k + 1][..k] == walk[..k];
        if streams[walk[k]].parent.None? {
          ids := ids + [walk[k]];
        }
      }
      assert walk[..|walk|] == walk;
    }

    method RenderClients(ids: seq<ConnectionId>) returns (out: string)
      requires forall id | id in ids :: id in streams
      ensures out == ClientLines(Abs(), ids)
    {
      out := "";
      for k := 0 to |ids|
        invariant out == ClientLines(Abs(), ids[..k])
      {
        assert ids[..k + 1][..k] == ids[..k];
        out := out + ClientLine(ids[k], streams[ids[k]]);
      }
      assert ids[..|ids|] == ids;
    }

    method RenderChildren(ids: seq<ConnectionId>) returns (out: string)
      ensures out == ChildLines(Abs(), ids)
    {
      out := "";
      for k := 0 to |ids|
        invariant out == ChildLines(Abs(), ids[..k])
      {
        assert ids[..k + 1][..k] == ids[..k];
        if ids[k] in streams {
          out := out + ChildLine(ids[k], streams[ids[k]]);
        }
      }
      assert ids[..|ids|] == ids;
    }

    method RenderServers(ids: seq<ConnectionId>, walk: Iteration) returns (out: string)
      requires forall sid | sid in ids :: sid in servers && Enumerates(walk.ChildrenOf(sid), servers[sid].children)
      ensures out == ServerBlocks(Abs(), ids, walk)
    {
      out := "";
      for k := 0 to |ids|
        invariant out == ServerBlocks(Abs(), ids[..k], walk)
      {
        assert ids[..k + 1][..k] == ids[..k];
        var srv := servers[ids[k]];
        var children := RenderChildren(SortByText(Walked(srv.children, walk.ChildrenOf(ids[k]))));
        out := out + ("  " + Render(ids[k]) + "\n" + children);
      }
      assert ids[..|ids|] == ids;
    }

    /** `walk` is how the hash maps happen to be walked. */
    method RenderStatus(walk: Iteration) returns (out: string)
      requires Walks(Abs(), walk)
      ensures out == StatusText(Abs(), walk)
    {
      var clientIds := FreeClients(walk.streams);
      UnparentedAreLive(Abs(), walk.streams);
      SortedAreSame(clientIds);
      clientIds := SortByText(clientIds);
      var clients := RenderClients(clientIds);
      out := "CLIENTS\n" + if clientIds == [] then "  (none)\n" else clients;
      var serverIds := SortByText(walk.servers);
      SortedAreSame(walk.servers);
      var blocks := RenderServers(serverIds, walk);
      out := out + "\nSERVERS\n" + if serverIds == [] then "  (none)\n" else blocks;
    }
  }
}
