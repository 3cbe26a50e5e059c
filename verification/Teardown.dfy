// The states in the middle of the registry's loops: a server being closed, a
// shutdown under way, a broadcast half done. None depends on the order so far.
module Teardown {
  import opened Prelude
  import opened Ids
  import opened Model
  import opened Invariants
  import opened Sorting

  /** Taking one element out of what is still to do adds it to what is done. */
  lemma TakeOne(all: set<ConnectionId>, todo: set<ConnectionId>, c: ConnectionId)
    requires c in todo && todo <= all
    ensures all - (todo - {c}) == (all - todo) + {c} && c !in all - todo
  {
  }

  lemma SumOrder(a: multiset<nat>, b: multiset<nat>, c: multiset<nat>, x: multiset<nat>, y: multiset<nat>)
    ensures a + b + c + x + y == a + (b + x) + (c + y)
    ensures a + b + c + y == a + b + (c + y)
  {
  }

  // Closing one server

  /** The server is out of the map and `done` of its children are closed. */
  ghost function HalfClosed(s: State, sid: ConnectionId, done: set<ConnectionId>): State
    requires sid in s.servers
  {
    s.(streams := s.streams - done,
       servers := s.servers - {sid},
       labels := s.labels - LabelsAmong(s, done),
       host := s.host.(aborted := s.host.aborted + multiset{s.servers[sid].acceptTask}
                                  + multiset(ReadersAmong(s, done))))
  }

  lemma HalfClosedNone(s: State, sid: ConnectionId)
    requires sid in s.servers
    ensures HalfClosed(s, sid, {})
            == s.(servers := s.servers - {sid},
                  host := s.host.(aborted := s.host.aborted + multiset{s.servers[sid].acceptTask}))
  {
    assert ReadersAmong(s, {}) == {} && LabelsAmong(s, {}) == {};
    assert s.streams - {} == s.streams && s.labels - {} == s.labels;
  }

  /** One more stream among those that are gone: its reader is new, its label is its own. */
  lemma OneMoreGone(s: State, done: set<ConnectionId>, c: ConnectionId)
    requires Inv(s) && c in s.streams && c !in done
    ensures s.streams - (done + {c}) == (s.streams - done) - {c}
    ensures LabelsAmong(s, done + {c}) == LabelsAmong(s, done) + LabelSet(s.streams[c].state.alias)
    ensures multiset(ReadersAmong(s, done + {c})) == multiset(ReadersAmong(s, done)) + multiset{s.streams[c].readTask}
  {
    var task := s.streams[c].readTask;
    assert ReadersAmong(s, done + {c}) == ReadersAmong(s, done) + {task};
    if task in ReadersAmong(s, done) {
      var d :| d in done && d in s.streams && s.streams[d].readTask == task;
      ReadersUnique(s, c, d);
    }
    assert task !in ReadersAmong(s, done);
  }

  /** What `OneMoreGone` says of a stream `c`, as a condition. */
  predicate AddsOne(s: State, done: set<ConnectionId>, c: ConnectionId)
    requires c in s.streams
  {
    c !in done
    && s.streams - (done + {c}) == (s.streams - done) - {c}
    && LabelsAmong(s, done + {c}) == LabelsAmong(s, done) + LabelSet(s.streams[c].state.alias)
    && multiset(ReadersAmong(s, done + {c})) == multiset(ReadersAmong(s, done)) + multiset{s.streams[c].readTask}
  }

  lemma MinusLabel(labels: map<string, ConnectionId>, alias: Option<string>)
    ensures (if alias.Some? then labels - {alias.value} else labels) == labels - LabelSet(alias)
  {
    assert labels - {} == labels;
  }

  lemma HalfClosedAdds(s: State, sid: ConnectionId, done: set<ConnectionId>, c: ConnectionId)
    requires sid in s.servers && c in s.streams && s.streams[c].parent == Some(sid) && AddsOne(s, done, c)
    ensures DropStream(HalfClosed(s, sid, done), c) == HalfClosed(s, sid, done + {c})
  {
    var h, alias := HalfClosed(s, sid, done), s.streams[c].state.alias;
    MinusLabel(h.labels, alias);
    assert s.labels - (LabelsAmong(s, done) + LabelSet(alias)) == (s.labels - LabelsAmong(s, done)) - LabelSet(alias);
  }

  lemma HalfClosedOneMore(s: State, sid: ConnectionId, done: set<ConnectionId>, c: ConnectionId)
    requires Inv(s) && sid in s.servers && c in s.servers[sid].children && c !in done
    ensures DropStream(HalfClosed(s, sid, done), c) == HalfClosed(s, sid, done + {c})
  {
    OwnChildren(s, sid);
    OneMoreGone(s, done, c);
    HalfClosedAdds(s, sid, done, c);
  }

  lemma HalfClosedAll(s: State, sid: ConnectionId)
    requires sid in s.servers
    ensures var h, srv := HalfClosed(s, sid, s.servers[sid].children), s.servers[sid];
            DropServer(s, sid)
            == h.(labels := h.labels - LabelSet(srv.state.alias),
                  host := h.host.(unlinked := h.host.unlinked + PathSet(srv.ipcPath)))
  {
  }

  // Shutdown

  ghost function ChildrenOfAll(s: State, sids: set<ConnectionId>): set<ConnectionId> {
    set id | id in s.streams && s.streams[id].parent.Some? && s.streams[id].parent.value in sids
  }

  ghost function ServerLabels(s: State, sids: set<ConnectionId>): set<string> {
    set sid | sid in sids && sid in s.servers && s.servers[sid].state.alias.Some? :: s.servers[sid].state.alias.value
  }

  ghost function Acceptors(s: State, sids: set<ConnectionId>): set<nat> {
    set sid | sid in sids && sid in s.servers :: s.servers[sid].acceptTask
  }

  ghost function Files(s: State, sids: set<ConnectionId>): set<string> {
    set sid | sid in sids && sid in s.servers && s.servers[sid].ipcPath.Some? :: s.servers[sid].ipcPath.value
  }

  /** The servers `sids` and the streams `gone` are closed, in whatever order. */
  ghost function Torn(s: State, sids: set<ConnectionId>, gone: set<ConnectionId>): State {
    s.(streams := s.streams - gone,
       servers := s.servers - sids,
       labels := s.labels - LabelsAmong(s, gone) - ServerLabels(s, sids),
       host := s.host.(aborted := s.host.aborted + multiset(Acceptors(s, sids)) + multiset(ReadersAmong(s, gone)),
                       unlinked := s.host.unlinked + multiset(Files(s, sids))))
  }

  lemma TornNone(s: State)
    ensures ChildrenOfAll(s, {}) == {} && Torn(s, {}, {}) == s
  {
    assert ReadersAmong(s, {}) == {} && LabelsAmong(s, {}) == {} && ServerLabels(s, {}) == {};
    assert Acceptors(s, {}) == {} && Files(s, {}) == {};
    assert s.streams - {} == s.streams && s.servers - {} == s.servers;
    assert s.labels - {} - {} == s.labels;
  }

  lemma TornAdds(s: State, gone: set<ConnectionId>, id: ConnectionId)
    requires id in s.streams && AddsOne(s, gone, id)
    ensures DropStream(Torn(s, s.servers.Keys, gone), id) == Torn(s, s.servers.Keys, gone + {id})
  {
    var t, alias := Torn(s, s.servers.Keys, gone), s.streams[id].state.alias;
    MinusLabel(t.labels, alias);
    SumOrder(s.host.aborted, multiset(Acceptors(s, s.servers.Keys)), multiset(ReadersAmong(s, gone)),
             multiset{}, multiset{s.streams[id].readTask});
    var kept := ServerLabels(s, s.servers.Keys);
    assert s.labels - (LabelsAmong(s, gone) + LabelSet(alias)) - kept
        == s.labels - LabelsAmong(s, gone) - kept - LabelSet(alias);
    assert s.servers - s.servers.Keys == map[];
  }

  lemma TornOneStream(s: State, gone: set<ConnectionId>, id: ConnectionId)
    requires Inv(s) && id in s.streams && id !in gone
    ensures DropStream(Torn(s, s.servers.Keys, gone), id) == Torn(s, s.servers.Keys, gone + {id})
  {
    OneMoreGone(s, gone, id);
    TornAdds(s, gone, id);
  }

  lemma TornAll(s: State)
    requires Inv(s)
    ensures Torn(s, s.servers.Keys, s.streams.Keys) == Shutdown(s)
  {
    assert s.streams - s.streams.Keys == map[] && s.servers - s.servers.Keys == map[];
    assert Acceptors(s, s.servers.Keys) == AcceptTasks(s);
    assert Files(s, s.servers.Keys) == SocketFiles(s);
    var all := LabelsAmong(s, s.streams.Keys) + ServerLabels(s, s.servers.Keys);
    assert all == LiveLabels(s) by {
      forall name | name in all ensures name in LiveLabels(s) {
        if name in LabelsAmong(s, s.streams.Keys) {
          var id :| id in s.streams && s.streams[id].state.alias == Some(name);
          assert s.LabelOf(id) == Some(name);
        } else {
          var sid :| sid in s.servers && s.servers[sid].state.alias == Some(name);
          assert sid !in s.streams by {
            assert ServerOk(s, sid);
            assert forall id | id in s.streams :: StreamOk(s, id);
          }
          assert s.LabelOf(sid) == Some(name);
        }
      }
      forall name | name in LiveLabels(s) ensures name in all {
        var id :| id in s.streams.Keys + s.servers.Keys && s.LabelOf(id) == Some(name);
      }
    }
    assert s.labels - LabelsAmong(s, s.streams.Keys) - ServerLabels(s, s.servers.Keys) == s.labels - all;
  }

  /** How the parts of a torn state change when one more server goes with its children. */
  ghost predicate AddsServer(s: State, sids: set<ConnectionId>, sid: ConnectionId)
    requires sid in s.servers
  {
    var srv, before := s.servers[sid], ChildrenOfAll(s, sids);
    ChildrenOfAll(s, sids + {sid}) == before + srv.children && before !! srv.children && sid !in sids
    && multiset(ReadersAmong(s, before + srv.children))
       == multiset(ReadersAmong(s, before)) + multiset(ReadersAmong(s, srv.children))
    && multiset(Acceptors(s, sids + {sid})) == multiset(Acceptors(s, sids)) + multiset{srv.acceptTask}
    && multiset(Files(s, sids + {sid})) == multiset(Files(s, sids)) + PathSet(srv.ipcPath)
  }

  lemma TornServerLabels(s: State, sids: set<ConnectionId>, sid: ConnectionId)
    requires sid in s.servers && AddsServer(s, sids, sid)
    ensures var t, srv := Torn(s, sids, ChildrenOfAll(s, sids)), s.servers[sid];
            t.labels - LabelsAmong(t, srv.children) - LabelSet(srv.state.alias)
            == Torn(s, sids + {sid}, ChildrenOfAll(s, sids + {sid})).labels
  {
    var srv, before := s.servers[sid], ChildrenOfAll(s, sids);
    var t := Torn(s, sids, before);
    assert LabelsAmong(t, srv.children) == LabelsAmong(s, srv.children);
    assert LabelsAmong(s, before + srv.children) == LabelsAmong(s, before) + LabelsAmong(s, srv.children);
    assert ServerLabels(s, sids + {sid}) == ServerLabels(s, sids) + LabelSet(srv.state.alias);
  }

  lemma TornAddsServer(s: State, sids: set<ConnectionId>, sid: ConnectionId)
    requires sid in s.servers && AddsServer(s, sids, sid)
    ensures DropServer(Torn(s, sids, ChildrenOfAll(s, sids)), sid)
            == Torn(s, sids + {sid}, ChildrenOfAll(s, sids + {sid}))
  {
    var srv, before := s.servers[sid], ChildrenOfAll(s, sids);
    var t := Torn(s, sids, before);
    TornServerLabels(s, sids, sid);
    TornServerHost(s, sids, sid);
    assert t.servers[sid] == srv;
    assert t.streams - srv.children == s.streams - (before + srv.children);
    assert t.servers - {sid} == s.servers - (sids + {sid});
  }

  lemma TornServerHost(s: State, sids: set<ConnectionId>, sid: ConnectionId)
    requires sid in s.servers && AddsServer(s, sids, sid)
    ensures DropServer(Torn(s, sids, ChildrenOfAll(s, sids)), sid).host
            == Torn(s, sids + {sid}, ChildrenOfAll(s, sids + {sid})).host
  {
    var srv, before := s.servers[sid], ChildrenOfAll(s, sids);
    var t := Torn(s, sids, before);
    assert t.servers[sid] == srv;
    assert ReadersAmong(t, srv.children) == ReadersAmong(s, srv.children);
    SumOrder(s.host.aborted, multiset(Acceptors(s, sids)), multiset(ReadersAmong(s, before)),
             multiset{srv.acceptTask}, multiset(ReadersAmong(s, srv.children)));
    assert (s.host.unlinked + multiset(Files(s, sids))) + PathSet(srv.ipcPath)
        == s.host.unlinked + (multiset(Files(s, sids)) + PathSet(srv.ipcPath));
  }

  lemma TornOneServer(s: State, sids: set<ConnectionId>, sid: ConnectionId)
    requires Inv(s) && sid in s.servers && sid !in sids
    ensures DropServer(Torn(s, sids, ChildrenOfAll(s, sids)), sid)
            == Torn(s, sids + {sid}, ChildrenOfAll(s, sids + {sid}))
  {
    OwnChildren(s, sid);
    TornServerTasks(s, sids, sid);
    TornAddsServer(s, sids, sid);
  }

  lemma OwnChildren(s: State, sid: ConnectionId)
    requires Shape(s) && sid in s.servers
    ensures s.servers[sid].children == set id | id in s.streams && s.streams[id].parent == Some(sid)
  {
    assert ServerOk(s, sid);
    forall id | id in s.streams ensures StreamOk(s, id) {
    }
  }

  lemma TornServerTasks(s: State, sids: set<ConnectionId>, sid: ConnectionId)
    requires Inv(s) && sid in s.servers && sid !in sids
    ensures var before, children := ChildrenOfAll(s, sids), s.servers[sid].children;
            multiset(ReadersAmong(s, before + children))
            == multiset(ReadersAmong(s, before)) + multiset(ReadersAmong(s, children))
    ensures multiset(Acceptors(s, sids + {sid})) == multiset(Acceptors(s, sids)) + multiset{s.servers[sid].acceptTask}
    ensures multiset(Files(s, sids + {sid})) == multiset(Files(s, sids)) + PathSet(s.servers[sid].ipcPath)
  {
    var before, children := ChildrenOfAll(s, sids), s.servers[sid].children;
    OwnChildren(s, sid);
    forall task | task in ReadersAmong(s, before) ensures task !in ReadersAmong(s, children) {
      var a :| a in before && a in s.streams && s.streams[a].readTask == task;
      if task in ReadersAmong(s, children) {
        var b :| b in children && b in s.streams && s.streams[b].readTask == task;
        ReadersUnique(s, a, b);
      }
    }
    assert ReadersAmong(s, before + children) == ReadersAmong(s, before) + ReadersAmong(s, children);
    assert AcceptorOk(s.host, sid, s.servers[sid].acceptTask);
    forall other | other in sids && other in s.servers
      ensures s.servers[other].acceptTask != s.servers[sid].acceptTask
    {
      assert AcceptorOk(s.host, other, s.servers[other].acceptTask);
    }
    assert Acceptors(s, sids + {sid}) == Acceptors(s, sids) + {s.servers[sid].acceptTask};
    assert ServerOk(s, sid);
    forall other | other in sids && other in s.servers && s.servers[other].ipcPath.Some?
      ensures s.servers[other].ipcPath != s.servers[sid].ipcPath
    {
      assert ServerOk(s, other);
    }
    var path := s.servers[sid].ipcPath;
    assert Files(s, sids + {sid}) == Files(s, sids) + (if path.Some? then {path.value} else {});
  }

  // Broadcast

  lemma BroadcastToNone(s: State, bytes: seq<U8>, writes: map<ConnectionId, WriteOutcome>)
    ensures Broadcast(s, {}, [], bytes, writes) == s
  {
    assert Broadcast(s, {}, [], bytes, writes).streams == s.streams;
  }

  /** A broadcast so far has left `c`, its label and its standing alone. */
  lemma NotYetWritten(s: State, ids: set<ConnectionId>, order: seq<ConnectionId>, bytes: seq<U8>,
                      writes: map<ConnectionId, WriteOutcome>, c: ConnectionId)
    requires c !in ids
    ensures var before := Broadcast(s, ids, order, bytes, writes);
            var outcome := OutcomeOf(writes, c);
            WriteResult(before, c, outcome) == WriteResult(s, c, outcome)
            && WriteTo(before, c, bytes, outcome).DisplayName(c) == s.DisplayName(c)
            && WriteTo(before, c, bytes, outcome).streams
               == Broadcast(s, ids + {c}, order, bytes, writes).streams
  {
    var before := Broadcast(s, ids, order, bytes, writes);
    assert c in s.streams ==> before.streams[c] == s.streams[c];
    var written := WriteTo(before, c, bytes, OutcomeOf(writes, c)).streams;
    var after := Broadcast(s, ids + {c}, order, bytes, writes).streams;
    assert written.Keys == after.Keys;
    assert forall id | id in written :: written[id] == after[id];
  }

  /** Writing to the next child changes that child and adds its error line, if any. */
  lemma BroadcastToOneMore(s: State, order: seq<ConnectionId>, k: nat, bytes: seq<U8>,
                           writes: map<ConnectionId, WriteOutcome>)
    requires NoRepeats(order) && k < |order|
    ensures var before := Broadcast(s, Members(order[..k]), order[..k], bytes, writes);
            var c, outcome := order[k], OutcomeOf(writes, order[k]);
            var r := WriteResult(before, c, outcome);
            var written := WriteTo(before, c, bytes, outcome);
            Broadcast(s, Members(order[..k + 1]), order[..k + 1], bytes, writes)
            == if r.Ok? then written else written.Show(SendFailure(written.DisplayName(c), r.error))
  {
    var ids, c := Members(order[..k]), order[k];
    assert Members(order[..k + 1]) == ids + {c};
    assert order[..k + 1][..k] == order[..k];
    NotYetWritten(s, ids, order[..k], bytes, writes, c);
    assert Broadcast(s, ids + {c}, order[..k + 1], bytes, writes).streams
        == Broadcast(s, ids + {c}, order[..k], bytes, writes).streams;
  }
}
