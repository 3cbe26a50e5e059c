// Every registry operation keeps the invariant.
module Preservation {
  import opened Prelude
  import opened Ids
  import opened Model
  import opened Invariants
  import opened Machine

  lemma EmptyInv()
    ensures Inv(EMPTY)
  {
  }

  /** Two states that differ in bytes written and lines shown at most. */
  predicate SameButOutput(s: State, t: State) {
    t.servers == s.servers && t.labels == s.labels && t.nextSeq == s.nextSeq
    && t.host == s.host.(display := t.host.display)
    && t.streams.Keys == s.streams.Keys
    && forall id | id in s.streams :: t.streams[id] == s.streams[id].(output := t.streams[id].output)
  }

  lemma OutputKeepsInv(s: State, t: State)
    requires Inv(s) && SameButOutput(s, t)
    ensures Inv(t)
  {
    assert forall id :: t.LabelOf(id) == s.LabelOf(id) && t.IsLive(id) == s.IsLive(id);
  }

  lemma ShowKeepsInv(s: State, line: Line)
    requires Inv(s)
    ensures Inv(s.Show(line))
  {
    OutputKeepsInv(s, s.Show(line));
  }

  // Frames: what a predicate depends on

  /** The tables of surviving servers are as before and new servers have none. */
  predicate SameTables(s: State, t: State) {
    forall sid | sid in t.servers ::
      if sid in s.servers then
        t.servers[sid].disambigNext == s.servers[sid].disambigNext
        && t.servers[sid].baseNoSuffix == s.servers[sid].baseNoSuffix
      else t.servers[sid].disambigNext == map[] && t.servers[sid].baseNoSuffix == map[]
  }

  lemma TablesFrame(s: State, t: State)
    requires Tables(s) && SameTables(s, t)
    requires forall id | id in t.streams && id.IsAccepted() ::
               Numbered(s.servers, id) && id.BaseOf().Server() in t.servers
    ensures Tables(t)
  {
    forall base: Base | base.Server() in t.servers ensures TableOk(t.servers[base.Server()], base) {
      if base.Server() in s.servers {
        assert TableOk(s.servers[base.Server()], base);
      }
    }
    forall id | id in t.streams && id.IsAccepted() ensures Numbered(t.servers, id) {
      assert Numbered(s.servers, id);
    }
  }

  /** Streams with their readers and servers with their acceptors are old or freshly spawned. */
  lemma SpawnKeepsTasks(s: State, t: State, task: Task)
    requires Tasks(s) && t.host == s.Spawn(task).host
    requires task.ReadTask? ==> !task.readId.IsRenamed() && !task.readId.IsServer()
    requires forall id | id in t.streams ::
               (id in s.streams && t.streams[id].readTask == s.streams[id].readTask)
               || (task == ReadTask(id) && t.streams[id].readTask == |s.host.tasks|)
    requires forall sid | sid in t.servers ::
               (sid in s.servers && t.servers[sid].acceptTask == s.servers[sid].acceptTask)
               || (task == AcceptTask(sid) && t.servers[sid].acceptTask == |s.host.tasks|)
    ensures Tasks(t)
  {
    forall id | id in t.streams ensures ReaderOk(t.host, id, t.streams[id].readTask) {
      assert id in s.streams ==> ReaderOk(s.host, id, s.streams[id].readTask);
    }
    forall sid | sid in t.servers ensures AcceptorOk(t.host, sid, t.servers[sid].acceptTask) {
      assert sid in s.servers ==> AcceptorOk(s.host, sid, s.servers[sid].acceptTask);
    }
  }

  // Opening

  lemma OpenServerKeepsInv(s: State, sid: ConnectionId, path: Option<string>)
    requires Inv(s) && sid.IsServer() && sid !in s.servers
    requires path == if sid.IpcServer? then Some(sid.path) else None
    ensures Inv(OpenServer(s, sid, path))
  {
    var t := OpenServer(s, sid, path);
    OpenServerKeepsShape(s, sid, path);
    TablesFrame(s, t);
    OpenServerKeepsTasks(s, sid, path);
    OpenServerKeepsLabels(s, sid, path);
  }

  lemma OpenServerKeepsShape(s: State, sid: ConnectionId, path: Option<string>)
    requires Shape(s) && sid.IsServer() && sid !in s.servers
    requires path == if sid.IpcServer? then Some(sid.path) else None
    ensures Shape(OpenServer(s, sid, path))
  {
    var t := OpenServer(s, sid, path);
    forall id | id in t.streams ensures StreamOk(t, id) {
      assert StreamOk(s, id);
    }
    forall other | other in t.servers ensures ServerOk(t, other) {
      assert other != sid ==> ServerOk(s, other);
    }
  }

  lemma OpenServerKeepsTasks(s: State, sid: ConnectionId, path: Option<string>)
    requires Tasks(s)
    ensures Tasks(OpenServer(s, sid, path))
  {
    var t := OpenServer(s, sid, path);
    SpawnKeepsTasks(s, t.(host := s.Spawn(AcceptTask(sid)).host), AcceptTask(sid));
  }

  lemma OpenServerKeepsLabels(s: State, sid: ConnectionId, path: Option<string>)
    requires Labels(s) && Shape(s) && sid.IsServer()
    ensures Labels(OpenServer(s, sid, path))
  {
    var t := OpenServer(s, sid, path);
    assert sid !in s.streams by {
      assert forall id | id in s.streams :: StreamOk(s, id);
    }
    forall c | t.IsLive(c) && t.LabelOf(c).Some?
      ensures t.LabelOf(c).value in t.labels && c.AnchoredAt(t.labels[t.LabelOf(c).value])
    {
      assert c != sid && s.IsLive(c) && s.LabelOf(c) == t.LabelOf(c);
    }
  }

  /** Inserting a stream, also over one that is live under the same id. */
  lemma OpenStreamKeepsInv(s: State, id: ConnectionId, peer: PeerInfo)
    requires Inv(s) && !id.IsServer() && !id.IsRenamed()
    requires id.IsAccepted() ==> Numbered(s.servers, id)
    requires id.IpcClient? ==> 1 <= id.seqNo <= s.nextSeq && (id.seqNo == s.nextSeq ==> s.nextSeq == U32_MAX)
    ensures Inv(OpenStream(s, id, peer, id.Parent()))
  {
    OpenStreamKeepsShape(s, id, peer);
    OpenStreamKeepsTables(s, id, peer);
    OpenStreamKeepsTasks(s, id, peer);
    OpenStreamKeepsLabels(s, id, peer);
  }

  lemma OpenStreamKeepsTables(s: State, id: ConnectionId, peer: PeerInfo)
    requires Tables(s) && (id.IsAccepted() ==> Numbered(s.servers, id))
    ensures Tables(OpenStream(s, id, peer, id.Parent()))
  {
    TablesFrame(s, OpenStream(s, id, peer, id.Parent()));
  }

  lemma OpenStreamKeepsTasks(s: State, id: ConnectionId, peer: PeerInfo)
    requires Tasks(s) && !id.IsServer() && !id.IsRenamed()
    ensures Tasks(OpenStream(s, id, peer, id.Parent()))
  {
    SpawnKeepsTasks(s, OpenStream(s, id, peer, id.Parent()), ReadTask(id));
  }

  lemma OpenStreamKeepsLabels(s: State, id: ConnectionId, peer: PeerInfo)
    requires Labels(s)
    ensures Labels(OpenStream(s, id, peer, id.Parent()))
  {
    var t := OpenStream(s, id, peer, id.Parent());
    forall c | t.IsLive(c) && t.LabelOf(c).Some?
      ensures t.LabelOf(c).value in t.labels && c.AnchoredAt(t.labels[t.LabelOf(c).value])
    {
      assert c != id && s.IsLive(c) && s.LabelOf(c) == t.LabelOf(c);
    }
  }

  lemma OpenStreamKeepsShape(s: State, id: ConnectionId, peer: PeerInfo)
    requires Shape(s) && !id.IsServer() && (id.IsAccepted() ==> id.BaseOf().Server() in s.servers)
    ensures Shape(OpenStream(s, id, peer, id.Parent()))
  {
    var t := OpenStream(s, id, peer, id.Parent());
    forall c | c in t.streams ensures StreamOk(t, c) {
      assert c != id ==> StreamOk(s, c);
    }
    forall sid | sid in t.servers ensures ServerOk(t, sid) {
      assert ServerOk(s, sid);
    }
  }

  // Closing

  lemma DropStreamKeepsInv(s: State, id: ConnectionId)
    requires Inv(s)
    ensures Inv(DropStream(s, id))
  {
    if id in s.streams {
      var t := DropStream(s, id);
      DropStreamKeepsShape(s, id);
      TablesFrame(s, t);
      DropStreamKeepsTasks(s, id);
      DropStreamKeepsLabels(s, id);
    }
  }

  lemma DropStreamKeepsShape(s: State, id: ConnectionId)
    requires Shape(s)
    ensures Shape(DropStream(s, id))
  {
    if id in s.streams {
      var t := DropStream(s, id);
      assert StreamOk(s, id);
      forall c | c in t.streams ensures StreamOk(t, c) {
        assert StreamOk(s, c);
      }
      forall sid | sid in t.servers ensures ServerOk(t, sid) {
        assert ServerOk(s, sid);
      }
    }
  }

  lemma DropStreamKeepsTasks(s: State, id: ConnectionId)
    requires Inv(s)
    ensures Tasks(DropStream(s, id))
  {
    if id in s.streams {
      var t := DropStream(s, id);
      var task := s.streams[id].readTask;
      assert ReaderOk(s.host, id, task);
      forall c | c in t.streams ensures ReaderOk(t.host, c, t.streams[c].readTask) {
        assert ReaderOk(s.host, c, s.streams[c].readTask);
        if s.streams[c].readTask == task {
          ReadersUnique(s, c, id);
        }
      }
      forall sid | sid in t.servers ensures AcceptorOk(t.host, sid, t.servers[sid].acceptTask) {
        assert AcceptorOk(s.host, sid, s.servers[sid].acceptTask);
      }
    }
  }

  lemma DropStreamKeepsLabels(s: State, id: ConnectionId)
    requires Inv(s)
    ensures Labels(DropStream(s, id))
  {
    if id in s.streams {
      var t := DropStream(s, id);
      assert StreamOk(s, id);
      forall c | t.IsLive(c) && t.LabelOf(c).Some?
        ensures t.LabelOf(c).value in t.labels && c.AnchoredAt(t.labels[t.LabelOf(c).value])
      {
        assert s.LabelOf(c) == t.LabelOf(c);
        if s.LabelOf(c) == s.LabelOf(id) {
          LabelsUnique(s, c, id);
        }
      }
    }
  }

  lemma DropServerKeepsInv(s: State, sid: ConnectionId)
    requires Inv(s)
    ensures Inv(DropServer(s, sid))
  {
    if sid in s.servers {
      var t := DropServer(s, sid);
      var srv := s.servers[sid];
      assert ServerOk(s, sid);
      assert Shape(t) by {
        forall c | c in t.streams ensures StreamOk(t, c) {
          assert StreamOk(s, c);
        }
        forall other | other in t.servers ensures ServerOk(t, other) {
          assert ServerOk(s, other);
        }
      }
      TablesFrame(s, t);
      DropServerKeepsTasks(s, sid);
      DropServerKeepsLabels(s, sid);
    }
  }

  /** The readers of a server's children read for nobody else, and none of them accepts for a server. */
  lemma ChildrensReaders(s: State, sid: ConnectionId, task: nat)
    requires Inv(s) && sid in s.servers && task in ReadersAmong(s, s.servers[sid].children)
    ensures task < |s.host.tasks| && s.host.tasks[task].ReadTask? && task !in s.host.aborted
    ensures forall c | c in s.streams && s.streams[c].readTask == task :: c in s.servers[sid].children
  {
    var d :| d in s.servers[sid].children && d in s.streams && s.streams[d].readTask == task;
    assert ReaderOk(s.host, d, task);
    forall c | c in s.streams && s.streams[c].readTask == task ensures c == d {
      ReadersUnique(s, c, d);
    }
  }

  lemma DropServerKeepsReaders(s: State, sid: ConnectionId, c: ConnectionId)
    requires Inv(s) && sid in s.servers && c in DropServer(s, sid).streams
    ensures ReaderOk(DropServer(s, sid).host, c, s.streams[c].readTask)
  {
    assert ReaderOk(s.host, c, s.streams[c].readTask);
    assert AcceptorOk(s.host, sid, s.servers[sid].acceptTask);
    if s.streams[c].readTask in ReadersAmong(s, s.servers[sid].children) {
      ChildrensReaders(s, sid, s.streams[c].readTask);
    }
  }

  lemma DropServerKeepsAcceptors(s: State, sid: ConnectionId, other: ConnectionId)
    requires Inv(s) && sid in s.servers && other in DropServer(s, sid).servers
    ensures AcceptorOk(DropServer(s, sid).host, other, s.servers[other].acceptTask)
  {
    assert AcceptorOk(s.host, other, s.servers[other].acceptTask);
    assert AcceptorOk(s.host, sid, s.servers[sid].acceptTask);
    if s.servers[other].acceptTask in ReadersAmong(s, s.servers[sid].children) {
      ChildrensReaders(s, sid, s.servers[other].acceptTask);
    }
  }

  lemma DropServerAborts(s: State, sid: ConnectionId, task: nat)
    requires Inv(s) && sid in s.servers
    ensures var aborted := DropServer(s, sid).host.aborted;
            aborted[task] <= 1 && (task in aborted ==> task < |s.host.tasks|)
  {
    assert AcceptorOk(s.host, sid, s.servers[sid].acceptTask);
    if task in ReadersAmong(s, s.servers[sid].children) {
      ChildrensReaders(s, sid, task);
    }
  }

  lemma DropServerKeepsTasks(s: State, sid: ConnectionId)
    requires Inv(s) && sid in s.servers
    ensures Tasks(DropServer(s, sid))
  {
    var t := DropServer(s, sid);
    forall c | c in t.streams ensures ReaderOk(t.host, c, t.streams[c].readTask) {
      DropServerKeepsReaders(s, sid, c);
    }
    forall other | other in t.servers ensures AcceptorOk(t.host, other, t.servers[other].acceptTask) {
      DropServerKeepsAcceptors(s, sid, other);
    }
    forall task: nat ensures t.host.aborted[task] <= 1 && (task in t.host.aborted ==> task < |t.host.tasks|) {
      DropServerAborts(s, sid, task);
    }
  }

  lemma DropServerKeepsLabels(s: State, sid: ConnectionId)
    requires Inv(s) && sid in s.servers
    ensures Labels(DropServer(s, sid))
  {
    var t := DropServer(s, sid);
    var srv := s.servers[sid];
    assert ServerOk(s, sid);
    forall c | t.IsLive(c) && t.LabelOf(c).Some?
      ensures t.LabelOf(c).value in t.labels && c.AnchoredAt(t.labels[t.LabelOf(c).value])
    {
      assert s.LabelOf(c) == t.LabelOf(c) by {
        if c in s.streams {
          assert StreamOk(s, c);
        }
      }
      var name := t.LabelOf(c).value;
      if name in LabelsAmong(s, srv.children) {
        var d :| d in srv.children && d in s.streams && s.streams[d].state.alias == Some(name);
        LabelsUnique(s, c, d);
      }
      if srv.state.alias == Some(name) {
        assert sid !in s.streams by {
          assert forall c | c in s.streams :: StreamOk(s, c);
        }
        LabelsUnique(s, c, sid);
      }
    }
  }

  // Labels

  predicate SameStreamButLabel(h: StreamHandle, h': StreamHandle) {
    h'.state.id == h.state.id && h'.state.status == h.state.status && h'.readTask == h.readTask && h'.parent == h.parent
  }

  predicate SameServerButLabel(srv: ServerHandle, srv': ServerHandle) {
    srv'.state.id == srv.state.id && srv'.state.status == srv.state.status
    && srv'.acceptTask == srv.acceptTask && srv'.children == srv.children && srv'.ipcPath == srv.ipcPath
    && srv'.disambigNext == srv.disambigNext && srv'.baseNoSuffix == srv.baseNoSuffix
  }

  /** As far as all but the labels are concerned, two states are the same. */
  predicate SameButLabels(s: State, t: State) {
    t.host == s.host && t.nextSeq == s.nextSeq
    && t.streams.Keys == s.streams.Keys && t.servers.Keys == s.servers.Keys
    && (forall id | id in s.streams :: SameStreamButLabel(s.streams[id], t.streams[id]))
    && (forall sid | sid in s.servers :: SameServerButLabel(s.servers[sid], t.servers[sid]))
  }

  lemma LabelsDoNotMatter(s: State, t: State)
    requires SameButLabels(s, t) && Shape(s) && Tables(s) && Tasks(s) && Sequences(s)
    ensures Shape(t) && Tables(t) && Tasks(t) && Sequences(t)
  {
    forall c | c in t.streams ensures StreamOk(t, c) {
      assert StreamOk(s, c);
    }
    forall sid | sid in t.servers ensures ServerOk(t, sid) {
      assert ServerOk(s, sid);
    }
    TablesFrame(s, t);
  }

  lemma ApplyLabelKeepsInv(s: State, id: ConnectionId, name: string)
    requires Inv(s)
    ensures Inv(ApplyLabel(s, id, name).0)
  {
    ApplyLabelChangesLabels(s, id, name);
    LabelsDoNotMatter(s, ApplyLabel(s, id, name).0);
    ApplyLabelKeepsLabels(s, id, name);
  }

  lemma SetLabelChangesLabels(s: State, id: ConnectionId, name: string, labels: map<string, ConnectionId>)
    requires s.IsLive(id)
    ensures SameButLabels(s, SetLabel(s, id, name).(labels := labels))
  {
    if id in s.streams {
      assert SetLabel(s, id, name).servers == s.servers;
    } else {
      assert SetLabel(s, id, name).streams == s.streams;
    }
  }

  lemma ApplyLabelChangesLabels(s: State, id: ConnectionId, name: string)
    ensures SameButLabels(s, ApplyLabel(s, id, name).0)
  {
    var t := ApplyLabel(s, id, name).0;
    if ApplyLabel(s, id, name).1.Ok? {
      SetLabelChangesLabels(s, id, name, t.labels);
    }
  }

  lemma ApplyLabelKeepsLabels(s: State, id: ConnectionId, name: string)
    requires Inv(s)
    ensures Labels(ApplyLabel(s, id, name).0)
  {
    var (t, r) := ApplyLabel(s, id, name);
    if r.Ok? {
      forall c | t.IsLive(c) && t.LabelOf(c).Some?
        ensures t.LabelOf(c).value in t.labels && c.AnchoredAt(t.labels[t.LabelOf(c).value])
      {
        if c != id {
          assert t.LabelOf(c) == s.LabelOf(c);
          if s.LabelOf(c) == s.LabelOf(id) {
            LabelsUnique(s, c, id);
          }
          if s.LabelOf(c) == Some(name) {
            AnchorUnique(s, c, id, id);
          }
        }
      }
    }
  }

  // Numbering

  /** Changing the tables of one server, each in keeping with the streams under it. */
  lemma WithTablesKeepsInv(s: State, base: Base, next: map<string, U32>, plain: map<string, ConnectionId>)
    requires Inv(s) && base.Server() in s.servers
    requires var srv := s.servers[base.Server()];
             TableOk(srv.(disambigNext := next, baseNoSuffix := plain), base)
             && next - {base.Key()} == srv.disambigNext - {base.Key()}
             && plain - {base.Key()} == srv.baseNoSuffix - {base.Key()}
    requires forall id | id in s.streams && id.IsAccepted() && id.BaseOf() == base ::
               Numbered(WithTables(s, base.Server(), next, plain).servers, id)
    ensures Inv(WithTables(s, base.Server(), next, plain))
  {
    var t := WithTables(s, base.Server(), next, plain);
    assert forall c :: t.LabelOf(c) == s.LabelOf(c) && t.IsLive(c) == s.IsLive(c);
    assert Shape(t) by {
      forall c | c in t.streams ensures StreamOk(t, c) {
        assert StreamOk(s, c);
      }
      forall sid | sid in t.servers ensures ServerOk(t, sid) {
        assert ServerOk(s, sid);
      }
    }
    assert Tables(t) by {
      forall b: Base | b.Server() in t.servers ensures TableOk(t.servers[b.Server()], b) {
        OtherEntry(s, base, b, next, plain);
      }
      forall c | c in t.streams && c.IsAccepted() ensures Numbered(t.servers, c) {
        OtherEntry(s, base, c.BaseOf(), next, plain);
        assert Numbered(s.servers, c);
      }
    }
    assert Tasks(t);
    assert Labels(t);
  }

  lemma OtherEntry(s: State, base: Base, b: Base, next: map<string, U32>, plain: map<string, ConnectionId>)
    requires Tables(s) && base.Server() in s.servers && b.Server() in s.servers
    requires var srv := s.servers[base.Server()];
             next - {base.Key()} == srv.disambigNext - {base.Key()}
             && plain - {base.Key()} == srv.baseNoSuffix - {base.Key()}
    ensures b != base ==>
              var was, now := s.servers[b.Server()], WithTables(s, base.Server(), next, plain).servers[b.Server()];
              TableOk(was, b)
              && (b.Key() in now.disambigNext <==> b.Key() in was.disambigNext)
              && (b.Key() in now.baseNoSuffix <==> b.Key() in was.baseNoSuffix)
              && (b.Key() in now.disambigNext ==> now.disambigNext[b.Key()] == was.disambigNext[b.Key()])
              && (b.Key() in now.baseNoSuffix ==> now.baseNoSuffix[b.Key()] == was.baseNoSuffix[b.Key()])
  {
    if b != base {
      assert TableOk(s.servers[b.Server()], b);
      if b.Server() == base.Server() {
        if b.Key() == base.Key() {
          KeyInjective(b, base);
        }
        var srv := s.servers[base.Server()];
        var k := b.Key();
        assert k in next <==> k in next - {base.Key()};
        assert k in srv.disambigNext <==> k in srv.disambigNext - {base.Key()};
        assert k in plain <==> k in plain - {base.Key()};
        assert k in srv.baseNoSuffix <==> k in srv.baseNoSuffix - {base.Key()};
        assert k in next ==> (next - {base.Key()})[k] == next[k];
        assert k in srv.disambigNext ==> (srv.disambigNext - {base.Key()})[k] == srv.disambigNext[k];
        assert k in plain ==> (plain - {base.Key()})[k] == plain[k];
        assert k in srv.baseNoSuffix ==> (srv.baseNoSuffix - {base.Key()})[k] == srv.baseNoSuffix[k];
      }
    }
  }

  // Renaming: the plain id of a base gives way to its `#1`

  function Collided(s: State, base: Base, seed: U32): State
    requires base.Server() in s.servers
  {
    var srv := s.servers[base.Server()];
    Rename(WithTables(s, base.Server(), srv.disambigNext[base.Key() := seed], srv.baseNoSuffix - {base.Key()}),
           base.Id(None), base.Id(Some(1)))
  }

  /** Before a base collides, only its plain id can be live. */
  lemma OnlyPlainIsLive(s: State, base: Base)
    requires Tables(s) && base.Server() in s.servers && base.Key() in s.servers[base.Server()].baseNoSuffix
    ensures forall id | id in s.streams && id.IsAccepted() && id.BaseOf() == base :: id == base.Id(None)
  {
    assert TableOk(s.servers[base.Server()], base);
    assert forall id | id in s.streams && id.IsAccepted() :: Numbered(s.servers, id);
  }

  lemma NoneIsLive(s: State, base: Base)
    requires Tables(s) && base.Server() in s.servers
    requires base.Key() !in s.servers[base.Server()].baseNoSuffix
    requires base.Key() !in s.servers[base.Server()].disambigNext
    ensures forall id | id in s.streams && id.IsAccepted() :: id.BaseOf() != base
  {
    assert forall id | id in s.streams && id.IsAccepted() :: Numbered(s.servers, id);
  }

  lemma CollidedTables(s: State, base: Base, seed: U32)
    requires Shape(s) && base.Server() in s.servers
    ensures var t, srv := Collided(s, base, seed), s.servers[base.Server()];
            base.Server() in t.servers
            && t.servers[base.Server()].disambigNext == srv.disambigNext[base.Key() := seed]
            && t.servers[base.Server()].baseNoSuffix == srv.baseNoSuffix - {base.Key()}
  {
    assert base.Id(None) in s.streams ==> StreamOk(s, base.Id(None));
  }

  /** The step-by-step second branch of the allocator comes to one renaming and one table change. */
  lemma AllocateCollision(s: State, base: Base, seed: U32)
    requires Inv(s) && base.Server() in s.servers && base.Key() in s.servers[base.Server()].baseNoSuffix
    ensures Allocate(s, base, seed)
            == Ok(Allocation(Collided(s, base, seed), base.Id(Some(2)), Some((base.Id(Some(1)), base.Id(None)))))
  {
    assert TableOk(s.servers[base.Server()], base);
    assert base.Id(None) in s.streams ==> StreamOk(s, base.Id(None));
    CommuteTables(s, base, seed);
  }

  lemma CommuteTables(s: State, base: Base, seed: U32)
    requires base.Server() in s.servers
    requires base.Id(None) in s.streams ==> s.streams[base.Id(None)].parent == Some(base.Server())
    ensures var srv := s.servers[base.Server()];
            var moved := Rename(WithTables(s, base.Server(), srv.disambigNext, srv.baseNoSuffix - {base.Key()}),
                                base.Id(None), base.Id(Some(1)));
            base.Server() in moved.servers
            && var srv2 := moved.servers[base.Server()];
            WithTables(moved, base.Server(), srv2.disambigNext[base.Key() := seed], srv2.baseNoSuffix)
            == Collided(s, base, seed)
  {
    var sid, srv := base.Server(), s.servers[base.Server()];
    var moved := Rename(WithTables(s, sid, srv.disambigNext, srv.baseNoSuffix - {base.Key()}),
                        base.Id(None), base.Id(Some(1)));
    var srv2 := moved.servers[sid];
    assert WithTables(moved, sid, srv2.disambigNext[base.Key() := seed], srv2.baseNoSuffix).servers
        == Collided(s, base, seed).servers;
  }

  lemma RenameKeepsShape(s: State, base: Base)
    requires Shape(s) && base.Id(Some(1)) !in s.streams
    ensures Shape(Rename(s, base.Id(None), base.Id(Some(1))))
  {
    var oldId, first := base.Id(None), base.Id(Some(1));
    if oldId in s.streams {
      var t := Rename(s, oldId, first);
      assert StreamOk(s, oldId);
      forall c | c in t.streams ensures StreamOk(t, c) {
        assert c != first ==> StreamOk(s, c);
      }
      forall sid | sid in t.servers ensures ServerOk(t, sid) {
        assert ServerOk(s, sid);
      }
    }
  }

  lemma RenameKeepsTasks(s: State, base: Base)
    requires Tasks(s)
    ensures Tasks(Rename(s, base.Id(None), base.Id(Some(1))))
  {
    var oldId, first := base.Id(None), base.Id(Some(1));
    if oldId in s.streams {
      var t := Rename(s, oldId, first);
      assert ReaderOk(s.host, oldId, s.streams[oldId].readTask);
      forall c | c in t.streams ensures ReaderOk(t.host, c, t.streams[c].readTask) {
        assert c != first ==> ReaderOk(s.host, c, s.streams[c].readTask);
      }
      forall sid | sid in t.servers ensures AcceptorOk(t.host, sid, t.servers[sid].acceptTask) {
        assert AcceptorOk(s.host, sid, s.servers[sid].acceptTask);
      }
    }
  }

  lemma RenameKeepsLabels(s: State, base: Base)
    requires Labels(s) && Shape(s)
    ensures Labels(Rename(s, base.Id(None), base.Id(Some(1))))
  {
    var oldId, first := base.Id(None), base.Id(Some(1));
    if oldId in s.streams {
      var t := Rename(s, oldId, first);
      forall c | t.IsLive(c) && t.LabelOf(c).Some?
        ensures t.LabelOf(c).value in t.labels && c.AnchoredAt(t.labels[t.LabelOf(c).value])
      {
        if c == first {
          assert s.LabelOf(oldId) == t.LabelOf(c) && s.IsLive(oldId);
        } else {
          assert c in s.servers ==> ServerOk(s, c);
          assert s.IsLive(c) && s.LabelOf(c) == t.LabelOf(c);
        }
      }
    }
  }

  lemma CollidedKeepsTableOk(s: State, base: Base, seed: U32, b: Base)
    requires Inv(s) && base.Server() in s.servers && seed >= 2 && b.Server() in s.servers
    ensures b.Server() in Collided(s, base, seed).servers
    ensures TableOk(Collided(s, base, seed).servers[b.Server()], b)
  {
    var srv, key := s.servers[base.Server()], base.Key();
    var next, plain := srv.disambigNext[key := seed], srv.baseNoSuffix - {key};
    assert next - {key} == srv.disambigNext - {key};
    assert plain - {key} == srv.baseNoSuffix - {key};
    OtherEntry(s, base, b, next, plain);
  }

  lemma CollidedKeepsNumber(s: State, base: Base, seed: U32, c: ConnectionId)
    requires Inv(s) && base.Server() in s.servers && base.Key() in s.servers[base.Server()].baseNoSuffix && seed >= 2
    requires c in Collided(s, base, seed).streams && c.IsAccepted()
    ensures Numbered(Collided(s, base, seed).servers, c)
  {
    var srv, key := s.servers[base.Server()], base.Key();
    var next, plain := srv.disambigNext[key := seed], srv.baseNoSuffix - {key};
    assert next - {key} == srv.disambigNext - {key};
    assert plain - {key} == srv.baseNoSuffix - {key};
    OnlyPlainIsLive(s, base);
    assert c.BaseOf() == base ==> c == base.Id(Some(1));
    if c.BaseOf() != base {
      assert Numbered(s.servers, c);
      OtherEntry(s, base, c.BaseOf(), next, plain);
    }
  }

  lemma CollidedKeepsTables(s: State, base: Base, seed: U32)
    requires Inv(s) && base.Server() in s.servers && base.Key() in s.servers[base.Server()].baseNoSuffix && seed >= 2
    ensures Tables(Collided(s, base, seed))
  {
    var t := Collided(s, base, seed);
    forall b: Base | b.Server() in t.servers ensures TableOk(t.servers[b.Server()], b) {
      CollidedKeepsTableOk(s, base, seed, b);
    }
    forall c | c in t.streams && c.IsAccepted() ensures Numbered(t.servers, c) {
      CollidedKeepsNumber(s, base, seed, c);
    }
  }

  lemma CollidedKeepsInv(s: State, base: Base, seed: U32)
    requires Inv(s) && base.Server() in s.servers && base.Key() in s.servers[base.Server()].baseNoSuffix && seed >= 2
    ensures Inv(Collided(s, base, seed))
  {
    var srv := s.servers[base.Server()];
    var u := WithTables(s, base.Server(), srv.disambigNext[base.Key() := seed], srv.baseNoSuffix - {base.Key()});
    WithTablesKeepsRest(s, base.Server(), u);
    OnlyPlainIsLive(s, base);
    RenameKeepsShape(u, base);
    CollidedKeepsTables(s, base, seed);
    RenameKeepsTasks(u, base);
    RenameKeepsLabels(u, base);
  }

  lemma WithTablesKeepsRest(s: State, sid: ConnectionId, t: State)
    requires Inv(s) && sid in s.servers && sid in t.servers
    requires t == WithTables(s, sid, t.servers[sid].disambigNext, t.servers[sid].baseNoSuffix)
    ensures Shape(t) && Tasks(t) && Labels(t) && Sequences(t)
  {
    forall c | c in t.streams ensures StreamOk(t, c) {
      assert StreamOk(s, c);
    }
    forall other | other in t.servers ensures ServerOk(t, other) {
      assert ServerOk(s, other);
    }
    assert forall c :: t.LabelOf(c) == s.LabelOf(c) && t.IsLive(c) == s.IsLive(c);
  }

  predicate Insertable(s: State, base: Base, id: ConnectionId) {
    id.IsAccepted() && id.BaseOf() == base && !id.IsRenamed() && Numbered(s.servers, id)
  }

  lemma AllocateFirst(s: State, base: Base, seed: U32)
    requires Inv(s) && base.Server() in s.servers
    requires base.Key() !in s.servers[base.Server()].baseNoSuffix
    requires base.Key() !in s.servers[base.Server()].disambigNext
    ensures var a := Allocate(s, base, seed).value;
            Inv(a.state) && Insertable(a.state, base, a.id)
  {
    var srv, key := s.servers[base.Server()], base.Key();
    var plain := srv.baseNoSuffix[key := base.Id(None)];
    assert plain - {key} == srv.baseNoSuffix - {key};
    NoneIsLive(s, base);
    WithTablesKeepsInv(s, base, srv.disambigNext, plain);
  }

  lemma AllocateNext(s: State, base: Base, seed: U32)
    requires Inv(s) && base.Server() in s.servers
    requires var srv := s.servers[base.Server()];
             base.Key() in srv.disambigNext && srv.disambigNext[base.Key()] != U32_MAX
    ensures Allocate(s, base, seed).Ok?
    ensures var a := Allocate(s, base, seed).value;
            Inv(a.state) && Insertable(a.state, base, a.id)
  {
    var srv, key := s.servers[base.Server()], base.Key();
    assert TableOk(srv, base);
    var next := srv.disambigNext[key := srv.disambigNext[key] + 1];
    assert next - {key} == srv.disambigNext - {key};
    forall id | id in s.streams && id.IsAccepted() && id.BaseOf() == base
      ensures Numbered(WithTables(s, base.Server(), next, srv.baseNoSuffix).servers, id)
    {
      assert Numbered(s.servers, id);
    }
    WithTablesKeepsInv(s, base, next, srv.baseNoSuffix);
  }

  lemma AllocateSecond(s: State, base: Base, seed: U32)
    requires Inv(s) && base.Server() in s.servers && base.Key() in s.servers[base.Server()].baseNoSuffix && seed >= 2
    ensures Allocate(s, base, seed).Ok?
    ensures var a := Allocate(s, base, seed).value;
            Inv(a.state) && Insertable(a.state, base, a.id)
  {
    AllocateCollision(s, base, seed);
    CollidedKeepsInv(s, base, seed);
    CollidedTables(s, base, seed);
  }

  /** All three branches of the allocator, and the id that comes out can be inserted. */
  lemma AllocateKeepsInv(s: State, base: Base, seed: U32)
    requires Inv(s) && seed >= 2 && Allocate(s, base, seed).Ok?
    ensures var a := Allocate(s, base, seed).value;
            Inv(a.state) && Insertable(a.state, base, a.id)
  {
    var srv := s.servers[base.Server()];
    if base.Key() in srv.baseNoSuffix {
      AllocateSecond(s, base, seed);
    } else if base.Key() in srv.disambigNext {
      AllocateNext(s, base, seed);
    } else {
      AllocateFirst(s, base, seed);
    }
  }

  /** The allocator leaves the connection, if any, that is live under the new id as it is. */
  lemma AllocateKeepsOwnId(s: State, base: Base, seed: U32)
    requires Inv(s) && Allocate(s, base, seed).Ok?
    ensures var a := Allocate(s, base, seed).value;
            (a.id in a.state.streams <==> a.id in s.streams)
            && (a.id in s.streams ==> a.state.streams[a.id] == s.streams[a.id])
  {
    if base.Key() in s.servers[base.Server()].baseNoSuffix {
      AllocateCollision(s, base, seed);
      OnlyPlainIsLive(s, base);
    }
  }
}
