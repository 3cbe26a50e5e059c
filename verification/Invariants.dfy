// What holds of the registry in every reachable state, overwritten and renamed
// connections included.
module Invariants {
  import opened Prelude
  import opened Ids
  import opened Model

  // The invariant

  /** Keys match ids, nothing live is closed, and parents and children agree. */
  predicate StreamOk(s: State, id: ConnectionId)
    requires id in s.streams
  {
    var h := s.streams[id];
    h.state.id == id && h.state.status == Connected && !id.IsServer()
    && h.parent == id.Parent()
    && (h.parent.Some? ==> h.parent.value in s.servers && id in s.servers[h.parent.value].children)
  }

  predicate ServerOk(s: State, sid: ConnectionId)
    requires sid in s.servers
  {
    var srv := s.servers[sid];
    srv.state.id == sid && srv.state.status == Connected && sid.IsServer()
    && srv.ipcPath == (if sid.IpcServer? then Some(sid.path) else None)
    && forall c | c in srv.children :: c in s.streams && c.Parent() == Some(sid)
  }

  predicate Shape(s: State) {
    (forall id | id in s.streams :: StreamOk(s, id))
    && (forall sid | sid in s.servers :: ServerOk(s, sid))
  }

  /** A base has a plain entry or a counter, never both. */
  predicate TableOk(srv: ServerHandle, base: Base) {
    (base.Key() in srv.baseNoSuffix ==>
       srv.baseNoSuffix[base.Key()] == base.Id(None) && base.Key() !in srv.disambigNext)
    && (base.Key() in srv.disambigNext ==> srv.disambigNext[base.Key()] >= 2)
  }

  /** The number in an accepted id is one that its server's tables account for. */
  predicate Numbered(servers: map<ConnectionId, ServerHandle>, id: ConnectionId)
    requires id.IsAccepted()
  {
    var base := id.BaseOf();
    base.Server() in servers
    && var srv := servers[base.Server()];
    match id.disambig
    case None => base.Key() in srv.baseNoSuffix
    case Some(n) => base.Key() in srv.disambigNext && 1 <= n && (n <= 2 || n < srv.disambigNext[base.Key()])
  }

  ghost predicate Tables(s: State) {
    (forall base: Base | base.Server() in s.servers :: TableOk(s.servers[base.Server()], base))
    && (forall id | id in s.streams && id.IsAccepted() :: Numbered(s.servers, id))
  }

  /** A live stream is read by the task that was spawned for it, under the id it then had. */
  predicate ReaderOk(host: Host, id: ConnectionId, task: nat) {
    task < |host.tasks| && task !in host.aborted
    && host.tasks[task].ReadTask? && id.AnchoredAt(host.tasks[task].readId)
  }

  predicate AcceptorOk(host: Host, sid: ConnectionId, task: nat) {
    task < |host.tasks| && task !in host.aborted && host.tasks[task] == AcceptTask(sid)
  }

  ghost predicate Tasks(s: State) {
    (forall id | id in s.streams :: ReaderOk(s.host, id, s.streams[id].readTask))
    && (forall sid | sid in s.servers :: AcceptorOk(s.host, sid, s.servers[sid].acceptTask))
    && (forall t :: s.host.aborted[t] <= 1)
    && (forall t | t in s.host.aborted :: t < |s.host.tasks|)
    && (forall t | 0 <= t < |s.host.tasks| && s.host.tasks[t].ReadTask? ::
          !s.host.tasks[t].readId.IsRenamed() && !s.host.tasks[t].readId.IsServer())
  }

  /** The label of every live handle is in the table, under its id or the id it was renamed from. */
  ghost predicate Labels(s: State) {
    forall id | s.IsLive(id) && s.LabelOf(id).Some? ::
      s.LabelOf(id).value in s.labels && id.AnchoredAt(s.labels[s.LabelOf(id).value])
  }

  predicate Sequences(s: State) {
    1 <= s.nextSeq
    && forall id | id in s.streams && id.IpcClient? ::
         1 <= id.seqNo <= s.nextSeq && (id.seqNo == s.nextSeq ==> s.nextSeq == U32_MAX)
  }

  ghost predicate Inv(s: State) {
    Shape(s) && Tables(s) && Tasks(s) && Labels(s) && Sequences(s)
  }

  // Consequences

  /** Two live handles are never anchored at one id: `b` and `b#1` are not live together. */
  lemma AnchorUnique(s: State, a: ConnectionId, b: ConnectionId, x: ConnectionId)
    requires Shape(s) && Tables(s) && s.IsLive(a) && s.IsLive(b)
    requires a.AnchoredAt(x) && b.AnchoredAt(x)
    ensures a == b
  {
  }

  lemma LabelsUnique(s: State, a: ConnectionId, b: ConnectionId)
    requires Inv(s) && s.IsLive(a) && s.IsLive(b)
    requires s.LabelOf(a).Some? && s.LabelOf(a) == s.LabelOf(b)
    ensures a == b
  {
    AnchorUnique(s, a, b, s.labels[s.LabelOf(a).value]);
  }

  lemma ReadersUnique(s: State, a: ConnectionId, b: ConnectionId)
    requires Inv(s) && a in s.streams && b in s.streams
    requires s.streams[a].readTask == s.streams[b].readTask
    ensures a == b
  {
    AnchorUnique(s, a, b, s.host.tasks[s.streams[a].readTask].readId);
  }
}
