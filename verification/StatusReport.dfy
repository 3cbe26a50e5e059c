// The text of the `status` command, for any order in which the hash maps happen
// to be walked.
module StatusReport {
  import opened Prelude
  import opened Ids
  import opened Model
  import opened Sorting

  /** The order in which each hash map or set is walked. */
  datatype Iteration = Iteration(
    streams: seq<ConnectionId>,
    servers: seq<ConnectionId>,
    children: map<ConnectionId, seq<ConnectionId>>)
  {
    function ChildrenOf(sid: ConnectionId): seq<ConnectionId> {
      if sid in children then children[sid] else []
    }
  }

  predicate Walks(s: State, it: Iteration) {
    Enumerates(it.streams, s.streams.Keys)
    && Enumerates(it.servers, s.servers.Keys)
    && forall sid | sid in s.servers :: Enumerates(it.ChildrenOf(sid), s.servers[sid].children)
  }

  // Text

  function StatusTag(status: ConnectionStatus): string {
    match status
    case Connected => "CONNECTED"
    case Closing => "CLOSING"
    case Closed => "CLOSED"
  }

  function LabelText(alias: Option<string>): string {
    match alias
    case Some(name) => "    label=" + name
    case None => ""
  }

  function RemoteText(peer: Option<PeerInfo>): string {
    match peer
    case Some(TcpSocket(addr)) => addr
    case Some(IpcRemotePath(path)) => path
    case Some(IpcPid(_)) => "(ipc peer)"
    case None => "?"
  }

  function PeerText(peer: Option<PeerInfo>): string {
    match peer
    case Some(p) => p.Text()
    case None => "?"
  }

  function ClientLine(id: ConnectionId, h: StreamHandle): string {
    "  " + Render(id) + " -> " + RemoteText(h.state.peerInfo)
    + "    [" + StatusTag(h.state.status) + "]" + LabelText(h.state.alias) + "\n"
  }

  function ChildLine(id: ConnectionId, h: StreamHandle): string {
    "    " + Render(id) + "    peer=" + PeerText(h.state.peerInfo)
    + "    [" + StatusTag(h.state.status) + "]" + LabelText(h.state.alias) + "\n"
  }

  function Unparented(s: State, ids: seq<ConnectionId>): seq<ConnectionId> {
    if ids == [] then []
    else
      var last := ids[|ids| - 1];
      Unparented(s, ids[..|ids| - 1]) + (if last in s.streams && s.streams[last].parent.None? then [last] else [])
  }

  function ClientLines(s: State, ids: seq<ConnectionId>): string {
    if ids == [] then ""
    else
      var last := ids[|ids| - 1];
      ClientLines(s, ids[..|ids| - 1]) + (if last in s.streams then ClientLine(last, s.streams[last]) else "")
  }

  function ChildLines(s: State, ids: seq<ConnectionId>): string {
    if ids == [] then ""
    else
      var last := ids[|ids| - 1];
      ChildLines(s, ids[..|ids| - 1]) + (if last in s.streams then ChildLine(last, s.streams[last]) else "")
  }

  function ServerBlock(s: State, sid: ConnectionId, it: Iteration): string {
    "  " + Render(sid) + "\n" + ChildLines(s, SortByText(it.ChildrenOf(sid)))
  }

  function ServerBlocks(s: State, sids: seq<ConnectionId>, it: Iteration): string {
    if sids == [] then ""
    else
      var last := sids[|sids| - 1];
      ServerBlocks(s, sids[..|sids| - 1], it) + ServerBlock(s, last, it)
  }

  /** The ids under CLIENTS, as they are listed. */
  function Clients(s: State, it: Iteration): seq<ConnectionId> {
    SortByText(Unparented(s, it.streams))
  }

  function StatusText(s: State, it: Iteration): string {
    var clients, servers := Clients(s, it), SortByText(it.servers);
    "CLIENTS\n"
    + (if clients == [] then "  (none)\n" else ClientLines(s, clients))
    + "\nSERVERS\n"
    + (if servers == [] then "  (none)\n" else ServerBlocks(s, servers, it))
  }

  lemma {:induction false} UnparentedAreLive(s: State, ids: seq<ConnectionId>)
    ensures forall id :: id in Unparented(s, ids) <==> id in ids && id in s.streams && s.streams[id].parent.None?
  {
    if ids != [] {
      var n := |ids| - 1;
      UnparentedAreLive(s, ids[..n]);
      assert ids == ids[..n] + [ids[n]];
    }
  }
}
