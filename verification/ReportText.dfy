// The text of the status report, letter by letter: which lines are in it, what each
// of them says and in which order they come.
module ReportText {
  import opened Prelude
  import opened Decimal
  import opened Ids
  import opened Model
  import opened Invariants
  import opened Blocks
  import opened Sorting
  import opened StatusReport
  import opened StatusOrder
  import opened Teardown

  // Single lines

  /** How the far end of a free client is named. */
  function RemoteName(peer: Option<PeerInfo>): string {
    match peer
    case Some(TcpSocket(addr)) => addr
    case Some(IpcRemotePath(path)) => path
    case Some(IpcPid(_)) => "(ipc peer)"
    case None => "?"
  }

  /** How the far end of an accepted connection is named. */
  function PeerName(peer: Option<PeerInfo>): string {
    match peer
    case Some(TcpSocket(addr)) => addr
    case Some(IpcRemotePath(path)) => path
    case Some(IpcPid(pid)) => "pid=" + IntText(pid)
    case None => "?"
  }

  function LabelPart(alias: Option<string>): string {
    match alias
    case Some(name) => "    label=" + name
    case None => ""
  }

  /** The line of a free client, the line of an accepted connection, and a server's title with lines under it. */
  function ClientText(text: string, remote: string, tail: string): string {
    "  " + text + " -> " + remote + "    [CONNECTED]" + tail + "\n"
  }

  function ChildText(text: string, peer: string, tail: string): string {
    "    " + text + "    peer=" + peer + "    [CONNECTED]" + tail + "\n"
  }

  function TitledText(text: string, lines: string): string {
    "  " + text + "\n" + lines
  }

  /** The line of each stream as a free client, and as an accepted connection. */
  function ClientBlocks(s: State): Blocks {
    map id | id in s.streams ::
      ClientText(Render(id), RemoteName(s.streams[id].state.peerInfo), LabelPart(s.streams[id].state.alias))
  }

  function ChildBlocks(s: State): Blocks {
    map id | id in s.streams ::
      ChildText(Render(id), PeerName(s.streams[id].state.peerInfo), LabelPart(s.streams[id].state.alias))
  }

  /** The title of each server and the lines of its connections, in the order given by `kids`. */
  function TitledBlocks(s: State, kids: map<ConnectionId, seq<ConnectionId>>): Blocks {
    map sid | sid in s.servers && sid in kids :: TitledText(Render(sid), Joined(ChildBlocks(s), kids[sid]))
  }

  lemma Tagged(a: string)
    ensures a + "    [" + "CONNECTED" + "]" == a + "    [CONNECTED]"
  {
  }

  lemma ClientLineText(id: ConnectionId, h: StreamHandle)
    requires h.state.status == Connected
    ensures ClientLine(id, h) == ClientText(Render(id), RemoteName(h.state.peerInfo), LabelPart(h.state.alias))
  {
    Tagged("  " + Render(id) + " -> " + RemoteName(h.state.peerInfo));
  }

  lemma ChildLineText(id: ConnectionId, h: StreamHandle)
    requires h.state.status == Connected
    ensures ChildLine(id, h) == ChildText(Render(id), PeerName(h.state.peerInfo), LabelPart(h.state.alias))
  {
    Tagged("    " + Render(id) + "    peer=" + PeerName(h.state.peerInfo));
  }

  lemma ClientLineIs(s: State, id: ConnectionId)
    requires Inv(s) && id in s.streams
    ensures ClientLine(id, s.streams[id]) == ClientBlocks(s)[id]
    ensures ChildLine(id, s.streams[id]) == ChildBlocks(s)[id]
  {
    assert StreamOk(s, id);
    ClientLineText(id, s.streams[id]);
    ChildLineText(id, s.streams[id]);
  }

  lemma {:induction false} ClientLinesAre(s: State, ids: seq<ConnectionId>)
    requires Inv(s) && forall id | id in ids :: id in s.streams
    ensures ClientLines(s, ids) == Joined(ClientBlocks(s), ids)
  {
    if ids != [] {
      assert ids[|ids| - 1] in ids;
      ClientLinesAre(s, ids[..|ids| - 1]);
      ClientLineIs(s, ids[|ids| - 1]);
    }
  }

  lemma {:induction false} ChildLinesAre(s: State, ids: seq<ConnectionId>)
    requires Inv(s) && forall id | id in ids :: id in s.streams
    ensures ChildLines(s, ids) == Joined(ChildBlocks(s), ids)
  {
    if ids != [] {
      assert ids[|ids| - 1] in ids;
      ChildLinesAre(s, ids[..|ids| - 1]);
      ClientLineIs(s, ids[|ids| - 1]);
    }
  }

  // The order of texts

  /** `a` comes before `b`, or is `b`: it is a beginning of `b`, or the first letter in which they differ is smaller. */
  ghost predicate ComesBefore(a: string, b: string) {
    a <= b || exists k :: DifferAt(a, b, k) && a[k] < b[k]
  }

  predicate DifferAt(a: string, b: string, k: int) {
    0 <= k < |a| && k < |b| && a[..k] == b[..k] && a[k] != b[k]
  }

  lemma {:induction false} TextLeExactly(a: string, b: string)
    ensures TextLe(a, b) <==> ComesBefore(a, b)
  {
    if a != "" && b != "" {
      if a[0] == b[0] {
        TextLeExactly(a[1..], b[1..]);
        SameFirst(a, b);
      } else {
        assert DifferAt(a, b, 0);
        assert forall k | 0 < k < |a| && k < |b| :: a[..k][0] != b[..k][0];
      }
    }
  }

  lemma SameFirst(a: string, b: string)
    requires a != "" && b != "" && a[0] == b[0]
    ensures ComesBefore(a, b) <==> ComesBefore(a[1..], b[1..])
  {
    assert a == [a[0]] + a[1..] && b == [b[0]] + b[1..];
    forall k | DifferAt(a, b, k) ensures k > 0 && DifferAt(a[1..], b[1..], k - 1) {
      assert a[1..][..k - 1] == a[..k][1..] && b[1..][..k - 1] == b[..k][1..];
    }
    forall k | DifferAt(a[1..], b[1..], k) ensures DifferAt(a, b, k + 1) {
      assert a[..k + 1] == [a[0]] + a[1..][..k] && b[..k + 1] == [b[0]] + b[1..][..k];
    }
  }

  /** The ids of the set, each once, by the order of their texts. */
  ghost predicate InTextOrder(order: seq<ConnectionId>, ids: set<ConnectionId>) {
    Enumerates(order, ids)
    && forall i, j | 0 <= i < j < |order| :: ComesBefore(Render(order[i]), Render(order[j]))
  }

  lemma SortedInOrder(walk: seq<ConnectionId>, ids: set<ConnectionId>)
    requires Enumerates(walk, ids)
    ensures InTextOrder(SortByText(walk), ids)
  {
    var order := SortByText(walk);
    SortSorts(walk);
    SortEnumerates(walk, ids);
    forall i, j | 0 <= i < j < |order| ensures ComesBefore(Render(order[i]), Render(order[j])) {
      TextLeExactly(Render(order[i]), Render(order[j]));
    }
  }

  // The whole text

  ghost predicate KidsInOrder(s: State, kids: map<ConnectionId, seq<ConnectionId>>) {
    forall sid | sid in s.servers ::
      sid in kids && InTextOrder(kids[sid], set id | id in s.streams && s.streams[id].parent == Some(sid))
  }

  /** The text under CLIENTS and the text under SERVERS, put together. */
  function Titled(clients: string, servers: string): string {
    "CLIENTS\n" + clients + "\nSERVERS\n" + servers
  }

  function ClientsPart(s: State, clients: seq<ConnectionId>): string {
    if clients == [] then "  (none)\n" else Joined(ClientBlocks(s), clients)
  }

  function ServersPart(s: State, servers: seq<ConnectionId>, kids: map<ConnectionId, seq<ConnectionId>>): string {
    if servers == [] then "  (none)\n" else Joined(TitledBlocks(s, kids), servers)
  }

  function ReportOf(s: State, clients: seq<ConnectionId>, servers: seq<ConnectionId>,
                    kids: map<ConnectionId, seq<ConnectionId>>): string
  {
    Titled(ClientsPart(s, clients), ServersPart(s, servers, kids))
  }

  /** The report consists of these lines in this order, and nothing else. */
  ghost predicate IsReport(s: State, it: Iteration, clients: seq<ConnectionId>, servers: seq<ConnectionId>,
                           kids: map<ConnectionId, seq<ConnectionId>>)
  {
    InTextOrder(clients, FreeStreams(s)) && InTextOrder(servers, s.servers.Keys) && KidsInOrder(s, kids)
    && StatusText(s, it) == ReportOf(s, clients, servers, kids)
  }

  function SortedKids(s: State, it: Iteration): map<ConnectionId, seq<ConnectionId>> {
    map sid | sid in s.servers :: SortByText(it.ChildrenOf(sid))
  }

  lemma SortedKidsInOrder(s: State, it: Iteration)
    requires Inv(s) && Walks(s, it)
    ensures KidsInOrder(s, SortedKids(s, it))
  {
    forall sid | sid in s.servers
      ensures InTextOrder(SortedKids(s, it)[sid], set id | id in s.streams && s.streams[id].parent == Some(sid))
    {
      OwnChildren(s, sid);
      SortedInOrder(it.ChildrenOf(sid), s.servers[sid].children);
    }
  }

  lemma ServerBlockIs(s: State, it: Iteration, sid: ConnectionId)
    requires Inv(s) && Walks(s, it) && sid in s.servers
    ensures ServerBlock(s, sid, it) == At(TitledBlocks(s, SortedKids(s, it)), sid)
  {
    var ids := SortByText(it.ChildrenOf(sid));
    OwnChildren(s, sid);
    SortEnumerates(it.ChildrenOf(sid), s.servers[sid].children);
    ChildLinesAre(s, ids);
  }

  lemma {:induction false} ServerBlocksAre(s: State, it: Iteration, ids: seq<ConnectionId>)
    requires Inv(s) && Walks(s, it) && forall sid | sid in ids :: sid in s.servers
    ensures ServerBlocks(s, ids, it) == Joined(TitledBlocks(s, SortedKids(s, it)), ids)
  {
    if ids != [] {
      assert ids[|ids| - 1] in ids;
      ServerBlocksAre(s, it, ids[..|ids| - 1]);
      ServerBlockIs(s, it, ids[|ids| - 1]);
    }
  }

  /**
   * The report, for every walk of the maps: the free clients, each on its line, and
   * the servers, each with its connections on theirs, all by the order of their
   * texts; `(none)` stands where a group is empty.
   */
  lemma ReportExactly(s: State, it: Iteration)
    requires Inv(s) && Walks(s, it)
    ensures exists clients, servers, kids :: IsReport(s, it, clients, servers, kids)
  {
    var clients, servers, kids := Clients(s, it), SortByText(it.servers), SortedKids(s, it);
    UnparentedEnumerates(s, it.streams);
    SortedInOrder(Unparented(s, it.streams), FreeStreams(s));
    SortedInOrder(it.servers, s.servers.Keys);
    SortedKidsInOrder(s, it);
    ClientLinesAre(s, clients);
    ServerBlocksAre(s, it, servers);
    assert IsReport(s, it, clients, servers, kids);
  }

  // Finding a connection's line in it

  /** A block is in the joined text, behind the blocks that come before it. */
  lemma BlockIsThere(blocks: Blocks, ids: seq<ConnectionId>, k: nat)
    requires k < |ids| && ids[k] in blocks
    ensures Joined(blocks, ids)
            == Joined(blocks, ids[..k]) + blocks[ids[k]] + Joined(blocks, ids[k + 1..])
  {
    assert ids == ids[..k] + [ids[k]] + ids[k + 1..];
    JoinedAppend(blocks, ids[..k] + [ids[k]], ids[k + 1..]);
    JoinedSnoc(blocks, ids[..k], ids[k]);
  }

  /** Whole lines: nothing, or a text that ends a line. */
  predicate WholeLines(text: string) {
    text == "" || text[|text| - 1] == '\n'
  }

  lemma {:induction false} JoinedWholeLines(blocks: Blocks, ids: seq<ConnectionId>)
    requires forall id | id in blocks :: blocks[id] != "" && WholeLines(blocks[id])
    ensures WholeLines(Joined(blocks, ids))
  {
    if ids != [] {
      JoinedWholeLines(blocks, ids[..|ids| - 1]);
    }
  }

  predicate LineBetween(part: string, before: string, line: string, after: string) {
    part == before + line + after && WholeLines(before) && WholeLines(after)
  }

  /** `line` stands in `part` as it is, behind and before whole lines. */
  ghost predicate HasLine(part: string, line: string) {
    exists before, after :: LineBetween(part, before, line, after)
  }

  lemma JoinedHasLine(blocks: Blocks, ids: seq<ConnectionId>, id: ConnectionId)
    requires id in ids && id in blocks
    requires forall c | c in blocks :: blocks[c] != "" && WholeLines(blocks[c])
    ensures HasLine(Joined(blocks, ids), blocks[id])
  {
    var k :| 0 <= k < |ids| && ids[k] == id;
    BlockIsThere(blocks, ids, k);
    JoinedWholeLines(blocks, ids[..k]);
    JoinedWholeLines(blocks, ids[k + 1..]);
    assert LineBetween(Joined(blocks, ids), Joined(blocks, ids[..k]), blocks[id], Joined(blocks, ids[k + 1..]));
  }

  /** The text of a far end and of a label, case by case. */
  predicate IsRemote(peer: Option<PeerInfo>, text: string) {
    match peer
    case Some(TcpSocket(addr)) => text == addr
    case Some(IpcRemotePath(path)) => text == path
    case Some(IpcPid(_)) => text == "(ipc peer)"
    case None => text == "?"
  }

  predicate IsPeer(peer: Option<PeerInfo>, text: string) {
    match peer
    case Some(TcpSocket(addr)) => text == addr
    case Some(IpcRemotePath(path)) => text == path
    case Some(IpcPid(pid)) => text == "pid=" + IntText(pid)
    case None => text == "?"
  }

  predicate IsLabelPart(alias: Option<string>, text: string) {
    match alias
    case Some(name) => text == "    label=" + name
    case None => text == ""
  }

  /** `clients` and `servers` are what stands under the two titles of the report. */
  predicate Parts(s: State, it: Iteration, clients: string, servers: string) {
    StatusText(s, it) == Titled(clients, servers)
  }

  lemma TextIsWhole(text: string, remote: string, tail: string)
    ensures ClientText(text, remote, tail) != "" && WholeLines(ClientText(text, remote, tail))
    ensures ChildText(text, remote, tail) != "" && WholeLines(ChildText(text, remote, tail))
    ensures WholeLines(tail) ==> TitledText(text, tail) != "" && WholeLines(TitledText(text, tail))
  {
  }

  lemma BlocksAreLines(s: State)
    ensures forall c | c in ClientBlocks(s) :: ClientBlocks(s)[c] != "" && WholeLines(ClientBlocks(s)[c])
    ensures forall c | c in ChildBlocks(s) :: ChildBlocks(s)[c] != "" && WholeLines(ChildBlocks(s)[c])
  {
    forall c | c in s.streams
      ensures ClientBlocks(s)[c] != "" && WholeLines(ClientBlocks(s)[c])
      ensures ChildBlocks(s)[c] != "" && WholeLines(ChildBlocks(s)[c])
    {
      var state := s.streams[c].state;
      TextIsWhole(Render(c), RemoteName(state.peerInfo), LabelPart(state.alias));
      TextIsWhole(Render(c), PeerName(state.peerInfo), LabelPart(state.alias));
    }
  }

  lemma TitledBlocksAreLines(s: State, kids: map<ConnectionId, seq<ConnectionId>>)
    ensures forall sid | sid in TitledBlocks(s, kids) ::
              TitledBlocks(s, kids)[sid] != "" && WholeLines(TitledBlocks(s, kids)[sid])
  {
    BlocksAreLines(s);
    forall sid | sid in TitledBlocks(s, kids)
      ensures TitledBlocks(s, kids)[sid] != "" && WholeLines(TitledBlocks(s, kids)[sid])
    {
      JoinedWholeLines(ChildBlocks(s), kids[sid]);
      TextIsWhole(Render(sid), "", Joined(ChildBlocks(s), kids[sid]));
    }
  }

  /** A free client has its line under CLIENTS, with its id, its far end, its standing and its label. */
  lemma ClientIsListed(s: State, it: Iteration, id: ConnectionId, remote: string, tail: string)
    requires Inv(s) && Walks(s, it) && id in s.streams && s.streams[id].parent == None
    requires IsRemote(s.streams[id].state.peerInfo, remote) && IsLabelPart(s.streams[id].state.alias, tail)
    ensures exists clients, servers ::
              Parts(s, it, clients, servers) && HasLine(clients, ClientText(Render(id), remote, tail))
  {
    ReportExactly(s, it);
    var order, servers, kids :| IsReport(s, it, order, servers, kids);
    assert id in order;
    BlocksAreLines(s);
    JoinedHasLine(ClientBlocks(s), order, id);
    assert Parts(s, it, ClientsPart(s, order), ServersPart(s, servers, kids));
  }

  predicate AreLinesOf(s: State, sid: ConnectionId, ids: seq<ConnectionId>, lines: string) {
    Enumerates(ids, set id | id in s.streams && s.streams[id].parent == Some(sid))
    && lines == Joined(ChildBlocks(s), ids)
  }

  /** The lines are those of the server's own connections, each once, and no others. */
  ghost predicate ChildrenOnly(s: State, sid: ConnectionId, lines: string) {
    exists ids :: AreLinesOf(s, sid, ids, lines)
  }

  /** Under the server's title are the lines of its connections, and `line` is one of them. */
  ghost predicate HasLineUnder(s: State, servers: string, sid: ConnectionId, line: string) {
    exists lines ::
      HasLine(servers, TitledText(Render(sid), lines)) && ChildrenOnly(s, sid, lines) && HasLine(lines, line)
  }

  /** An accepted connection has its line under its server's title, with its id, peer, standing and label. */
  lemma ChildIsListed(s: State, it: Iteration, sid: ConnectionId, id: ConnectionId, peer: string, tail: string)
    requires Inv(s) && Walks(s, it) && sid in s.servers && id in s.streams && s.streams[id].parent == Some(sid)
    requires IsPeer(s.streams[id].state.peerInfo, peer) && IsLabelPart(s.streams[id].state.alias, tail)
    ensures exists clients, servers ::
              Parts(s, it, clients, servers) && HasLineUnder(s, servers, sid, ChildText(Render(id), peer, tail))
  {
    ReportExactly(s, it);
    var order, servers, kids :| IsReport(s, it, order, servers, kids);
    assert id in kids[sid] && sid in servers;
    ChildUnderTitle(s, servers, kids, sid, id);
    assert Parts(s, it, ClientsPart(s, order), ServersPart(s, servers, kids));
  }

  lemma ChildUnderTitle(s: State, servers: seq<ConnectionId>, kids: map<ConnectionId, seq<ConnectionId>>,
                        sid: ConnectionId, id: ConnectionId)
    requires KidsInOrder(s, kids) && sid in s.servers && sid in servers && id in s.streams && id in kids[sid]
    ensures HasLineUnder(s, Joined(TitledBlocks(s, kids), servers), sid, ChildBlocks(s)[id])
  {
    var lines := Joined(ChildBlocks(s), kids[sid]);
    BlocksAreLines(s);
    JoinedHasLine(ChildBlocks(s), kids[sid], id);
    TitledBlocksAreLines(s, kids);
    JoinedHasLine(TitledBlocks(s, kids), servers, sid);
    assert AreLinesOf(s, sid, kids[sid], lines);
  }

  ghost predicate HasTitle(servers: string, sid: ConnectionId) {
    exists lines :: HasLine(servers, TitledText(Render(sid), lines))
  }

  /** `(none)` stands under CLIENTS exactly if there is no free client, and under SERVERS if there is no server. */
  ghost predicate NoneWhereEmpty(s: State, clients: string, servers: string) {
    (clients == "  (none)\n" <==> forall id | id in s.streams :: s.streams[id].parent.Some?)
    && (s.servers == map[] ==> servers == "  (none)\n")
    && (forall sid | sid in s.servers :: HasTitle(servers, sid))
  }

  lemma NoneExactly(s: State, it: Iteration)
    requires Inv(s) && Walks(s, it)
    ensures exists clients, servers :: Parts(s, it, clients, servers) && NoneWhereEmpty(s, clients, servers)
  {
    ReportExactly(s, it);
    var order, servers, kids :| IsReport(s, it, order, servers, kids);
    NoneForNoClient(s, order);
    TitleForEach(s, servers, kids);
    assert Parts(s, it, ClientsPart(s, order), ServersPart(s, servers, kids));
  }

  lemma TitleForEach(s: State, servers: seq<ConnectionId>, kids: map<ConnectionId, seq<ConnectionId>>)
    requires InTextOrder(servers, s.servers.Keys) && KidsInOrder(s, kids)
    ensures s.servers == map[] ==> ServersPart(s, servers, kids) == "  (none)\n"
    ensures forall sid | sid in s.servers :: HasTitle(ServersPart(s, servers, kids), sid)
  {
    assert servers != [] ==> servers[0] in s.servers;
    TitledBlocksAreLines(s, kids);
    forall sid | sid in s.servers ensures HasTitle(ServersPart(s, servers, kids), sid) {
      assert sid in servers;
      JoinedHasLine(TitledBlocks(s, kids), servers, sid);
    }
  }

  lemma NoneForNoClient(s: State, order: seq<ConnectionId>)
    requires Inv(s) && Enumerates(order, FreeStreams(s))
    ensures ClientsPart(s, order) == "  (none)\n" <==> forall id | id in s.streams :: s.streams[id].parent.Some?
  {
    if order != [] {
      assert order[0] in FreeStreams(s);
      FirstLineIsNoNone(s, order);
    } else {
      assert forall id | id in s.streams && s.streams[id].parent.None? :: id in FreeStreams(s);
    }
  }

  /** A line that goes on with a letter other than `(` is not `(none)`. */
  lemma ThirdLetter(text: string, remote: string, tail: string, rest: string)
    requires text != "" && text[0] != '('
    ensures ClientText(text, remote, tail) + rest != "  (none)\n"
  {
    assert (ClientText(text, remote, tail) + rest)[2] == text[0];
    assert "  (none)\n"[2] == '(';
  }

  lemma JoinedHead(blocks: Blocks, ids: seq<ConnectionId>)
    requires ids != []
    ensures Joined(blocks, ids) == At(blocks, ids[0]) + Joined(blocks, ids[1..])
  {
    assert ids == [ids[0]] + ids[1..] && [ids[0]][..0] == [];
    JoinedAppend(blocks, [ids[0]], ids[1..]);
  }

  lemma FreeClientLetter(s: State, id: ConnectionId)
    requires Shape(s) && id in s.streams && s.streams[id].parent.None?
    ensures Render(id) != "" && Render(id)[0] != '('
  {
    assert StreamOk(s, id);
    FirstCharacter(id);
  }

  lemma FirstLineIsNoNone(s: State, order: seq<ConnectionId>)
    requires Inv(s) && order != [] && order[0] in s.streams && s.streams[order[0]].parent.None?
    ensures Joined(ClientBlocks(s), order) != "  (none)\n"
  {
    var state := s.streams[order[0]].state;
    FreeClientLetter(s, order[0]);
    JoinedHead(ClientBlocks(s), order);
    ThirdLetter(Render(order[0]), RemoteName(state.peerInfo), LabelPart(state.alias),
                Joined(ClientBlocks(s), order[1..]));
  }
}
