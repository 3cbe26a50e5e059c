// The status report lists everything once, and its text depends on the order in
// which hash maps are walked only where servers have the same text.
module StatusOrder {
  import opened Prelude
  import opened Text
  import opened Decimal
  import opened Ids
  import opened Model
  import opened Invariants
  import opened Blocks
  import opened Sorting
  import opened StatusReport
  import opened Teardown

  // Which ids have different texts

  lemma PeerTextInjective(i: int, d: Option<U32>, j: int, e: Option<U32>)
    requires IntText(i) + Suffix(d) == IntText(j) + Suffix(e)
    ensures i == j && d == e
  {
    NotInIntText('#', i);
    NotInIntText('#', j);
    var s := IntText(i) + Suffix(d);
    match d {
      case Some(n) =>
        assert s == IntText(i) + ['#'] + Dec(n);
        SplitOnceAt(IntText(i), '#', Dec(n));
      case None =>
        assert s == IntText(i);
    }
    match e {
      case Some(m) =>
        assert s == IntText(j) + ['#'] + Dec(m);
        SplitOnceAt(IntText(j), '#', Dec(m));
      case None =>
        assert s == IntText(j);
    }
    IntTextInjective(i, j);
    if d.Some? {
      DecInjective(d.value, e.value);
    }
  }

  lemma CancelPrefix(head: string, x: string, y: string)
    requires head + x == head + y
    ensures x == y
  {
    assert x == (head + x)[|head|..] && y == (head + y)[|head|..];
  }

  lemma TcpSiblingsDiffer(pp: U16, i: U16, d: Option<U32>, j: U16, e: Option<U32>)
    requires Render(AcceptedTcp(pp, i, d)) == Render(AcceptedTcp(pp, j, e))
    ensures i == j && d == e
  {
    var head := Dec(pp) + ".";
    assert Render(AcceptedTcp(pp, i, d)) == head + (IntText(i) + Suffix(d));
    assert Render(AcceptedTcp(pp, j, e)) == head + (IntText(j) + Suffix(e));
    CancelPrefix(head, IntText(i) + Suffix(d), IntText(j) + Suffix(e));
    PeerTextInjective(i, d, j, e);
  }

  lemma IpcSiblingsDiffer(path: string, i: I32, d: Option<U32>, j: I32, e: Option<U32>)
    requires Render(AcceptedIpc(path, i, d)) == Render(AcceptedIpc(path, j, e))
    ensures i == j && d == e
  {
    var head := path + ".";
    assert Render(AcceptedIpc(path, i, d)) == head + (IntText(i) + Suffix(d));
    assert Render(AcceptedIpc(path, j, e)) == head + (IntText(j) + Suffix(e));
    CancelPrefix(head, IntText(i) + Suffix(d), IntText(j) + Suffix(e));
    PeerTextInjective(i, d, j, e);
  }

  /** Connections of one server have different texts. */
  lemma SiblingsDiffer(a: ConnectionId, b: ConnectionId)
    requires a.IsAccepted() && b.IsAccepted() && a.Parent() == b.Parent() && Render(a) == Render(b)
    ensures a == b
  {
    match a
    case AcceptedTcp(pp, i, d) => TcpSiblingsDiffer(pp, i, d, b.remotePort, b.disambig);
    case AcceptedIpc(path, i, d) => IpcSiblingsDiffer(path, i, d, b.pid, b.disambig);
  }

  lemma FirstCharacter(id: ConnectionId)
    ensures id.TcpClient? || id.TcpServer? ==> Render(id) != "" && IsDigit(Render(id)[0])
    ensures id.IpcClient? ==> Render(id)[0] == 'i' && Render(id)[4..] == Dec(id.seqNo)
  {
  }

  /** Free clients have different texts. */
  lemma ClientsDiffer(a: ConnectionId, b: ConnectionId)
    requires (a.TcpClient? || a.IpcClient?) && (b.TcpClient? || b.IpcClient?) && Render(a) == Render(b)
    ensures a == b
  {
    FirstCharacter(a);
    FirstCharacter(b);
    match a
    case TcpClient(port) => DecInjective(port, b.localPort);
    case IpcClient(n) => DecInjective(n, b.seqNo);
  }

  /** Servers have different texts if every path starts with `/`. */
  lemma SlashServersDiffer(s: State)
    requires Shape(s) && forall sid | sid in s.servers && sid.IpcServer? :: "/" <= sid.path
    ensures DistinctTexts(s.servers.Keys)
  {
    forall a, b | a in s.servers && b in s.servers && Render(a) == Render(b) ensures a == b {
      assert ServerOk(s, a) && ServerOk(s, b);
      FirstCharacter(a);
      FirstCharacter(b);
      if a.TcpServer? {
        DecInjective(a.port, b.port);
      }
    }
  }

  // The report

  function FreeStreams(s: State): set<ConnectionId> {
    set id | id in s.streams && s.streams[id].parent.None?
  }

  lemma {:induction false} UnparentedNoRepeats(s: State, order: seq<ConnectionId>)
    requires NoRepeats(order)
    ensures NoRepeats(Unparented(s, order))
  {
    if order != [] {
      var init, last := order[..|order| - 1], order[|order| - 1];
      UnparentedNoRepeats(s, init);
      UnparentedAreLive(s, init);
      assert order == init + [last] && last !in init;
    }
  }

  lemma UnparentedEnumerates(s: State, order: seq<ConnectionId>)
    requires Enumerates(order, s.streams.Keys)
    ensures Enumerates(Unparented(s, order), FreeStreams(s))
  {
    UnparentedNoRepeats(s, order);
    UnparentedAreLive(s, order);
  }

  /**
   * The report lists every free stream once under CLIENTS, every server once, and
   * under each server just the streams it is the parent of, each once; a live stream
   * has either no parent or a live one, so it is listed exactly once.
   */
  lemma ListedOnce(s: State, it: Iteration)
    requires Inv(s) && Walks(s, it)
    ensures Enumerates(Clients(s, it), FreeStreams(s))
    ensures Enumerates(SortByText(it.servers), s.servers.Keys)
    ensures forall sid | sid in s.servers ::
              Enumerates(SortByText(it.ChildrenOf(sid)), set id | id in s.streams && s.streams[id].parent == Some(sid))
    ensures forall id | id in s.streams :: s.streams[id].parent.None? || s.streams[id].parent.value in s.servers
  {
    UnparentedEnumerates(s, it.streams);
    SortEnumerates(Unparented(s, it.streams), FreeStreams(s));
    SortEnumerates(it.servers, s.servers.Keys);
    forall sid | sid in s.servers
      ensures Enumerates(SortByText(it.ChildrenOf(sid)), set id | id in s.streams && s.streams[id].parent == Some(sid))
    {
      OwnChildren(s, sid);
      SortEnumerates(it.ChildrenOf(sid), s.servers[sid].children);
    }
    forall id | id in s.streams ensures s.streams[id].parent.None? || s.streams[id].parent.value in s.servers {
      assert StreamOk(s, id);
    }
  }

  lemma ClientsForgetOrder(s: State, a: Iteration, b: Iteration)
    requires Inv(s) && Walks(s, a) && Walks(s, b)
    ensures Clients(s, a) == Clients(s, b)
  {
    UnparentedEnumerates(s, a.streams);
    UnparentedEnumerates(s, b.streams);
    forall c, d | c in FreeStreams(s) && d in FreeStreams(s) && Render(c) == Render(d) ensures c == d {
      assert StreamOk(s, c) && StreamOk(s, d);
      ClientsDiffer(c, d);
    }
    SortForgetsOrder(Unparented(s, a.streams), Unparented(s, b.streams), FreeStreams(s));
  }

  lemma ChildrenForgetOrder(s: State, a: Iteration, b: Iteration, sid: ConnectionId)
    requires Inv(s) && Walks(s, a) && Walks(s, b) && sid in s.servers
    ensures SortByText(a.ChildrenOf(sid)) == SortByText(b.ChildrenOf(sid))
  {
    assert ServerOk(s, sid);
    forall c, d | c in s.servers[sid].children && d in s.servers[sid].children && Render(c) == Render(d)
      ensures c == d
    {
      SiblingsDiffer(c, d);
    }
    SortForgetsOrder(a.ChildrenOf(sid), b.ChildrenOf(sid), s.servers[sid].children);
  }

  lemma {:induction false} BlocksForgetOrder(s: State, sids: seq<ConnectionId>, a: Iteration, b: Iteration)
    requires Inv(s) && Walks(s, a) && Walks(s, b) && forall sid | sid in sids :: sid in s.servers
    ensures ServerBlocks(s, sids, a) == ServerBlocks(s, sids, b)
  {
    if sids != [] {
      BlocksForgetOrder(s, sids[..|sids| - 1], a, b);
      ChildrenForgetOrder(s, a, b, sids[|sids| - 1]);
    }
  }

  /** If no two servers have the same text, the report is the same for every walk of the hash maps. */
  lemma StatusForgetsOrder(s: State, a: Iteration, b: Iteration)
    requires Inv(s) && Walks(s, a) && Walks(s, b) && DistinctTexts(s.servers.Keys)
    ensures StatusText(s, a) == StatusText(s, b)
  {
    ClientsForgetOrder(s, a, b);
    SortForgetsOrder(a.servers, b.servers, s.servers.Keys);
    SortedAreSame(a.servers);
    BlocksForgetOrder(s, SortByText(a.servers), a, b);
  }

  // Servers with the same text

  function BlockMap(s: State, it: Iteration): Blocks {
    map sid | sid in s.servers :: ServerBlock(s, sid, it)
  }

  lemma {:induction false} BlocksAreJoined(s: State, ids: seq<ConnectionId>, it: Iteration)
    requires forall sid | sid in ids :: sid in s.servers
    ensures ServerBlocks(s, ids, it) == Joined(BlockMap(s, it), ids)
  {
    if ids != [] {
      assert ids[|ids| - 1] in ids;
      BlocksAreJoined(s, ids[..|ids| - 1], it);
    }
  }

  lemma SortedServers(s: State, it: Iteration)
    requires Walks(s, it)
    ensures Sorted(SortByText(it.servers)) && Enumerates(SortByText(it.servers), s.servers.Keys)
    ensures multiset(SortByText(it.servers)) == multiset(s.servers.Keys)
  {
    SortSorts(it.servers);
    SortEnumerates(it.servers, s.servers.Keys);
    EnumerationIsSet(SortByText(it.servers), s.servers.Keys);
  }

  /** The part of the report under SERVERS depends on the walk only by the order of ties. */
  lemma ServerPart(s: State, a: Iteration, b: Iteration)
    requires Inv(s) && Walks(s, a) && Walks(s, b)
    ensures StatusText(s, a) == StatusText(s, b)
            <==> Joined(BlockMap(s, a), SortByText(a.servers)) == Joined(BlockMap(s, a), SortByText(b.servers))
  {
    SortedServers(s, a);
    SortedServers(s, b);
    ClientsForgetOrder(s, a, b);
    BlocksForgetOrder(s, SortByText(b.servers), a, b);
    BlocksAreJoined(s, SortByText(a.servers), a);
    BlocksAreJoined(s, SortByText(b.servers), a);
    SameServerPart(s, a, b);
  }

  lemma SameServerPart(s: State, a: Iteration, b: Iteration)
    requires Clients(s, a) == Clients(s, b) && (SortByText(a.servers) == [] <==> SortByText(b.servers) == [])
    ensures StatusText(s, a) == StatusText(s, b)
            <==> ServerBlocks(s, SortByText(a.servers), a) == ServerBlocks(s, SortByText(b.servers), b)
  {
    var clients := Clients(s, a);
    var head := "CLIENTS\n" + (if clients == [] then "  (none)\n" else ClientLines(s, clients)) + "\nSERVERS\n";
    var x, y := ServerBlocks(s, SortByText(a.servers), a), ServerBlocks(s, SortByText(b.servers), b);
    if SortByText(a.servers) != [] && StatusText(s, a) == StatusText(s, b) {
      CancelPrefix(head, x, y);
    }
  }

  lemma TiesForgetOrder(s: State, a: Iteration, b: Iteration)
    requires Inv(s) && Walks(s, a) && Walks(s, b) && TiesCommute(BlockMap(s, a))
    ensures StatusText(s, a) == StatusText(s, b)
  {
    SortedServers(s, a);
    SortedServers(s, b);
    SortedJoined(BlockMap(s, a), SortByText(a.servers), SortByText(b.servers));
    ServerPart(s, a, b);
  }

  /** No three servers have one text. */
  lemma AtMostTwo(a: ConnectionId, b: ConnectionId, c: ConnectionId)
    requires a.IsServer() && b.IsServer() && c.IsServer() && a != b
    requires Render(a) == Render(b) && Render(b) == Render(c)
    ensures c == a || c == b
  {
    SameKindDiffers(a, b);
    SameKindDiffers(a, c);
    SameKindDiffers(b, c);
  }

  lemma SameKindDiffers(a: ConnectionId, b: ConnectionId)
    requires a.IsServer() && b.IsServer() && Render(a) == Render(b)
    ensures a.TcpServer? == b.TcpServer? ==> a == b
  {
    if a.TcpServer? && b.TcpServer? {
      DecInjective(a.port, b.port);
    }
  }

  /** Two servers with one text are neighbours in the sorted list. */
  lemma TiesAreNeighbours(sorted: seq<ConnectionId>, i: nat, j: nat)
    requires Sorted(sorted) && NoRepeats(sorted) && forall sid | sid in sorted :: sid.IsServer()
    requires i < j < |sorted| && Render(sorted[i]) == Render(sorted[j])
    ensures j == i + 1
  {
    if i + 1 < j {
      SameTextBetween(sorted, i, i + 1, j);
      assert sorted[i] in sorted && sorted[j] in sorted && sorted[i + 1] in sorted;
      AtMostTwo(sorted[i], sorted[j], sorted[i + 1]);
    }
  }

  lemma AllServers(s: State, ids: seq<ConnectionId>)
    requires Shape(s) && forall sid | sid in ids :: sid in s.servers
    ensures forall sid | sid in ids :: sid.IsServer()
  {
    forall sid | sid in ids ensures sid.IsServer() {
      assert ServerOk(s, sid);
    }
  }

  /** The walk in which two neighbours in the sorted list of servers come the other way round. */
  function SwappedWalk(a: Iteration, i: nat): Iteration
    requires i + 1 < |SortByText(a.servers)|
  {
    a.(servers := Swapped(SortByText(a.servers), i))
  }

  lemma SwappedIsWalk(s: State, a: Iteration, i: nat)
    requires Walks(s, a) && i + 1 < |SortByText(a.servers)|
    requires Render(SortByText(a.servers)[i]) == Render(SortByText(a.servers)[i + 1])
    ensures Walks(s, SwappedWalk(a, i))
    ensures SortByText(SwappedWalk(a, i).servers) == Swapped(SortByText(a.servers), i)
  {
    SortedServers(s, a);
    SwappedWalks(SortByText(a.servers), s.servers.Keys, i);
    SortOfSorted(Swapped(SortByText(a.servers), i));
  }

  /** If that walk gives the same text, the two blocks commute. */
  lemma SwapShows(s: State, a: Iteration, i: nat)
    requires Inv(s) && Walks(s, a) && i + 1 < |SortByText(a.servers)|
    requires Walks(s, SwappedWalk(a, i)) && StatusText(s, a) == StatusText(s, SwappedWalk(a, i))
    requires SortByText(SwappedWalk(a, i).servers) == Swapped(SortByText(a.servers), i)
    ensures var sorted := SortByText(a.servers);
            sorted[i] in s.servers && sorted[i + 1] in s.servers
            && Commute(ServerBlock(s, sorted[i], a), ServerBlock(s, sorted[i + 1], a))
  {
    SortedServers(s, a);
    ServerPart(s, a, SwappedWalk(a, i));
    SwappedJoined(BlockMap(s, a), SortByText(a.servers), i);
  }

  ghost predicate OrderDoesNotShow(s: State, a: Iteration) {
    forall b | Walks(s, b) :: StatusText(s, b) == StatusText(s, a)
  }

  lemma TiedNeighboursCommute(s: State, a: Iteration, i: nat)
    requires Inv(s) && Walks(s, a) && OrderDoesNotShow(s, a) && i + 1 < |SortByText(a.servers)|
    requires Render(SortByText(a.servers)[i]) == Render(SortByText(a.servers)[i + 1])
    ensures var sorted := SortByText(a.servers);
            Commute(ServerBlock(s, sorted[i], a), ServerBlock(s, sorted[i + 1], a))
  {
    SwappedIsWalk(s, a, i);
    SwapShows(s, a, i);
  }

  lemma TiedPairCommutes(s: State, a: Iteration, c: ConnectionId, d: ConnectionId)
    requires Inv(s) && Walks(s, a) && c in s.servers && d in s.servers && Render(c) == Render(d)
    requires OrderDoesNotShow(s, a)
    ensures Commute(ServerBlock(s, c, a), ServerBlock(s, d, a))
  {
    if c != d {
      var sorted := SortByText(a.servers);
      SortedServers(s, a);
      AllServers(s, sorted);
      var i :| 0 <= i < |sorted| && sorted[i] == c;
      var j :| 0 <= j < |sorted| && sorted[j] == d;
      if i < j {
        TiesAreNeighbours(sorted, i, j);
        TiedNeighboursCommute(s, a, i);
      } else {
        TiesAreNeighbours(sorted, j, i);
        TiedNeighboursCommute(s, a, j);
      }
    }
  }

  /**
   * The report is the same for every walk of the hash maps if and only if the blocks
   * of servers that have the same text can change places.
   */
  lemma OrderByBlocks(s: State, a: Iteration)
    requires Inv(s) && Walks(s, a)
    ensures OrderDoesNotShow(s, a) <==> TiesCommute(BlockMap(s, a))
  {
    if TiesCommute(BlockMap(s, a)) {
      forall b | Walks(s, b) ensures StatusText(s, b) == StatusText(s, a) {
        TiesForgetOrder(s, a, b);
      }
    }
    if OrderDoesNotShow(s, a) {
      forall c, d | c in s.servers && d in s.servers && Render(c) == Render(d)
        ensures Commute(ServerBlock(s, c, a), ServerBlock(s, d, a))
      {
        TiedPairCommutes(s, a, c, d);
      }
    }
  }
}
