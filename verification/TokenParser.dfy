// The ids that a typed token may stand for, and how that undoes `Render`.
module TokenParser {
  import opened Prelude
  import opened Text
  import opened Decimal
  import opened Ids

  /** `ipc:<n>` */
  function ClientSequence(token: string): Option<U32> {
    match StripPrefix(token, "ipc:")
    case Some(rest) => ParseU32(rest)
    case None => None
  }

  /** `<parent>.<remote>#<n>` */
  function Suffixed(token: string): Option<ConnectionId> {
    match SplitOnce(token, '#')
    case None => None
    case Some((left, right)) =>
      match SplitOnce(left, '.')
      case None => None
      case Some((p, r)) =>
        match (ParseU16(p), ParseU16(r), ParseU32(right))
        case (Some(pp), Some(rp), Some(n)) => Some(AcceptedTcp(pp, rp, Some(n)))
        case _ => None
  }

  /** `<parent>.<remote>` or `<path>.<pid>` */
  function Dotted(token: string): seq<ConnectionId> {
    match RSplitOnce(token, '.')
    case None => []
    case Some((left, right)) =>
      var tcp := match (ParseU16(left), ParseU16(right))
                 case (Some(pp), Some(rp)) => [AcceptedTcp(pp, rp, None)]
                 case _ => [];
      var ipc := match ParseI32(right)
                 case Some(pid) => if "/" <= left then [AcceptedIpc(left, pid, None)] else []
                 case None => [];
      tcp + ipc
  }

  /** All ids a token could refer to, in the order in which they are looked up. */
  function Candidates(token: string): seq<ConnectionId> {
    match ClientSequence(token)
    case Some(n) => [IpcClient(n)]
    case None =>
      match ParseU16(token)
      case Some(port) => [TcpServer(port), TcpClient(port)]
      case None =>
        match Suffixed(token)
        case Some(id) => [id]
        case None => Dotted(token) + (if "/" <= token then [IpcServer(token)] else [])
  }

  predicate HasSlashPath(id: ConnectionId) {
    (id.IpcServer? ==> "/" <= id.path) && (id.AcceptedIpc? ==> "/" <= id.parentPath)
  }

  /** The ids whose own text leads back to them. */
  predicate Typeable(id: ConnectionId) {
    HasSlashPath(id) && !(id.AcceptedIpc? && id.disambig.Some?)
  }

  /** The id, if any, that the text of `id` is tried for before `id` itself. */
  function Rivals(id: ConnectionId): seq<ConnectionId> {
    match id
    case TcpClient(port) => [TcpServer(port)]
    case IpcServer(path) => Dotted(path)
    case _ => []
  }

  // Texts that are not numbers

  lemma NotANumber(s: string, i: nat)
    requires i < |s| && !IsDigit(s[i])
    requires s[i] != '+' || i > 0
    ensures ParseUnsigned(s).None?
    ensures ParseU16(s).None? && ParseU32(s).None?
  {
    if |s| > 1 && s[0] == '+' {
      assert s[1..][i - 1] == s[i];
    }
  }

  lemma NotSigned(s: string, i: nat)
    requires 0 < i < |s| && !IsDigit(s[i])
    ensures ParseSigned(s).None?
  {
    NotANumber(s, i);
    assert s[1..][i - 1] == s[i];
  }

  /** A text beginning with `/` is neither a number, nor `ipc:<n>`, nor suffixed TCP. */
  lemma SlashText(token: string)
    requires "/" <= token
    ensures Candidates(token) == Dotted(token) + [IpcServer(token)]
  {
    assert token[0] == '/';
    NotANumber(token, 0);
    match SplitOnce(token, '#') {
      case None =>
      case Some((left, right)) =>
        assert left[0] == token[0];
        match SplitOnce(left, '.') {
          case None =>
          case Some((p, r)) =>
            assert p[0] == left[0];
            NotANumber(p, 0);
        }
    }
  }

  // One lemma for each shape of id

  lemma CandidatesOfNumber(port: U16)
    ensures Candidates(Dec(port)) == [TcpServer(port), TcpClient(port)]
  {
    ParseOfDec(port);
    assert IsDigit(Dec(port)[0]);
  }

  lemma CandidatesOfSequence(n: U32)
    ensures Candidates(Render(IpcClient(n))) == [IpcClient(n)]
  {
    ParseOfDec(n);
    assert Render(IpcClient(n))[4..] == Dec(n);
  }

  /** A text that begins with digits and goes on with a dot is no number and no `ipc:<n>`. */
  lemma DottedIsNoNumber(digits: string, rest: string)
    requires digits != "" && AllDigits(digits)
    ensures var token := digits + ['.'] + rest;
            ClientSequence(token).None? && ParseU16(token).None? && !("/" <= token) && !("/" <= digits)
  {
    var token := digits + ['.'] + rest;
    assert IsDigit(digits[0]) && token[0] == digits[0];
    NotANumber(token, |digits|);
  }

  lemma CandidatesOfSuffixedTcp(pp: U16, rp: U16, n: U32)
    ensures Candidates(Render(AcceptedTcp(pp, rp, Some(n)))) == [AcceptedTcp(pp, rp, Some(n))]
  {
    var token := Render(AcceptedTcp(pp, rp, Some(n)));
    assert token == Dec(pp) + ['.'] + (Dec(rp) + "#" + Dec(n));
    DottedIsNoNumber(Dec(pp), Dec(rp) + "#" + Dec(n));
    var key := Dec(pp) + ['.'] + Dec(rp);
    assert token == key + ['#'] + Dec(n);
    assert Suffixed(token) == Some(AcceptedTcp(pp, rp, Some(n))) by {
      SplitOnceAt(key, '#', Dec(n));
      SplitOnceAt(Dec(pp), '.', Dec(rp));
      ParseOfDec(pp);
      ParseOfDec(rp);
      ParseOfDec(n);
    }
  }

  lemma CandidatesOfPlainTcp(pp: U16, rp: U16)
    ensures Candidates(Render(AcceptedTcp(pp, rp, None))) == [AcceptedTcp(pp, rp, None)]
  {
    var token := Render(AcceptedTcp(pp, rp, None));
    assert token == Dec(pp) + ['.'] + Dec(rp);
    DottedIsNoNumber(Dec(pp), Dec(rp));
    assert '#' !in token;
    assert Suffixed(token).None?;
    assert Dotted(token) == [AcceptedTcp(pp, rp, None)] by {
      RSplitOnceAt(Dec(pp), '.', Dec(rp));
      ParseOfDec(pp);
      ParseOfDec(rp);
    }
  }

  lemma CandidatesOfIpc(path: string, pid: I32)
    requires "/" <= path
    ensures Candidates(Render(AcceptedIpc(path, pid, None)))
            == [AcceptedIpc(path, pid, None), IpcServer(Render(AcceptedIpc(path, pid, None)))]
  {
    var token := Render(AcceptedIpc(path, pid, None));
    assert token == path + ['.'] + IntText(pid);
    SlashText(token);
    NotInIntText('.', pid);
    RSplitOnceAt(path, '.', IntText(pid));
    ParseOfIntText(pid);
    NotANumber(path, 0);
  }

  /** The printed id of a renamed or later IPC peer is read as one long server path. */
  lemma CandidatesOfSuffixedIpc(path: string, pid: I32, n: U32)
    requires "/" <= path
    ensures Candidates(Render(AcceptedIpc(path, pid, Some(n))))
            == [IpcServer(Render(AcceptedIpc(path, pid, Some(n))))]
  {
    var token := Render(AcceptedIpc(path, pid, Some(n)));
    var right := IntText(pid) + "#" + Dec(n);
    assert token == path + ['.'] + right;
    SlashText(token);
    NotInIntText('.', pid);
    RSplitOnceAt(path, '.', right);
    assert right[|IntText(pid)|] == '#';
    NotSigned(right, |IntText(pid)|);
    NotANumber(path, 0);
  }

  /** Every candidate with a path has a path that starts with `/`, and no suffix. */
  lemma CandidatesArePathSafe(token: string, id: ConnectionId)
    requires id in Candidates(token)
    ensures Typeable(id)
  {
    match Suffixed(token)
    case Some(other) => assert Typeable(other);
    case None =>
      if id in Dotted(token) {
        DottedArePathSafe(token, id);
      }
  }

  lemma DottedArePathSafe(token: string, id: ConnectionId)
    requires id in Dotted(token)
    ensures Typeable(id)
  {
  }

  /**
   * The text of an id is read as that id exactly when the id is typeable, and
   * then only the rivals are tried before it.
   */
  lemma RenderThenParse(id: ConnectionId)
    ensures id in Candidates(Render(id)) <==> Typeable(id)
    ensures Typeable(id) ==> Rivals(id) + [id] <= Candidates(Render(id))
    ensures id !in Rivals(id)
  {
    if id in Candidates(Render(id)) {
      CandidatesArePathSafe(Render(id), id);
    }
    if Typeable(id) {
      match id
      case TcpServer(port) => CandidatesOfNumber(port);
      case TcpClient(port) => CandidatesOfNumber(port);
      case IpcClient(n) => CandidatesOfSequence(n);
      case AcceptedTcp(pp, rp, Some(n)) => CandidatesOfSuffixedTcp(pp, rp, n);
      case AcceptedTcp(pp, rp, None) => CandidatesOfPlainTcp(pp, rp);
      case AcceptedIpc(path, pid, _) => CandidatesOfIpc(path, pid);
      case IpcServer(path) => SlashText(path);
    }
  }

  // The accept loop's use of the same number syntax

  /** The port in the text of a socket address: what follows the last colon. */
  function RemotePort(addr: string): Option<U16> {
    match RSplitOnce(addr, ':')
    case Some((_, port)) => ParseU16(port)
    case None => None
  }

  /** Whatever the host part looks like, the port printed after it is found. */
  lemma RemotePortOfAddress(host: string, port: U16)
    ensures RemotePort(host + ":" + Dec(port)) == Some(port)
  {
    assert host + ":" + Dec(port) == host + [':'] + Dec(port);
    RSplitOnceAt(host, ':', Dec(port));
    ParseOfDec(port);
  }

  // What each token can stand for, said of its text

  /** The token is a text for the id: numbers may have a `+` or zeros in front. */
  ghost predicate Names(token: string, id: ConnectionId) {
    match id
    case TcpServer(port) => Reads(token, port)
    case TcpClient(port) => Reads(token, port)
    case IpcClient(n) => exists digits :: Reads(digits, n) && token == "ipc:" + digits
    case IpcServer(path) => token == path && "/" <= path
    case AcceptedTcp(pp, rp, None) =>
      exists x, y :: Reads(x, pp) && Reads(y, rp) && token == x + "." + y
    case AcceptedTcp(pp, rp, Some(n)) =>
      exists x, y, z :: Reads(x, pp) && Reads(y, rp) && Reads(z, n) && token == x + "." + y + "#" + z
    case AcceptedIpc(path, pid, None) =>
      "/" <= path && exists y :: ReadsSigned(y, pid) && token == path + "." + y
    case AcceptedIpc(_, _, Some(_)) => false
  }

  lemma PortOf(text: string, port: U16)
    ensures ParseU16(text) == Some(port) <==> Reads(text, port)
  {
    ParsePortExactly(text, port);
  }

  lemma SequenceOf(text: string, n: U32)
    ensures ParseU32(text) == Some(n) <==> Reads(text, n)
  {
    ParseSequenceExactly(text, n);
  }

  lemma PidOf(text: string, pid: I32)
    ensures ParseI32(text) == Some(pid) <==> ReadsSigned(text, pid)
  {
    ParsePidExactly(text, pid);
  }

  lemma ReadsLooks(text: string, n: nat)
    requires Reads(text, n)
    ensures text != "" && (IsDigit(text[0]) || text[0] == '+')
    ensures forall c | c in text :: IsDigit(c) || c == '+'
  {
    forall c ensures IsDigit(c) <==> c in DIGITS {
      PlaceOfDigit(c);
    }
    if "+" <= text {
      assert text == "+" + text[1..];
    } else {
      assert text[0] in text;
    }
  }

  lemma SignedLooks(text: string, i: int)
    requires ReadsSigned(text, i)
    ensures '.' !in text
  {
    forall c ensures IsDigit(c) <==> c in DIGITS {
      PlaceOfDigit(c);
    }
    if i >= 0 && Reads(text, i) {
      ReadsLooks(text, i);
    } else {
      assert text == "-" + text[1..];
    }
  }

  lemma SequenceExactly(token: string, n: U32)
    ensures ClientSequence(token) == Some(n) <==> Names(token, IpcClient(n))
  {
    forall digits | Reads(digits, n) && token == "ipc:" + digits ensures ClientSequence(token) == Some(n) {
      assert token[4..] == digits;
      SequenceOf(digits, n);
    }
    if ClientSequence(token) == Some(n) {
      SequenceOf(token[4..], n);
      assert token == "ipc:" + token[4..];
    }
  }

  lemma SuffixedExactly(token: string, pp: U16, rp: U16, n: U32)
    ensures Suffixed(token) == Some(AcceptedTcp(pp, rp, Some(n))) <==> Names(token, AcceptedTcp(pp, rp, Some(n)))
  {
    forall x, y, z | Reads(x, pp) && Reads(y, rp) && Reads(z, n) && token == x + "." + y + "#" + z
      ensures Suffixed(token) == Some(AcceptedTcp(pp, rp, Some(n)))
    {
      ReadsLooks(x, pp);
      ReadsLooks(y, rp);
      var left := x + ['.'] + y;
      assert token == left + ['#'] + z;
      SplitOnceAt(left, '#', z);
      SplitOnceAt(x, '.', y);
      PortOf(x, pp);
      PortOf(y, rp);
      SequenceOf(z, n);
    }
    if Suffixed(token) == Some(AcceptedTcp(pp, rp, Some(n))) {
      var (left, z) := SplitOnce(token, '#').value;
      var (x, y) := SplitOnce(left, '.').value;
      PortOf(x, pp);
      PortOf(y, rp);
      SequenceOf(z, n);
      assert token == x + "." + y + "#" + z;
    }
  }

  lemma DottedTcpExactly(token: string, pp: U16, rp: U16)
    ensures AcceptedTcp(pp, rp, None) in Dotted(token) <==> Names(token, AcceptedTcp(pp, rp, None))
  {
    forall x, y | Reads(x, pp) && Reads(y, rp) && token == x + "." + y
      ensures AcceptedTcp(pp, rp, None) in Dotted(token)
    {
      ReadsLooks(y, rp);
      assert token == x + ['.'] + y;
      RSplitOnceAt(x, '.', y);
      PortOf(x, pp);
      PortOf(y, rp);
    }
    if AcceptedTcp(pp, rp, None) in Dotted(token) {
      var (x, y) := RSplitOnce(token, '.').value;
      PortOf(x, pp);
      PortOf(y, rp);
      assert token == x + "." + y;
    }
  }

  lemma DottedIpcExactly(token: string, path: string, pid: I32)
    ensures AcceptedIpc(path, pid, None) in Dotted(token) <==> Names(token, AcceptedIpc(path, pid, None))
  {
    forall y | "/" <= path && ReadsSigned(y, pid) && token == path + "." + y
      ensures AcceptedIpc(path, pid, None) in Dotted(token)
    {
      SignedLooks(y, pid);
      assert token == path + ['.'] + y;
      RSplitOnceAt(path, '.', y);
      PidOf(y, pid);
    }
    if AcceptedIpc(path, pid, None) in Dotted(token) {
      var y := RSplitOnce(token, '.').value.1;
      PidOf(y, pid);
      assert token == path + "." + y;
    }
  }

  lemma SuffixedLooks(token: string, pp: U16, rp: U16, n: U32)
    requires Names(token, AcceptedTcp(pp, rp, Some(n)))
    ensures '.' in token && '#' in token && (IsDigit(token[0]) || token[0] == '+')
  {
    var x, y, z :| Reads(x, pp) && Reads(y, rp) && Reads(z, n) && token == x + "." + y + "#" + z;
    ReadsLooks(x, pp);
    assert token[0] == x[0];
    assert token[|x|] == '.' && token[|x + "." + y|] == '#';
  }

  lemma DottedLooks(token: string, pp: U16, rp: U16)
    requires Names(token, AcceptedTcp(pp, rp, None))
    ensures '.' in token && '#' !in token && (IsDigit(token[0]) || token[0] == '+')
  {
    var x, y :| Reads(x, pp) && Reads(y, rp) && token == x + "." + y;
    ReadsLooks(x, pp);
    ReadsLooks(y, rp);
    assert token[0] == x[0] && token[|x|] == '.';
  }

  lemma PathLooks(token: string, path: string, pid: I32)
    requires Names(token, AcceptedIpc(path, pid, None))
    ensures "/" <= token
  {
    var y :| ReadsSigned(y, pid) && token == path + "." + y;
  }

  lemma NumberLooks(token: string, n: nat)
    requires Reads(token, n)
    ensures token != "" && (IsDigit(token[0]) || token[0] == '+')
    ensures '.' !in token && '#' !in token
  {
    ReadsLooks(token, n);
  }

  predicate IsPort(id: ConnectionId) {
    id.TcpServer? || id.TcpClient?
  }

  /** The texts of different kinds of ids look different. */
  lemma Looks(token: string, id: ConnectionId)
    requires Names(token, id)
    ensures token != ""
    ensures id.IpcClient? ==> token[0] == 'i'
    ensures id.IpcServer? || id.AcceptedIpc? ==> token[0] == '/'
    ensures IsPort(id) || id.AcceptedTcp? ==> IsDigit(token[0]) || token[0] == '+'
    ensures IsPort(id) ==> '.' !in token
    ensures id.AcceptedTcp? ==> '.' in token && ('#' in token <==> id.disambig.Some?)
  {
    match id
    case TcpServer(port) => NumberLooks(token, port);
    case TcpClient(port) => NumberLooks(token, port);
    case AcceptedTcp(pp, rp, None) => DottedLooks(token, pp, rp);
    case AcceptedTcp(pp, rp, Some(n)) => SuffixedLooks(token, pp, rp, n);
    case AcceptedIpc(path, pid, None) => PathLooks(token, path, pid);
    case IpcClient(_) =>
    case IpcServer(_) =>
  }

  lemma SequenceOnly(token: string, id: ConnectionId)
    requires "ipc:" <= token && !id.IpcClient?
    ensures !Names(token, id)
  {
    assert token[0] == 'i';
    if Names(token, id) {
      Looks(token, id);
    }
  }

  lemma NumberOnly(token: string, n: nat, id: ConnectionId)
    requires Reads(token, n) && !IsPort(id)
    ensures !Names(token, id)
  {
    NumberLooks(token, n);
    if Names(token, id) {
      Looks(token, id);
    }
  }

  lemma SuffixedOnly(token: string, pp: U16, rp: U16, n: U32, id: ConnectionId)
    requires Names(token, AcceptedTcp(pp, rp, Some(n))) && !(id.AcceptedTcp? && id.disambig.Some?)
    ensures !Names(token, id)
  {
    SuffixedLooks(token, pp, rp, n);
    if Names(token, id) {
      Looks(token, id);
    }
  }

  /** What is looked up for a token that is no sequence number, no port and no suffixed id. */
  function OtherCandidates(token: string): seq<ConnectionId> {
    Dotted(token) + if "/" <= token then [IpcServer(token)] else []
  }

  lemma OtherMembers(token: string, id: ConnectionId)
    ensures id in OtherCandidates(token) <==> id in Dotted(token) || (id == IpcServer(token) && "/" <= token)
  {
  }

  lemma DottedKinds(token: string, id: ConnectionId)
    requires id in Dotted(token)
    ensures (id.AcceptedTcp? || id.AcceptedIpc?) && id.disambig == None
  {
  }

  lemma OtherTokens(token: string, id: ConnectionId)
    requires ClientSequence(token).None? && ParseU16(token).None? && Suffixed(token).None?
    ensures id in OtherCandidates(token) <==> Names(token, id)
  {
    OtherMembers(token, id);
    if id in Dotted(token) {
      DottedKinds(token, id);
    }
    match id
    case TcpServer(port) => PortOf(token, port);
    case TcpClient(port) => PortOf(token, port);
    case IpcClient(n) => SequenceExactly(token, n);
    case AcceptedTcp(pp, rp, Some(n)) => SuffixedExactly(token, pp, rp, n);
    case AcceptedTcp(pp, rp, None) => DottedTcpExactly(token, pp, rp);
    case AcceptedIpc(path, pid, None) => DottedIpcExactly(token, path, pid);
    case AcceptedIpc(_, _, Some(_)) =>
    case IpcServer(path) =>
  }

  /** A token is looked up as just the ids that it is a text for. */
  lemma CandidatesExactly(token: string, id: ConnectionId)
    ensures id in Candidates(token) <==> Names(token, id)
  {
    if ClientSequence(token).Some? {
      if id.IpcClient? {
        SequenceExactly(token, id.seqNo);
      } else {
        SequenceOnly(token, id);
      }
    } else if ParseU16(token).Some? {
      PortCandidates(token, ParseU16(token).value, id);
    } else if Suffixed(token).Some? {
      SuffixedCandidate(token, Suffixed(token).value, id);
    } else {
      OtherTokens(token, id);
    }
  }

  lemma PortCandidates(token: string, port: U16, id: ConnectionId)
    requires ParseU16(token) == Some(port)
    ensures id in [TcpServer(port), TcpClient(port)] <==> Names(token, id)
  {
    PortOf(token, port);
    match id
    case TcpServer(p) => PortOf(token, p);
    case TcpClient(p) => PortOf(token, p);
    case _ => NumberOnly(token, port, id);
  }

  lemma SuffixedCandidate(token: string, found: ConnectionId, id: ConnectionId)
    requires Suffixed(token) == Some(found)
    ensures id in [found] <==> Names(token, id)
  {
    SuffixedExactly(token, found.parentPort, found.remotePort, found.disambig.value);
    if id.AcceptedTcp? && id.disambig.Some? {
      SuffixedExactly(token, id.parentPort, id.remotePort, id.disambig.value);
    } else {
      SuffixedOnly(token, found.parentPort, found.remotePort, found.disambig.value, id);
    }
  }

  /** Two candidates at most: a port's server comes before its client, a connection before a server path. */
  lemma CandidateOrder(token: string)
    ensures |Candidates(token)| <= 2
    ensures |Candidates(token)| == 2 ==>
              var first, second := Candidates(token)[0], Candidates(token)[1];
              (first.TcpServer? && second.TcpClient?) || (first.AcceptedIpc? && second.IpcServer?)
  {
    match RSplitOnce(token, '.')
    case None =>
    case Some((left, right)) =>
      if "/" <= left {
        NotANumber(left, 0);
      }
  }
}
