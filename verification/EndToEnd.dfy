// Typing back what the tool printed: from the text of an id and of some bytes,
// through the line parser and the token lookup, to the connection and the bytes.
module EndToEnd {
  import opened Prelude
  import opened Text
  import opened Decimal
  import opened Ids
  import opened Model
  import opened Repl
  import opened Machine
  import opened Invariants
  import opened LabelTable
  import TokenParser
  import Hex

  /** The path in an id holds no space and no tab. */
  predicate SeparatorFree(id: ConnectionId) {
    (id.IpcServer? ==> NoSeparators(id.path)) && (id.AcceptedIpc? ==> NoSeparators(id.parentPath))
  }

  lemma IdTextIsPlain(id: ConnectionId)
    requires SeparatorFree(id)
    ensures NoSeparators(Render(id))
  {
  }

  lemma PathIsInText(id: ConnectionId)
    requires NoSeparators(Render(id))
    ensures SeparatorFree(id)
  {
    if id.AcceptedIpc? {
      assert id.parentPath <= Render(id);
    }
  }

  /** The text of a typeable id can open a line, and is no keyword. */
  lemma IdTextOpens(id: ConnectionId)
    requires TokenParser.Typeable(id)
    ensures CanOpen(Render(id)) && !IsKeyword(Render(id))
  {
    match id
    case TcpServer(port) => assert IsDigit(Dec(port)[0]);
    case TcpClient(port) => assert IsDigit(Dec(port)[0]);
    case IpcServer(path) => assert path[0] == '/';
    case IpcClient(n) => assert Render(id)[3] == ':';
    case AcceptedTcp(pp, rp, d) => assert IsDigit(Dec(pp)[0]) && Render(id)[0] == Dec(pp)[0];
    case AcceptedIpc(path, pid, d) => assert Render(id)[0] == path[0] == '/';
  }

  /**
   * The text of a live id, typed where no label takes it, finds that id exactly when
   * none of the ids that the same text is tried for first is live.
   */
  lemma TypedIdResolves(s: State, id: ConnectionId)
    requires s.IsLive(id) && TokenParser.Typeable(id) && Render(id) !in s.labels
    ensures Resolve(s, Render(id)) == Ok(id)
            <==> forall rival | rival in TokenParser.Rivals(id) :: !s.IsLive(rival)
  {
    TokenParser.RenderThenParse(id);
    var rivals, all := TokenParser.Rivals(id), TokenParser.Candidates(Render(id));
    FirstLiveAfter(s, rivals, id, all);
  }

  /**
   * Typing back the name under which a live handle is shown finds the handle: by its
   * label, unless a renaming has stranded the label, or by its id, if the text is
   * nobody's label and nothing that is tried first is live.
   */
  lemma ShownNameResolves(s: State, id: ConnectionId)
    requires Inv(s) && s.IsLive(id)
    ensures s.LabelOf(id).Some? ==>
              (Resolve(s, s.DisplayName(id)) == Ok(id)
               <==> !(id.IsRenamed() && s.labels[s.DisplayName(id)] == id.BaseOf().Id(None)))
    ensures s.LabelOf(id).None? && TokenParser.Typeable(id) && Render(id) !in s.labels ==>
              (Resolve(s, s.DisplayName(id)) == Ok(id)
               <==> forall rival | rival in TokenParser.Rivals(id) :: !s.IsLive(rival))
  {
    if s.LabelOf(id).Some? {
      LabelMeaning(s, id, s.LabelOf(id).value);
    } else {
      LabelMeaning(s, id, "");
      if TokenParser.Typeable(id) && Render(id) !in s.labels {
        TypedIdResolves(s, id);
      }
    }
  }

  lemma {:induction false} FirstLiveAfter(s: State, rivals: seq<ConnectionId>, id: ConnectionId, all: seq<ConnectionId>)
    requires rivals + [id] <= all && s.IsLive(id) && id !in rivals
    ensures FirstLive(s, all) == Some(id) <==> forall rival | rival in rivals :: !s.IsLive(rival)
    ensures FirstLive(s, all).Some?
  {
    if rivals != [] {
      assert all[0] == rivals[0];
      assert rivals[1..] + [id] <= all[1..];
      if !s.IsLive(rivals[0]) {
        FirstLiveAfter(s, rivals[1..], id, all[1..]);
      }
      assert rivals == [rivals[0]] + rivals[1..];
    } else {
      assert all[0] == id;
    }
  }

  /** The only id that is never found by its own text: a numbered connection of an IPC server. */
  lemma SuffixedIpcIsNotTypeable(s: State, path: string, pid: I32, n: U32)
    requires "/" <= path
    ensures var text := Render(AcceptedIpc(path, pid, Some(n)));
            text !in s.labels ==>
              Resolve(s, text) == if s.IsLive(IpcServer(text)) then Ok(IpcServer(text)) else Err(UnknownId(text))
  {
    TokenParser.CandidatesOfSuffixedIpc(path, pid, n);
    var text := Render(AcceptedIpc(path, pid, Some(n)));
    if text !in s.labels {
      OnlyCandidate(s, IpcServer(text), text);
    }
  }

  lemma OnlyCandidate(s: State, id: ConnectionId, token: string)
    requires TokenParser.Candidates(token) == [id] && token !in s.labels
    ensures Resolve(s, token) == if s.IsLive(id) then Ok(id) else Err(UnknownId(token))
  {
    assert [id][1..] == [];
    assert FirstLive(s, [id][1..]).None?;
  }

  lemma SendTextParses(token: string, bytes: seq<U8>)
    requires CanOpen(token) && !IsKeyword(token) && bytes != []
    ensures ParseLine(token + " " + Join(Hex.Pairs(bytes))) == Ok(Some(Send(token, bytes))) <==> NoSeparators(token)
  {
    var words := Words(Send(token, bytes));
    assert words[1..] == Hex.Pairs(bytes);
    if NoSeparators(token) {
      WriteThenParse(Send(token, bytes));
    }
    TypeableExactly(Send(token, bytes));
  }

  /**
   * A printed id, a space and printed bytes: the line is a Send of those bytes to
   * that id if and only if there is no space and no tab in the id's path.
   */
  lemma TypedBack(s: State, id: ConnectionId, bytes: seq<U8>)
    requires s.IsLive(id) && TokenParser.Typeable(id) && bytes != []
    requires Render(id) !in s.labels
    requires forall rival | rival in TokenParser.Rivals(id) :: !s.IsLive(rival)
    ensures ParseLine(Render(id) + " " + Join(Hex.Pairs(bytes))) == Ok(Some(Send(Render(id), bytes)))
            <==> SeparatorFree(id)
    ensures Resolve(s, Render(id)) == Ok(id)
  {
    IdTextOpens(id);
    SendTextParses(Render(id), bytes);
    if SeparatorFree(id) {
      IdTextIsPlain(id);
    }
    if NoSeparators(Render(id)) {
      PathIsInText(id);
    }
    TypedIdResolves(s, id);
  }
}
