// The REPL's line syntax: what a line parses to, how a command is written, and
// that writing a command and parsing the line gives the command back.
module Repl {
  import opened Prelude
  import opened Text
  import opened Decimal
  import Hex

  datatype Command =
    | OpenTcpServer(port: U16)
    | OpenIpcServer(path: string)
    | OpenTcpClient(localPort: U16, remoteHost: string, remotePort: U16)
    | OpenIpcClient(remotePath: string)
    | Close(idToken: string)
    | Send(idToken: string, bytes: seq<U8>)
    | Label(idToken: string, name: string)
    | Status

  /** Parse errors carry no wording here; payload errors come from the domain. */
  datatype ReplError = Parse | Domain(error: DomainError)

  type Parsed = Result<Option<Command>, ReplError>

  predicate IsKeyword(token: string) {
    token in {"open", "close", "label", "status"}
  }

  function ParseLine(rawLine: string): Parsed {
    var line := Trim(rawLine);
    if line == "" then Ok(None)
    else
      var tokens := Tokens(line);
      if tokens == [] then Ok(None) else ParseTokens(tokens)
  }

  function ParseTokens(tokens: seq<string>): Parsed
    requires tokens != []
  {
    if tokens[0] == "open" then ParseOpen(tokens[1..])
    else if tokens[0] == "close" then
      if |tokens| != 2 then Err(Parse) else Ok(Some(Close(tokens[1])))
    else if tokens[0] == "label" then
      if |tokens| != 3 then Err(Parse) else Ok(Some(Label(tokens[1], tokens[2])))
    else if tokens[0] == "status" then
      if |tokens| != 1 then Err(Parse) else Ok(Some(Status))
    else if |tokens| < 2 then Err(Parse)
    else
      match Hex.Payload(Hex.Concat(tokens[1..]))
      case Ok(bytes) => Ok(Some(Send(tokens[0], bytes)))
      case Err(e) => Err(Domain(e))
  }

  function ParseOpen(args: seq<string>): Parsed {
    if args == [] then Err(Parse)
    else if args[0] == "server" then
      if |args| != 2 then Err(Parse)
      else
        match ParseU16(args[1])
        case Some(port) => Ok(Some(OpenTcpServer(port)))
        case None => Err(Parse)
    else if args[0] == "client" then
      if |args| != 3 then Err(Parse)
      else
        match (ParseU16(args[1]), SplitHostPort(args[2]))
        case (Some(localPort), Some((host, port))) => Ok(Some(OpenTcpClient(localPort, host, port)))
        case _ => Err(Parse)
    else if args[0] == "ipc" then ParseOpenIpc(args[1..])
    else Err(Parse)
  }

  function ParseOpenIpc(args: seq<string>): Parsed {
    if args == [] then Err(Parse)
    else if args[0] == "server" then
      if |args| != 2 then Err(Parse) else Ok(Some(OpenIpcServer(args[1])))
    else if args[0] == "client" then
      if |args| != 2 then Err(Parse) else Ok(Some(OpenIpcClient(args[1])))
    else Err(Parse)
  }

  /** `host:port`, or `[host]:port` for hosts that hold colons of their own. */
  function SplitHostPort(s: string): Option<(string, U16)> {
    match StripPrefix(s, "[")
    case Some(rest) =>
      (match SplitOnce(rest, ']')
       case None => None
       case Some((host, after)) =>
         match StripPrefix(after, ":")
         case None => None
         case Some(portText) => WithPort(host, portText))
    case None =>
      match RSplitOnce(s, ':')
      case None => None
      case Some((host, portText)) => WithPort(host, portText)
  }

  function WithPort(host: string, portText: string): Option<(string, U16)> {
    match ParseU16(portText)
    case Some(port) => Some((host, port))
    case None => None
  }

  // Writing commands

  function HostPortText(host: string, port: U16): string {
    if "[" <= host then "[" + host + "]:" + Dec(port) else host + ":" + Dec(port)
  }

  /** The hosts that some `host:port` text can name. */
  predicate Nameable(host: string) {
    "[" <= host ==> ']' !in host
  }

  function Words(cmd: Command): seq<string> {
    match cmd
    case OpenTcpServer(port) => ["open", "server", Dec(port)]
    case OpenIpcServer(path) => ["open", "ipc", "server", path]
    case OpenTcpClient(local, host, port) => ["open", "client", Dec(local), HostPortText(host, port)]
    case OpenIpcClient(path) => ["open", "ipc", "client", path]
    case Close(token) => ["close", token]
    case Send(token, bytes) => [token] + Hex.Pairs(bytes)
    case Label(token, name) => ["label", token, name]
    case Status => ["status"]
  }

  /** The commands that some line stands for. */
  predicate Typeable(cmd: Command) {
    match cmd
    case OpenTcpServer(_) => true
    case OpenIpcServer(path) => IsWord(path) && CanClose(path)
    case OpenTcpClient(_, host, _) => NoSeparators(host) && Nameable(host)
    case OpenIpcClient(path) => IsWord(path) && CanClose(path)
    case Close(token) => IsWord(token) && CanClose(token)
    case Send(token, bytes) => IsWord(token) && CanOpen(token) && !IsKeyword(token) && bytes != []
    case Label(token, name) => IsWord(token) && IsWord(name) && CanClose(name)
    case Status => true
  }

  lemma DecIsWord(n: nat)
    ensures IsWord(Dec(n)) && CanOpen(Dec(n)) && CanClose(Dec(n))
  {
  }

  lemma BracketedHostText(host: string, port: U16)
    requires ']' !in host
    ensures SplitHostPort("[" + host + "]:" + Dec(port)) == Some((host, port))
  {
    var s, rest, after := "[" + host + "]:" + Dec(port), host + "]:" + Dec(port), ":" + Dec(port);
    assert s == "[" + rest && s[1..] == rest;
    assert SplitOnce(rest, ']') == Some((host, after)) by {
      assert rest == host + [']'] + after;
      SplitOnceAt(host, ']', after);
    }
    assert after[1..] == Dec(port);
    ParseOfDec(port);
  }

  lemma BareHostText(host: string, port: U16)
    requires !("[" <= host)
    ensures SplitHostPort(host + ":" + Dec(port)) == Some((host, port))
  {
    var s := host + ":" + Dec(port);
    assert !("[" <= s) by {
      assert s[0] == if host == "" then ':' else host[0];
    }
    assert RSplitOnce(s, ':') == Some((host, Dec(port))) by {
      assert s == host + [':'] + Dec(port);
      RSplitOnceAt(host, ':', Dec(port));
    }
    ParseOfDec(port);
  }

  lemma OwnHostText(host: string, port: U16)
    requires Nameable(host)
    ensures SplitHostPort(HostPortText(host, port)) == Some((host, port))
  {
    if "[" <= host {
      BracketedHostText(host, port);
    } else {
      BareHostText(host, port);
    }
  }

  /** A host can be read from some text exactly when it is nameable; then its own text does. */
  lemma HostPortRoundTrip(host: string, port: U16)
    ensures Nameable(host) <==> exists s :: SplitHostPort(s) == Some((host, port))
    ensures Nameable(host) ==> SplitHostPort(HostPortText(host, port)) == Some((host, port))
  {
    if Nameable(host) {
      OwnHostText(host, port);
    } else {
      forall s ensures SplitHostPort(s) != Some((host, port)) {
        UnnameableHost(s, host);
      }
    }
  }

  lemma UnnameableHost(s: string, host: string)
    requires "[" <= host && ']' in host
    ensures SplitHostPort(s).Some? ==> SplitHostPort(s).value.0 != host
  {
  }

  lemma HostTextIsWord(host: string, port: U16)
    requires NoSeparators(host)
    ensures IsWord(HostPortText(host, port)) && CanClose(HostPortText(host, port))
  {
    DecIsWord(port);
    var s := HostPortText(host, port);
    assert s[|s| - 1] == Dec(port)[|Dec(port)| - 1];
  }

  lemma FourTokens(a: string, b: string, c: string, d: string)
    requires IsWord(a) && IsWord(b) && IsWord(c) && IsWord(d) && CanOpen(a) && CanClose(d)
    ensures AreTokens([a, b, c, d])
  {
  }

  lemma ThreeTokens(a: string, b: string, c: string)
    requires IsWord(a) && IsWord(b) && IsWord(c) && CanOpen(a) && CanClose(c)
    ensures AreTokens([a, b, c])
  {
  }

  lemma WordsAreTokens(cmd: Command)
    requires Typeable(cmd)
    ensures AreTokens(Words(cmd))
  {
    match cmd
    case OpenTcpServer(port) =>
      DecIsWord(port);
      ThreeTokens("open", "server", Dec(port));
    case OpenIpcServer(path) => FourTokens("open", "ipc", "server", path);
    case OpenTcpClient(local, host, port) =>
      DecIsWord(local);
      HostTextIsWord(host, port);
      FourTokens("open", "client", Dec(local), HostPortText(host, port));
    case OpenIpcClient(path) => FourTokens("open", "ipc", "client", path);
    case Label(token, name) => ThreeTokens("label", token, name);
    case Send(token, bytes) => SendWordsAreTokens(token, bytes);
    case Close(_) =>
    case Status =>
  }

  lemma SendWordsAreTokens(token: string, bytes: seq<U8>)
    requires IsWord(token) && CanOpen(token) && bytes != []
    ensures AreTokens([token] + Hex.Pairs(bytes))
  {
    var pairs := Hex.Pairs(bytes);
    Hex.PairsAreWords(bytes);
    assert pairs[|pairs| - 1] in pairs;
  }

  lemma OpenClientThenParse(cmd: Command)
    requires cmd.OpenTcpClient? && Typeable(cmd)
    ensures ParseTokens(Words(cmd)) == Ok(Some(cmd))
  {
    ParseOfDec(cmd.localPort);
    OwnHostText(cmd.remoteHost, cmd.remotePort);
    var args := Words(cmd)[1..];
    assert args == ["client", Dec(cmd.localPort), HostPortText(cmd.remoteHost, cmd.remotePort)];
  }

  lemma SendThenParse(cmd: Command)
    requires cmd.Send? && Typeable(cmd)
    ensures ParseTokens(Words(cmd)) == Ok(Some(cmd))
  {
    assert Words(cmd)[1..] == Hex.Pairs(cmd.bytes);
    Hex.ConcatOfPairs(cmd.bytes);
  }

  lemma WordsThenParse(cmd: Command)
    requires Typeable(cmd)
    ensures Words(cmd) != [] && ParseTokens(Words(cmd)) == Ok(Some(cmd))
  {
    match cmd
    case OpenTcpServer(port) => ParseOfDec(port);
    case OpenTcpClient(_, _, _) => OpenClientThenParse(cmd);
    case Send(_, _) => SendThenParse(cmd);
    case _ =>
  }

  /** A typeable command, written out, parses to itself. */
  lemma WriteThenParse(cmd: Command)
    requires Typeable(cmd)
    ensures ParseLine(Join(Words(cmd))) == Ok(Some(cmd))
  {
    WordsAreTokens(cmd);
    TrimOfJoin(Words(cmd));
    TokensOfJoin(Words(cmd));
    WordsThenParse(cmd);
  }

  lemma PartIsPlain(whole: string, head: string, part: string, tail: string)
    requires NoSeparators(whole) && whole == head + part + tail
    ensures NoSeparators(part)
  {
    assert forall i | 0 <= i < |part| :: part[i] == whole[|head| + i];
  }

  lemma ParsedHost(s: string, host: string, port: U16)
    requires NoSeparators(s) && SplitHostPort(s) == Some((host, port))
    ensures NoSeparators(host) && Nameable(host)
  {
    if !Nameable(host) {
      UnnameableHost(s, host);
    }
    HostExactly(s, host, port);
    if digits :| s == "[" + host + "]:" + digits {
      PartIsPlain(s, "[", host, "]:" + digits);
    } else {
      var digits :| s == host + ":" + digits;
      PartIsPlain(s, "", host, ":" + digits);
    }
  }

  lemma ParsedOpen(args: seq<string>, cmd: Command)
    requires args != [] && (forall w | w in args :: IsWord(w)) && CanClose(args[|args| - 1])
    requires ParseOpen(args) == Ok(Some(cmd))
    ensures Typeable(cmd)
  {
    if args[0] == "client" {
      assert IsWord(args[2]);
      ParsedHost(args[2], cmd.remoteHost, cmd.remotePort);
    } else if args[0] == "ipc" {
      assert args[1..][|args[1..]| - 1] == args[2] && IsWord(args[2]);
    }
  }

  lemma ParsedTokens(tokens: seq<string>, cmd: Command)
    requires AreTokens(tokens) && ParseTokens(tokens) == Ok(Some(cmd))
    ensures Typeable(cmd)
  {
    assert IsWord(tokens[0]);
    if tokens[0] == "open" {
      assert tokens[1..] != [];
      ParsedOpen(tokens[1..], cmd);
    } else if tokens[0] == "close" || tokens[0] == "label" {
      assert forall k | 0 <= k < |tokens| :: IsWord(tokens[k]);
    } else if tokens[0] != "status" {
      Hex.PayloadMeaning(Hex.Concat(tokens[1..]));
    }
  }

  /** Some line stands for a command if and only if the command is typeable. */
  lemma TypeableExactly(cmd: Command)
    ensures Typeable(cmd) <==> exists line :: ParseLine(line) == Ok(Some(cmd))
  {
    if Typeable(cmd) {
      WriteThenParse(cmd);
    }
    forall line | ParseLine(line) == Ok(Some(cmd)) ensures Typeable(cmd) {
      TokensOfTrimmed(line);
      ParsedTokens(Tokens(Trim(line)), cmd);
    }
  }

  /** The parser never yields an empty payload, nor a Send whose id is a keyword. */
  lemma ParsedSend(line: string)
    ensures var p := ParseLine(line);
            p.Ok? && p.value.Some? && p.value.value.Send? ==>
              p.value.value.bytes != [] && !IsKeyword(p.value.value.idToken)
  {
    var tokens := Tokens(Trim(line));
    if |tokens| >= 2 {
      Hex.PayloadMeaning(Hex.Concat(tokens[1..]));
    }
  }

  // What each line means, said of its tokens

  /** `[host]:port`, or `host:port` for a host without `[` in front. */
  ghost predicate NamesHost(text: string, host: string, port: U16) {
    (exists digits :: Reads(digits, port) && text == "[" + host + "]:" + digits && ']' !in host)
    || (!("[" <= text) && exists digits :: Reads(digits, port) && text == host + ":" + digits)
  }

  /** The tokens stand for the command. */
  ghost predicate Means(tokens: seq<string>, cmd: Command) {
    match cmd
    case OpenTcpServer(port) =>
      |tokens| == 3 && tokens[..2] == ["open", "server"] && Reads(tokens[2], port)
    case OpenIpcServer(path) => tokens == ["open", "ipc", "server", path]
    case OpenTcpClient(local, host, port) =>
      |tokens| == 4 && tokens[..2] == ["open", "client"] && Reads(tokens[2], local) && NamesHost(tokens[3], host, port)
    case OpenIpcClient(path) => tokens == ["open", "ipc", "client", path]
    case Close(token) => tokens == ["close", token]
    case Label(token, name) => tokens == ["label", token, name]
    case Status => tokens == ["status"]
    case Send(token, bytes) =>
      |tokens| >= 2 && tokens[0] == token && token !in {"open", "close", "label", "status"}
      && bytes != [] && Hex.SpellsBytes(Hex.Concat(tokens[1..]), bytes)
  }

  lemma ReadsHasNo(c: char, digits: string, n: nat)
    requires Reads(digits, n) && c !in DIGITS && c != '+'
    ensures c !in digits
  {
    if "+" <= digits {
      assert digits == "+" + digits[1..];
    }
  }

  lemma PortOf(text: string, port: U16)
    ensures ParseU16(text) == Some(port) <==> Reads(text, port)
  {
    ParsePortExactly(text, port);
  }

  lemma BracketedExactly(rest: string, host: string, port: U16)
    ensures SplitHostPort("[" + rest) == Some((host, port))
            <==> exists digits :: Reads(digits, port) && "[" + rest == "[" + host + "]:" + digits && ']' !in host
  {
    var text := "[" + rest;
    assert text[1..] == rest;
    forall digits | Reads(digits, port) && text == "[" + host + "]:" + digits && ']' !in host
      ensures SplitHostPort(text) == Some((host, port))
    {
      var after := ":" + digits;
      assert rest == text[1..] == host + [']'] + after;
      SplitOnceAt(host, ']', after);
      assert after[1..] == digits;
      PortOf(digits, port);
    }
    if SplitHostPort(text) == Some((host, port)) {
      var after := SplitOnce(rest, ']').value.1;
      assert after == ":" + after[1..];
      PortOf(after[1..], port);
      assert text == "[" + host + "]:" + after[1..];
    }
  }

  lemma BareExactly(text: string, host: string, port: U16)
    requires !("[" <= text)
    ensures SplitHostPort(text) == Some((host, port))
            <==> exists digits :: Reads(digits, port) && text == host + ":" + digits
  {
    forall digits | Reads(digits, port) && text == host + ":" + digits
      ensures SplitHostPort(text) == Some((host, port))
    {
      ReadsHasNo(':', digits, port);
      assert text == host + [':'] + digits;
      RSplitOnceAt(host, ':', digits);
      PortOf(digits, port);
    }
    if SplitHostPort(text) == Some((host, port)) {
      var digits := RSplitOnce(text, ':').value.1;
      PortOf(digits, port);
      assert text == host + ":" + digits;
    }
  }

  lemma HostExactly(text: string, host: string, port: U16)
    ensures SplitHostPort(text) == Some((host, port)) <==> NamesHost(text, host, port)
  {
    if "[" <= text {
      assert text == "[" + text[1..];
      BracketedExactly(text[1..], host, port);
    } else {
      BareExactly(text, host, port);
      assert forall digits :: "[" <= "[" + host + "]:" + digits;
    }
  }

  lemma OpenMeans(tokens: seq<string>, cmd: Command)
    requires tokens != [] && tokens[0] == "open"
    ensures ParseTokens(tokens) == Ok(Some(cmd)) <==> Means(tokens, cmd)
  {
    var args := tokens[1..];
    assert forall k | 0 <= k < |args| :: args[k] == tokens[k + 1];
    match cmd
    case OpenTcpServer(port) =>
      if |tokens| == 3 {
        PortOf(tokens[2], port);
      }
    case OpenTcpClient(local, host, port) =>
      if |tokens| == 4 {
        PortOf(tokens[2], local);
        HostExactly(tokens[3], host, port);
      }
    case OpenIpcServer(path) =>
    case OpenIpcClient(path) =>
    case _ =>
  }

  lemma SendMeans(tokens: seq<string>, cmd: Command)
    requires tokens != [] && !IsKeyword(tokens[0])
    ensures ParseTokens(tokens) == Ok(Some(cmd)) <==> Means(tokens, cmd)
  {
    if cmd.Send? && |tokens| >= 2 {
      Hex.PayloadSpells(Hex.Concat(tokens[1..]), cmd.bytes);
    }
  }

  /** Tokens are parsed to just the command that they stand for. */
  lemma MeansExactly(tokens: seq<string>, cmd: Command)
    requires tokens != []
    ensures ParseTokens(tokens) == Ok(Some(cmd)) <==> Means(tokens, cmd)
  {
    if tokens[0] == "open" {
      OpenMeans(tokens, cmd);
    } else if !IsKeyword(tokens[0]) {
      SendMeans(tokens, cmd);
    }
  }

  /** A line of bytes for a target that is no keyword, whose payload is refused. */
  ghost predicate BadPayload(tokens: seq<string>, error: DomainError) {
    |tokens| >= 2 && tokens[0] !in {"open", "close", "label", "status"}
    && Hex.Payload(Hex.Concat(tokens[1..])) == Err(error)
  }

  /**
   * Every line: nothing is asked for if it is blank; it stands for a command if its
   * tokens mean that; otherwise it is refused, with the payload's own error if the
   * payload is to blame and as a bad command else.
   */
  lemma LineExactly(line: string)
    ensures var tokens := Tokens(Trim(line));
            (ParseLine(line) == Ok(None) <==> Trim(line) == "")
            && (forall cmd :: ParseLine(line) == Ok(Some(cmd)) <==> tokens != [] && Means(tokens, cmd))
            && (forall error :: ParseLine(line) == Err(Domain(error)) <==> BadPayload(tokens, error))
            && (ParseLine(line) == Err(Parse)
                <==> tokens != [] && (forall cmd :: !Means(tokens, cmd))
                     && (forall error :: !BadPayload(tokens, error)))
  {
    var tokens := Tokens(Trim(line));
    if Trim(line) == "" {
      assert Fields("") == [""] && DropEmpty([""][1..]) == [];
      assert tokens == [];
    } else {
      TokensOfTrimmed(line);
      TokensExactly(tokens);
    }
  }

  lemma TokensExactly(tokens: seq<string>)
    requires tokens != []
    ensures forall cmd :: ParseTokens(tokens) == Ok(Some(cmd)) <==> Means(tokens, cmd)
    ensures forall error :: ParseTokens(tokens) == Err(Domain(error)) <==> BadPayload(tokens, error)
    ensures ParseTokens(tokens) != Ok(None)
  {
    forall cmd ensures ParseTokens(tokens) == Ok(Some(cmd)) <==> Means(tokens, cmd) {
      MeansExactly(tokens, cmd);
    }
    if tokens[0] == "open" {
      OpenNeverBlames(tokens[1..]);
    }
  }

  lemma OpenNeverBlames(args: seq<string>)
    ensures ParseOpen(args) == Err(Parse) || (ParseOpen(args).Ok? && ParseOpen(args).value.Some?)
  {
  }
}
