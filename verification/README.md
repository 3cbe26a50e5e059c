# wiredock: a verified model of the connection registry

wiredock keeps every TCP and Unix-socket connection of an interactive session in
one registry, owned by one task that takes messages one at a time: user commands,
events from reader tasks, accepted connections and a shutdown request. This
project models that registry, the task's message loop, and the text layer around
them (ids, tokens, command lines, hex payloads, the status report), and proves
what holds of every reachable state and of every run.

`dafny verify dfyconfig.toml` checks the whole project.

## How the model is built

* `Registry.dfy` and `Runtime.dfy` are the program's own shape: a class whose maps
  are updated in place, loops over hash sets in whatever order they yield, and the
  task's loop over its messages. Every method is proved equal to a closed form.
* `Model.dfy`, `StatusReport.dfy` and `Machine.dfy` hold these closed forms: a state
  as a value, each operation's effect without loops or orders, and `Step` and `Run`.
* `Replies.dfy` and `ReportText.dfy` say outright, without the model's own helper
  functions, when each operation succeeds, which error comes otherwise, what is shown
  and what state is left.
* What the operating system answers (bind, connect, write, flush) and the order in
  which hash maps are walked come with the message, so a run is any sequence of
  messages, and a theorem about runs speaks of all answers and orders.
* A task is known by its number. `Host` records what the program did to the outside:
  tasks spawned with the id they captured, tasks aborted, socket files removed and
  lines displayed. A stream handle records all bytes written to its socket.
* `Panicked` is an outcome of a step, for the places where the code would panic.
* `seed` is the number stored for the third connection with one base id. The code
  stores 2; it is a parameter so that the effect of that choice can be stated.

## Where the code differs from its own words

The model follows the code. Each point below is a proved statement.

* The third connection of a base gets `#2` again, the id of the second, and no other
  two share one (`IdsRepeat`, `KthInRun`). If the second is still live, it is
  overwritten, its reader orphaned, and its label leads to the third
  (`ThirdOverwritesSecond`, `LabelReachesStranger`; `CollisionRun` is the smallest such
  run). An accept reissues a live id exactly when the counter stands at 2 and `#2` is
  live (`ReissueExactly`, `FreshInRun`); with seed 3 it never happens
  (`SeedThreeNoReissue`).
* The comment at `src/domain/registry.rs:514` says that the renaming updates the label
  map. It does not: a label given before the collision stays with the connection but
  leads to a dead id (`RenameStrandsLabel`, `StaleLabelIsInert`; `StrandingRun` is the
  smallest such run). Labels lead to their bearers exactly as long as no labelled
  connection is renamed or overwritten (`StepHome`, `RunHome`).
* A renamed connection's reader goes on reporting under the old id, so its end is
  never noticed (`OwnReaderCloses`, `RenamedIsNeverNoticed`).
* An accept queued behind the close of its server panics (`LateHandoffPanics`,
  `PanicsExactly`; `LateRun` is the smallest such run).
* A disambiguated accepted IPC id is printed but not read back (`RenderThenParse`,
  `SuffixedIpcIsNotTypeable`).
* The comment at `src/domain/registry.rs:686-688` says that one port cannot be open as
  a server and as a client. The open checks do not see to that
  (`PortCheckMissesServers`, `PortCheckMissesClients`): it holds exactly as long as no
  message opens one over the other (`RunExclusive`), so it takes the operating
  system's bind to refuse that (`BindKeepsPortsApart`).
* The status report does not depend on the order of the hash maps if paths start with
  `/`. It does if a path is the number of an open port and one of the two servers has
  connections (`StatusOrderInRun`; `TieRun` is such a run).
* The comment at `src/repl/runtime.rs:337` says that the id of an IPC client cannot
  collide. It can once the counter has saturated (`FreshExactly`).

A run "without reissued ids" below is one in which no message inserts a stream
under an id that is still live (`Effects.NoReissue`).

## Model

| member | source | states |
|---|---|---|
| RegistryClass.Registry.ResolveId | src/domain/registry.rs:198-217 | labels win, then the first live candidate in the parser's order, else the token is unknown |
| Replies.ResolveExactly | src/domain/registry.rs:198-217 | a token stands for an id if and only if it is a label with that entry, or no label and the id is the first live candidate; else it is unknown |
| EndToEnd.ShownNameResolves | src/domain/registry.rs:220-233 | typing back the name under which a live handle is shown finds it: by its label if and only if no renaming has stranded the label, else by its id if and only if nothing tried first is live |
| LabelTable.LabelMeaning | src/domain/registry.rs:267-278 | the current label of an id is in the table under that id or its former one, no other live handle bears it, and it is the name shown; without one the id is shown |
| RegistryClass.Registry.AllocIpcClientSeq | src/domain/registry.rs:86-93 | returns the counter and moves it on, saturating at the largest u32 |
| RegistryClass.Registry.ApplyLabel | src/domain/registry.rs:236-265 | refuses names that lead elsewhere and dead ids without any change; otherwise frees the old name and sets the new one |
| Replies.LabelExactly | src/domain/registry.rs:236-265 | labelling succeeds if and only if the id is live and the name is free or leads to it already; which error comes else; what becomes of the handle and of every entry of the table |
| Replies.LabelCommandExactly | src/repl/runtime.rs:402-410 | the same of the label command and its reply |
| RegistryClass.Registry.InsertStream | src/domain/registry.rs:281-290 | the stream is live under its id, over whatever was there, and its parent, if live, has it as a child |
| RegistryClass.Registry.DropStream | src/domain/registry.rs:293-313 | the stream, its child entry and its label are gone and its reader is aborted |
| Replies.DropStreamExactly | src/domain/registry.rs:293-313 | the stream, its label, its place among the children and its reader go, and nothing else |
| RegistryClass.Registry.DropServer | src/domain/registry.rs:321-341 | for every order of the children, the whole state after closing a server, in closed form, and the invariant |
| RegistryClass.Registry.WriteToStream | src/domain/registry.rs:391-415 | what reaches the socket and which error comes back, for each outcome of write and flush |
| RegistryClass.Registry.SendBytes | src/domain/registry.rs:349-389 | the state and result of a send or broadcast, for every order of the children |
| Replies.SendToServerExactly | src/domain/registry.rs:356-386 | a send to a server succeeds if and only if there are bytes, the server runs and has a connection; which error comes else, with nothing changed |
| Replies.SendToStreamExactly | src/domain/registry.rs:388-415 | for each outcome of write and flush, the bytes added to the stream, the error, and that nothing else changes |
| Replies.BroadcastTakes | src/domain/registry.rs:374-385 | in a broadcast each child gets what its own socket takes |
| Replies.FailureNames | src/domain/registry.rs:376-383 | a failure line carries the label or the id of the child and the error of its socket |
| Replies.SendCommandExactly | src/repl/runtime.rs:389-401 | the reply of a send: the count of bytes and the id, or the error |
| RegistryClass.Registry.OnReceived | src/domain/registry.rs:418-432 | shows one line under the display name and changes nothing else |
| RegistryClass.Registry.OnClosedEvent | src/domain/registry.rs:435-453 | nothing for a dead id; otherwise the stream is dropped and one CLOSED line shown |
| RegistryClass.Registry.OnErrorEvent | src/domain/registry.rs:456-467 | shows one line under the display name and changes nothing else |
| Replies.EventExactly | src/repl/runtime.rs:418-444 | what each event shows, under the label of its connection if it has one, and which event drops a stream |
| RegistryClass.Registry.RenameAccepted | src/domain/registry.rs:614-632 | the handle moves to the new id in the stream map and in its parent's children; labels stay |
| RegistryClass.Registry.AllocateAcceptedTcpId | src/domain/registry.rs:477-547 | the id, the renaming and the tables after each branch; the second lookup never fails |
| RegistryClass.Registry.AllocateAcceptedIpcId | src/domain/registry.rs:550-612 | the same for IPC, keyed by process id |
| RegistryClass.Registry.Shutdown | src/domain/registry.rs:636-649 | for every order of servers and streams, the state after shutdown in closed form |
| RegistryClass.Registry.RenderStatus | src/domain/registry.rs:105-189 | the exact text of the report for a given walk of the maps; the lookups in both maps never fail |
| ReportText.ReportExactly | src/domain/registry.rs:105-189 | the whole text of the report, letter by letter: its lines, their order, and nothing else |
| ReportText.ClientIsListed | src/domain/registry.rs:124-144 | a free client has its line under CLIENTS with id, far end, `CONNECTED` and label |
| ReportText.ChildIsListed | src/domain/registry.rs:157-184 | an accepted connection has its line under its server with id, peer, `CONNECTED` and label |
| ReportText.NoneExactly | src/domain/registry.rs:118-155 | `(none)` stands under CLIENTS if and only if there is no free client, and under SERVERS if there is no server |
| ReportText.TextLeExactly | src/domain/registry.rs:116-116 | the order of the lines is that of their texts, by the first letter that differs |
| Runtime.SpawnStream | src/repl/runtime.rs:503-564 | a new reader task that captures the id, and a connected handle that holds it |
| Runtime.HandleCommand | src/repl/runtime.rs:109-416 | state and reply of every command, for all answers of the operating system; keeps the invariant |
| Replies.OpenTcpServerExactly | src/repl/runtime.rs:123-212 | a TCP server opens if and only if none is live and the bind succeeds; the error and the whole state in each case |
| Replies.OpenIpcServerExactly | src/repl/runtime.rs:213-293 | the same of an IPC server |
| Replies.OpenTcpClientExactly | src/repl/runtime.rs:294-332 | the same of a TCP client and its connect |
| Replies.OpenIpcClientExactly | src/repl/runtime.rs:333-363 | the same of an IPC client, which uses up a number either way |
| Replies.CloseCommandExactly | src/repl/runtime.rs:364-388 | what is closed, shown and answered, or that the token is unknown |
| Runtime.HandleEvent | src/repl/runtime.rs:418-444 | the state after every event |
| Runtime.HandleAccepted | src/repl/runtime.rs:446-497 | the state after an accepted connection, or the panic with the state unchanged |
| Replies.AcceptedExactly | src/repl/runtime.rs:477-497 | the handle, the reader and the lines of an accepted connection |
| Replies.MismatchExactly | src/repl/runtime.rs:467-474 | an accept of another shape shows one line and changes nothing |
| Replies.BaseExactly | src/repl/runtime.rs:457-466 | the numbering is that of the server the message names and of the peer, whatever id it proposes |
| Replies.AcceptLoopExactly | src/repl/runtime.rs:140-261 | which messages accept loops send for which peers |
| Runtime.RunRegistry | src/repl/runtime.rs:46-107 | the loop computes `Run`, and tears everything down on a shutdown request or a closed channel |
| Ids.KeyInjective | src/domain/registry.rs:483-483 | the table keys of one server tell its peers apart |
| TokenParser.RenderThenParse | src/domain/registry.rs:692-758 | the text of an id is read as that id if and only if its path starts with `/` and it is no disambiguated IPC id; which ids are tried before it |
| TokenParser.CandidatesExactly | src/domain/registry.rs:692-758 | a token is looked up as just the ids it is a text for, with all the number texts that are accepted |
| TokenParser.CandidateOrder | src/domain/registry.rs:692-758 | two ids at most are looked up, a port's server before its client and a connection before a server path |
| Replies.PrintedServersAndClients | src/domain/id.rs:77-94 | one printed id of each of these shapes |
| Replies.PrintedConnections | src/domain/id.rs:95-110 | accepted ids as printed, plain and numbered |
| Decimal.ParsePortExactly | src/domain/registry.rs:705-705 | a text is a port if and only if it is digits, perhaps behind a `+`, whose weights add up to less than 65536, and then that port |
| Decimal.ParseSequenceExactly | src/domain/registry.rs:698-698 | the same below 2^32 |
| Decimal.ParsePidExactly | src/domain/registry.rs:740-740 | the same of process ids, with a `-` allowed |
| Decimal.DecSpells | src/domain/id.rs:77-94 | numbers are printed by the places of their digits, without zeros in front |
| TokenParser.CandidatesArePathSafe | src/domain/registry.rs:727-755 | nothing is ever read as a path id without leading `/` or as a disambiguated IPC id |
| TokenParser.CandidatesOfSuffixedIpc | src/domain/registry.rs:713-755 | the text of a disambiguated IPC id is read as one server path and nothing else |
| TokenParser.CandidatesOfNumber | src/domain/registry.rs:705-710 | a port's text means the server first, then the client |
| TokenParser.RemotePortOfAddress | src/repl/runtime.rs:610-621 | whatever the host part looks like, the printed port is found |
| Hex.ParseHexTokens | src/domain/hex.rs:15-67 | result and error depend on the concatenation of the tokens only |
| Hex.PayloadMeaning | src/domain/hex.rs:9-66 | payloads are exactly the nonempty even runs of hex digits, each byte from its two digits |
| Hex.PayloadSpells | src/domain/hex.rs:49-64 | a payload is just the bytes it spells, two digits each by their places in the alphabet, in any mix of cases |
| Hex.ConcatSnoc | src/domain/hex.rs:22-35 | the tokens of a payload are read one after the other, without gaps |
| Hex.PayloadRefused | src/domain/hex.rs:17-47 | which error comes for which payload, with the first character that is no digit |
| Hex.DigitPlaces | src/domain/hex.rs:58-80 | a digit's value is its place in the alphabet, in both cases, and bytes are printed in upper case |
| Hex.FormatHexSpaced | src/domain/hex.rs:70-83 | two upper-case digits a byte, joined by single spaces |
| Hex.FormatThenParse | src/domain/hex.rs:15-83 | printed bytes parse back to themselves |
| Hex.ParseThenFormat | src/domain/hex.rs:15-83 | parsed digits print back as typed, in upper case |
| Repl.WriteThenParse | src/repl/parser.rs:13-183 | every typeable command, written in REPL syntax, parses to itself |
| Repl.LineExactly | src/repl/parser.rs:13-83 | for every line: whether it asks for nothing, which command it stands for, or with which kind of error it is refused |
| Repl.HostExactly | src/repl/parser.rs:185-205 | which host and port a text names |
| Text.TokensDetermined | src/repl/parser.rs:21-24 | how every line is cut into tokens |
| Text.TrimExactly | src/repl/parser.rs:16-16 | trimming takes white space from the ends and nothing else |
| Repl.TypeableExactly | src/repl/parser.rs:13-205 | some line stands for a command if and only if it is typeable: no space or tab in a word, no white space at the ends of the line, no keyword as a send target, a payload, and a host that can be read |
| Text.TokensOfTrimmed | src/repl/parser.rs:16-26 | what the tokens of a line can be |
| Repl.HostPortRoundTrip | src/repl/parser.rs:185-205 | a host can be read from some text if and only if it has no leading `[` or no `]`; its own text then does |
| Repl.ParsedSend | src/repl/parser.rs:66-81 | no line parses to an empty payload or to a send to a keyword |
| Invariants.AnchorUnique | src/domain/registry.rs:490-533 | the plain id of a base and its `#1` are never live together, so an old id stands for one handle at most |
| Invariants.LabelsUnique | src/domain/registry.rs:236-265 | no two live handles share a label |
| Invariants.ReadersUnique | src/repl/runtime.rs:503-564 | no two live streams share a reader |
| Preservation.DropServerKeepsInv | src/domain/registry.rs:321-341 | closing a server keeps the invariant |
| Preservation.ApplyLabelKeepsInv | src/domain/registry.rs:236-265 | labelling keeps the invariant |
| Preservation.AllocateCollision | src/domain/registry.rs:504-534 | the second branch of the allocator comes to one renaming and one table change, and does not fail |
| Preservation.AllocateKeepsInv | src/domain/registry.rs:477-612 | every branch of the allocator keeps the invariant and yields an id that the tables account for |
| Reachability.StepKeepsInv | src/repl/runtime.rs:56-102 | every message keeps the invariant |
| Reachability.ReachableInv | src/repl/runtime.rs:46-107 | the invariant holds in every state of every run, overwritten and renamed connections included |
| Effects.StepHasEffect | src/repl/runtime.rs:109-497 | apart from output and display, every step is one of eight effects on handles, labels and tasks |
| Flat.RenameIsStutter | src/domain/registry.rs:614-627 | the retroactive renaming changes nothing in the flat picture |
| Flat.StepRefines | src/repl/runtime.rs:56-102 | every step is one allowed action on a flat set of connections known by task number; it replaces a connection if and only if it reissues a live id |
| Flat.RunRefines | src/repl/runtime.rs:46-107 | every run is a run of the flat machine |
| Flat.NothingReplaced | src/domain/registry.rs:281-290 | in a run without reissued ids the flat machine only opens and closes, names and leaves alone |
| Flat.FlatRunKeepsInv | src/domain/registry.rs:36-58 | in flat runs tasks tell connections apart, labels are a partial injection and parents are there |
| LabelTable.StepBorne | src/domain/registry.rs:281-290 | if every entry of the label table is the label of a live handle, a step ends that if and only if it overwrites a labelled stream |
| LabelTable.ReachableBorne | src/domain/registry.rs:236-341 | without reissued ids every entry of the label table is the label of a live handle |
| LabelTable.LabelInRun | src/domain/registry.rs:198-217 | a label leads to the one handle that bears it, or to the id it was renamed from, and then close, send and label fail without any change |
| LabelTable.StaleLabelIsInert | src/repl/runtime.rs:364-410 | close, send and label through a label of a dead id answer with an error and change nothing |
| LabelTable.RenameStrandsLabel | src/domain/registry.rs:504-534 | when a base collides, a label ends up with `#1` but leading to the dead plain id if and only if it was given before |
| LabelHome.StepHome | src/domain/registry.rs:236-341 | if all labels lead to their bearers, a step ends that if and only if it renames a labelled connection or overwrites one; without reissued ids only the first is possible |
| LabelHome.RunHome | src/domain/registry.rs:614-627 | labels lead to their bearers throughout a run if and only if no message of it renames or overwrites a labelled connection |
| Collision.StrandingRun | src/domain/registry.rs:614-627 | for every path that starts with `/`, every process and name, the four messages that leave a connection with a label that is of no use |
| LabelTable.PlainIsDead | src/domain/registry.rs:504-534 | while `#1` of a base is live, its plain id is not |
| LabelTable.ParsedTokenIsLive | src/domain/registry.rs:209-216 | a token that is no label is resolved if and only if some candidate is live, and then to a live id |
| LabelTable.ShutdownClearsLabels | src/domain/registry.rs:636-649 | if every label is borne, none is left after shutdown |
| Numbering.KthConnection | src/domain/registry.rs:477-612 | the id of the k-th connection of a base in one lifetime of its server, whatever happens in between, and the one renaming |
| Numbering.KthInRun | src/domain/registry.rs:477-612 | the same over every run from the start, counted from the message that opened the server |
| Numbering.OpenedServerCountsNothing | src/repl/runtime.rs:195-203 | a server starts with empty tables, so every base starts at its first connection |
| Numbering.RunCounts | src/domain/registry.rs:45-46 | the tables of a running server count the connections of each base, over any run |
| Numbering.IdsRepeat | src/domain/registry.rs:526-546 | two connections of a base in one lifetime of its server, in any run, get one id if and only if the seed is 2 and they are the second and third |
| Numbering.SuffixRepeats | src/domain/registry.rs:526-546 | the same of the suffixes alone; with seed 3 the suffix is k |
| Numbering.ReissueExactly | src/domain/registry.rs:537-546 | an accept reissues a live id if and only if the counter is 2 and `#2` is live |
| Numbering.SeedThreeIsFresh | src/domain/registry.rs:526-546 | with seed 3 or more no accept in any run reissues a live id |
| Readers.ReportsUnder | src/repl/runtime.rs:514-514 | the reader of a live stream reports under its id if the stream was not renamed, else under the plain id |
| Readers.OwnReaderCloses | src/repl/runtime.rs:514-554 | the end a reader reports drops its own stream if and only if the stream was not renamed, and else changes nothing |
| Readers.PlainStaysDead | src/domain/registry.rs:435-467 | after the collision the plain id is dead for the rest of the server's lifetime; events for it change no registry state |
| Readers.RenamedLeavesByCommand | src/domain/registry.rs:435-453 | a step that is no shutdown keeps a renamed stream, the same connection under the same id, if and only if it is no close command for it or its server, and no Closed event under its new id |
| Readers.RenamedIsNeverNoticed | src/repl/runtime.rs:514-554 | over every run without such a command, whose events come from readers and accept loops of the run, a renamed stream stays, and the end its reader reports changes nothing |
| Collision.ThirdOverwritesSecond | src/domain/registry.rs:281-290 | the overwritten connection's reader is orphaned, and its end closes the connection that took the id |
| Collision.LabelReachesStranger | src/domain/registry.rs:281-290 | a label of the overwritten connection leads to the one that took its id: what is sent by that label goes there |
| Collision.CollisionRun | src/domain/registry.rs:592-611 | for every path and process, three connections as the accept loop reports them: the third gets the live id of the second |
| Readers.DeadStaysSilent | src/domain/registry.rs:435-446 | an id that is in no map stays out of it over any run that does not give it out again, and its Closed events show and change nothing |
| Readers.LateClosedIsSilent | src/domain/registry.rs:441-446 | after a close command for a stream or its server, the late Closed event of the stream's own reader, under the id it reports, is silent, whatever came in between, unless that id was given out again |
| Ledger.BooksBalance | src/domain/registry.rs:281-341 | over every run: streams inserted are live, closed by event, closed by command, cascaded or overwritten; CLOSED lines match removals; tasks and aborts add up |
| Ledger.NothingOverwritten | src/domain/registry.rs:281-290 | without reissued ids nothing is overwritten, and the tasks spawned are as many as the live handles and the aborts |
| Orphans.StepLoses | src/domain/registry.rs:281-290 | a step leaves without an owner and without an abort just the reader of the stream it overwrites, and no other task |
| Orphans.RunLosesNone | src/domain/registry.rs:281-341 | a run loses no task that way if and only if it reissues no live id |
| Orphans.EveryTask | src/domain/registry.rs:281-341 | without reissued ids every task ever spawned is held by a live handle or was aborted once, never both |
| Orphans.FilesInRun | src/domain/registry.rs:331-335 | the file at a path was removed as often as a server was opened there, but for one that is live |
| Orphans.RunEndsEmpty | src/repl/runtime.rs:104-106 | a run that was shut down ends with nothing live and each socket file removed as often as made; every task ever spawned was aborted just once if and only if no id was reissued, and then no label is left |
| Outputs.OutputInRun | src/domain/registry.rs:349-415 | after every run, what was written to each live connection is just what the sends to it and to its server brought, in order, whatever happened to ids, labels and other connections |
| Outputs.StepOutput | src/domain/registry.rs:391-415 | a step adds to a connection's output what it sends to it, and a new connection starts empty |
| Ledger.StepShowsClosed | src/repl/runtime.rs:364-388 | a step shows one CLOSED line for each stream closed by event or command and each server closed, and no other |
| Sequence.NthOpen | src/repl/runtime.rs:333-351 | the n-th IPC open is numbered min(n, 2^32 - 1), and live numbers were all given out before |
| Sequence.IpcOpenIsFresh | src/domain/registry.rs:81-93 | the first 2^32 - 1 IPC opens never overwrite a live client |
| Sequence.FreshExactly | src/repl/runtime.rs:335-337 | in every state of the invariant a message reissues a live id if and only if it is an accept that meets a counter of 2 and a live `#2`, or an IPC open that meets the saturated counter and the live last client |
| Sequence.FreshInRun | src/domain/registry.rs:536-546 | within the first 2^32 - 1 IPC opens of a run only the first of these happens |
| Sequence.SeedThreeNoReissue | src/domain/registry.rs:526-526 | with seed 3 a run of up to 2^32 - 1 IPC opens reissues no id at all |
| Guarantees.ParentsAndChildren | src/domain/registry.rs:281-341 | child sets are exactly the streams with that parent; parents are live and match ids; keys match ids; all is Connected |
| Guarantees.AlwaysWritable | src/domain/registry.rs:401-405 | the "not writable" branch is unreachable |
| Guarantees.LiveLabelsInTable | src/domain/registry.rs:236-265 | in every reachable state each live label is in the table under its handle's id or former id, and is nobody else's |
| Ports.PortCheckMissesServers | src/repl/runtime.rs:294-302 | a client is refused as a duplicate only for a client; with a server on the port the text means the server |
| Ports.PortCheckMissesClients | src/repl/runtime.rs:123-131 | a server is refused as a duplicate only for a server; a live client of the port is no longer found by its text |
| Ports.StepExclusive | src/domain/registry.rs:686-688 | if no port is open both ways, a step ends that if and only if it opens a client of a live server's port or a server on a live client's port |
| Ports.RunExclusive | src/domain/registry.rs:686-688 | no port is open both ways throughout a run if and only if no message of it does that |
| Ports.BindKeepsPortsApart | src/domain/registry.rs:686-688 | if the operating system refuses every such bind, no port is ever open both ways |
| Ports.ExclusiveClientResolves | src/domain/registry.rs:705-710 | as long as that holds, a live client is found by its port |
| Guarantees.PanicsExactly | src/domain/registry.rs:485-591 | a step panics if and only if an accept finds its server gone or its counter used up |
| Guarantees.AcceptLoopsMatch | src/repl/runtime.rs:138-194 | accept loops send messages of matching shape for their own server |
| Guarantees.LateHandoffPanics | src/domain/registry.rs:485-488 | after a close command for a server, an accept from its loop panics |
| Collision.LateRun | src/domain/registry.rs:485-488 | for every path that starts with `/` and every process, the three messages from the start that end in the panic |
| Guarantees.DropServerExactly | src/domain/registry.rs:315-341 | closing a server removes it, its streams and their labels, and leaves every other handle, child set and label unchanged |
| Guarantees.ShutdownExactly | src/domain/registry.rs:634-649 | shutdown empties the maps, aborts each live task exactly once and removes each live IPC server's file exactly once |
| Guarantees.SendToOneExactly | src/domain/registry.rs:388-415 | only the target's output grows; Ok if and only if it is live and its socket took all; a dead target changes nothing |
| Guarantees.BroadcastExactly | src/domain/registry.rs:343-389 | each child is written once, each failure adds one line, nothing else changes and the result is Ok |
| StatusOrder.ListedOnce | src/domain/registry.rs:105-189 | the report lists each free stream, each server and each child once, each in its place |
| Ties.StatusOrderExactly | src/domain/registry.rs:105-189 | with peers as accept loops report them, the text is the same for every walk of the maps if and only if no port number is also the path of an IPC server, both being open and one having connections |
| Ties.StatusOrderInRun | src/domain/registry.rs:105-189 | so in every state of every run whose accepts come from accept loops |
| Ties.ReachablePeers | src/repl/runtime.rs:142-174 | in such a run TCP connections have a socket address as peer and accepted IPC connections a process id |
| Ties.TieRun | src/domain/registry.rs:148-186 | for every port and peer, three messages after which two walks give two texts |
| StatusOrder.OrderByBlocks | src/domain/registry.rs:148-186 | in every state the text is the same for every walk if and only if the blocks of servers with one text commute |
| StatusOrder.StatusForgetsOrder | src/domain/registry.rs:105-189 | so it is if the servers' texts differ |
| StatusOrder.SlashServersDiffer | src/domain/id.rs:73-90 | servers' texts differ if all paths start with `/` |
| StatusOrder.SiblingsDiffer | src/domain/id.rs:95-110 | connections of one server have different texts |
| StatusOrder.ClientsDiffer | src/domain/id.rs:87-94 | free clients have different texts |
| EndToEnd.TypedIdResolves | src/domain/registry.rs:198-217 | a live id's text finds it if and only if no id that is tried first is live |
| EndToEnd.TypedBack | src/repl/parser.rs:66-81 | a printed id and printed bytes, typed back, are a send of those bytes to that id if and only if there is no space and no tab in its path; the id is found |
| EndToEnd.SuffixedIpcIsNotTypeable | src/domain/registry.rs:713-755 | the text of a disambiguated IPC id means a server with that whole path or nothing |

## Left out

- Sockets, host lookup, peer credentials and file system calls (`src/infra`): only their answers and the removed paths appear.
- Tokio scheduling, channel capacity, dropped reply and display channels: a message is one atomic step, and readers and accept loops only add messages.
- The line editor, the display task, the logger, `main.rs` and the command-line arguments.
- Wording of error and reply texts: errors and replies are constructors; display lines are constructors with their parts. The status report and all id and hex texts are exact.
- Paths are strings: component-wise equality of paths and paths that are not UTF-8 are not modelled; the claims are about paths for which equality of texts and of paths agree.
- Handles are values in the maps, as they are owned values in the source, so updating an entry in place is a map update and no aliasing arises; `ConnectionState` is such a value too.
- Counter overflow in builds without overflow checks: a counter at 2^32 - 1 panics, as in checked builds; wrap-around to 0 is not modelled.
- Order of aborts and of removed files: these are multisets, the order in which one operation performs them is not recorded.
- Sorting in the report compares characters where the program compares UTF-8 bytes; the two orders agree.
- The 64 KiB read buffer and how a byte stream is cut into Received events.
- PlainStaysDead: speaks of one lifetime of the server, since a server opened anew starts its numbering anew.
- RenamedIsNeverNoticed: a reader's Received, Closed and Error events and an accept loop's Error events are all that tasks send; events under ids that no task of the run captured are not in its runs.
- StatusOrderInRun: the text of a socket address is taken to hold no space.
- FlatRunKeepsInv: the flat picture has no bytes and no display; these are covered by OutputInRun and BooksBalance.
