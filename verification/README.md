# Verified models of the harness daemon, its client and its GUI

The harness is a daemon (`harnessd`), a client library and the command line and
GUI on top of it. This project models the parts whose meaning is decided
entirely by their code and proves what those parts promise.
`dafny verify dfyconfig.toml` verifies the whole project.

| file | what it models |
|---|---|
| `SingleDaemon.dfy`, `Connect.dfy` | the lock, `daemon.json`, the endpoint, replacement of older daemons and connecting clients, as one system of steps with any number of daemons and clients and crashes anywhere; when a connecting client fails, and that it gets through |
| `EventRouting.dfy`, `EventAccount.dfy`, `EventDelivery.dfy`, `EventClient.dfy` | event routing in the client: the transition system with a log of what happened, the account of everything that arrives, which events are delivered, the class whose methods make its steps, and the GUI bridge's `forward` |
| `Framing.dfy`, `LineWriter.dfy` | newline framing under a line limit, read from arbitrary chunks, and the log writer that redacts whole lines from arbitrary pieces |
| `Router.dfy`, `RouterLines.dfy` | one connection of the server: handshake gate, one answer a request, event numbering; what a line of bytes brings about |
| `KeyPath.dfy`, `Json.dfy`, `ConfigMerge.dfy`, `ConfigLoad.dfy`, `ConfigEdit.dfy`, `Order.dfy` | dotted keys, the layered configuration with provenance, the editor of one key, and the order of keys |
| `RedactPaths.dfy`, `Numbers.dfy`, `JsonText.dfy`, `Redactor.dfy` | the redaction pass: path needles, numbered tokens, JSON text rewritten literal by literal, JSON values |
| `Bundle.dfy`, `RedactedExport.dfy`, `JsonDiff.dfy` | export with renamed blobs against import's and replay's tests of it, the same under the redactor's own pass, and the account of a failed rebuild |
| `CivilDate.dfy` | the closed formula for the date against a calendar counted day by day |
| `Transcript.dfy`, `TranscriptTallies.dfy`, `Footers.dfy` | the GUI's transcript, folded from pages and events, what events and pages add up to in it, and its list with footers |
| `Csv.dfy`, `Diff.dfy` | the CSV export against a reader of RFC 4180 section 2; the unified-diff parser and the two-column layout |

Code that updates state in place is a class or a method with loops, tied by its
contract to a function on values; the theorems are lemmas about that function
and invariants over runs. Functions and reducers of the source stay functions.

What stands in for code outside the models:

- The processes' steps in `SingleDaemon` are single effects on the lock, the
  endpoint or a file. Fresh pids differ from those of live processes, and a new
  random token from every earlier one.
- SHA-256 is the function `hash`; statements that need it say `CollisionFree` or,
  for its lower-case hexadecimal digits, `HexHash`. A regular expression is a
  function that lists its matches from left to right, inside the text and
  without overlap (`RulesOk`). The redaction under which a bundle is exported is
  any function that changes strings only (`KeepsShape`);
  `RedactedExport.RedactorKeepsShape` shows that the redaction pass is one.
- Parsing of JSON-RPC messages and TOML, and the final typed validation of a
  configuration, are parameters. Facts about the built-in defaults
  (`crates/core/src/config/schema.rs`) are collected in `ConfigMerge.SchemaShaped`
  and, for the keys environment variables set, in the precondition of `ConfigLoad.Load`.
- A request's payload is a JSON object, blob rows have distinct ids and one for
  every blob an event names, and the store is content-addressed
  (`Bundle.Exportable`); the trace writer sees to all of it.

## Findings

Statements that one might expect and that do not hold as they stand, each with
the condition under which they do:

- A key path survives `format` and `parse` exactly when it is not empty and no
  segment holds a quote (`KeyPath.RoundTripIff`). Quotes make different paths
  print alike (`KeyPath.QuotesCollide`). The merged configuration is not
  affected: model names in `pricing` may hold quotes, and still no two of its
  leaves share a printed key (`ConfigMerge.NoCollision`).
- `tools.shell.env` is documented as the place for variables such as `CI=1`
  (`crates/core/src/config/schema.rs:304-306`, `tasks/M01-usable-assistant/M01-05-shell-tool.md:132`), but its default is an
  empty table and the loader accepts only leaves of the defaults, so any member
  is rejected as unknown (`ConfigLoad.EmptyTablesStayEmpty`, and
  `ConfigLoad.ShellVariableIsRefused` for that very layer).
- Removing a key through an inline table or a list of tables succeeds and
  changes nothing (`ConfigEdit.RemovalTakesEffectIff`; `a.b` in `a = { b = 1 }` is
  the input of `ConfigEdit.InlineMemberStays`).
- Path redaction leaves no root and no home directory in any text exactly when
  it leaves none in what becomes of its own tokens, which can be computed from
  the table of needles (`RedactPaths.RootsAreGoneIff`, for paths without angle
  brackets). A table without a home directory, with one longer than four bytes,
  or with a separator in every path meets this (`RedactPaths.TableIsClean`). A
  home directory called `HOME` does not, since its own token spells it
  (`RedactPaths.HomeIsLeft`). Nor does a workspace root called `HOME` beside a
  home directory `/hm`: the root's token clears it, and the token of the home
  directory, which comes later, brings it back (`RedactPaths.RootComesBack`). A
  root with angle brackets can be completed by a token
  (`RedactPaths.AnglesLetItBack`).
- A request whose body the redaction leaves alone still passes the hash stage of
  the replay exactly when no rule and no path matches its recorded hash
  (`RedactedExport.UntouchedRequestsPassIff`). A rule for hexadecimal text, for
  one, breaks it, and the bundle is still marked replayable
  (`RedactedExport.HexRuleBreaksReplay`).
- A request whose body is rewritten passes it after an import exactly when the
  new id's body arrives, and it does unless an earlier row of the export, one
  whose own body is gone, has that id (`Bundle.TouchedRequestsPassIff`): removing
  duplicates then keeps the row without a body (`Bundle.PrunedRowHidesBody`).
- A written line reads back only if it has no newline, fits the limit and does
  not end in a carriage return (`Framing.ReadsBackIffFaithful`).

## Model

| member | source | states |
|---|---|---|
| SingleDaemon.PerformKeepsDaemon | crates/daemon/src/lifecycle.rs:164-198 | every effect of a daemon, crash and failed start included, keeps its own record in agreement with lock, endpoint and file; its pid, API and token never change back, and the first stop reason stays |
| SingleDaemon.PerformTouchesItsOwn | crates/client/src/discovery.rs:70-91 | a daemon that changes the lock, the endpoint or the file holds the lock or takes it free; a publish writes exactly its own record, and another pid's temporary file is never touched |
| SingleDaemon.PerformSparesOthers | crates/daemon/src/lifecycle.rs:164-198 | no effect of one daemon breaks the agreement of another daemon with the shared state |
| SingleDaemon.ReplacedIsOlder | crates/client/src/connect.rs:304-320 | a token-only shutdown that is honoured reaches the writer of the file the client read, and that daemon has a lower API version |
| SingleDaemon.EveryRunIsSound | crates/daemon/src/main.rs:122-164 | lock, endpoint, file, tokens and clients agree wherever a run leads, hence in every state of every run |
| SingleDaemon.AtMostOneDaemon | crates/daemon/src/lock.rs:43-68 | in every run at most one daemon is between taking and releasing the lock, and nobody else listens |
| SingleDaemon.NoStaleLock | crates/daemon/src/lock.rs:43-68 | a held lock has a live holder that has not released it |
| SingleDaemon.StoppingRemovesOwnFile | crates/daemon/src/lifecycle.rs:193-197 | the file a stopping daemon removes, without looking, is the one it wrote |
| SingleDaemon.FileChangesOnlyUnderTheLock | crates/client/src/discovery.rs:63-91 | `daemon.json` changes only by the lock holder publishing its own record or removing the file |
| SingleDaemon.EndpointChangesOnlyUnderTheLock | crates/daemon/src/lifecycle.rs:166-191 | the endpoint is bound and freed by the lock holder only |
| SingleDaemon.ServingIsDiscoverable | crates/daemon/src/lifecycle.rs:171-191 | while a daemon serves, the file is there and names it |
| SingleDaemon.AdvanceOk | crates/client/src/connect.rs:171-266 | every step of `connect` leads to a stage whose facts are true in that state: about the daemon it talks to, and that only a client that may spawn gets to the stages that lead to a new one |
| SingleDaemon.ConnectedToTheWriter | crates/client/src/connect.rs:171-266 | a connected client talks to the daemon that wrote the file it read, in the client's own API version |
| SingleDaemon.HandshakeMeansSameDaemon | crates/client/src/connect.rs:268-289 | between equal API versions a handshake succeeds exactly when the answering daemon wrote the file the client holds |
| SingleDaemon.OnlyOlderDaemonsAreReplaced | crates/client/src/connect.rs:190-209 | a daemon stopped by a replacing client was named by its token and is strictly older |
| Connect.WithoutSpawningNothingIsStarted | crates/client/src/connect.rs:213-215 | in every run a client that may not spawn never launches, awaits or replaces a daemon, and fails only as not running, incompatible or refused |
| Connect.StaleIsNotDialed | crates/client/src/connect.rs:224-243 | in every run a client that started a daemon only dials files that do not name the daemon it knows to be stale |
| Connect.FailsExactlyWhen | crates/client/src/connect.rs:175-265 | in every run `connect` fails exactly in the cases of its six errors, each in its own: nobody answers and spawning is not allowed; another API that is not older, or not to be replaced; a handshake by another daemon than the file's writer; a launch that failed; a child that ended other than with exit code 3; time |
| Connect.GoesOnWhere | crates/client/src/connect.rs:175-265 | and where it goes otherwise: a missing file and a silent daemon lead a spawning client to a launch, an older daemon to its replacement, a lost lock back to the file |
| Connect.ExitCodesTell | crates/daemon/src/main.rs:122-164 | an exited daemon was asked to stop (0), failed before it could be found (1) or lost the lock and never listened (3) |
| Connect.LosesToTheHolder | crates/daemon/src/lock.rs:43-68 | a daemon takes a free lock, and gives up with code 3, touching nothing, exactly when a live daemon holds it |
| Connect.ServingIsReached | crates/client/src/connect.rs:175-183 | from any state of a run a client that begins while a daemon of its version serves can read its file, dial it and be connected |
| Connect.FromNothing | crates/client/src/connect.rs:213-256 | in an empty directory a client that may spawn, and the daemon it starts, have steps that end in their connection |
| Connect.OlderIsReplaced | crates/client/src/connect.rs:190-210 | an older daemon that serves is asked with its own token, stops for that reason, and leaves lock, endpoint and file free |
| Connect.UpgradeGoesThrough | crates/client/src/connect.rs:190-256 | and the client then ends connected to a daemon of its own version that it started |
| EventRouting.InvHolds | crates/client/src/lib.rs:294-452 | the invariant over channels, backlogs and counters holds after any steps in any order |
| EventRouting.NothingIsLostUnsaid | crates/client/src/lib.rs:379-452 | for every channel: events delivered, drops announced and drops still counted add up to the events routed, and delivery keeps the arrival order |
| EventRouting.ConsumerSeesThePrefix | crates/client/src/lib.rs:460-465 | the consumer has received a prefix of the stream and the bounded channel holds what comes next |
| EventRouting.TerminalIsLastAndKept | crates/client/src/lib.rs:442-452 | nothing follows the terminal event, and once routed it is in the stream unless the consumer went away |
| EventRouting.BacklogIsExact | crates/client/src/lib.rs:399-419 | the unclaimed counter is the sum of the backlogs, at most 1024, and no empty backlog is kept |
| EventRouting.FullBacklogHasLongest | crates/client/src/lib.rs:400-417 | at the cap there is a longest backlog to evict from |
| EventRouting.ArrivalIsRoutedByKey | crates/client/src/lib.rs:379-396 | an event goes to the channel of its own key, if one is claimed, and to no other |
| EventRouting.BacklogIsRouted | crates/client/src/lib.rs:302-322 | a new subscription is given the whole backlog, up to and with a terminal event |
| EventRouting.ReadingGetsEverything | crates/client/src/lib.rs:445-452 | a consumer that keeps reading gets the whole stream, the terminal event included |
| EventRouting.RevokedEntry | crates/client/src/lib.rs:445-452 | an entry that a dropped stream makes unsendable leaves its drops accounted as unsaid |
| EventAccount.EveryArrivalIsAccounted | crates/client/src/lib.rs:294-420 | in every run the events that arrived for a subscription are those routed to its channels, those waiting and those lost without notice (evicted at the cap, or behind a terminal event in a backlog), and what was routed, then what waits, keeps the order of arrival |
| EventAccount.RoutedHasArrived | crates/client/src/lib.rs:379-396 | in every run what is routed to a channel has arrived for its subscription, in that order |
| EventAccount.WaitingAfter | crates/client/src/lib.rs:397-420 | an unclaimed event goes to the end of its backlog; at the cap the oldest event of the longest backlog makes room for it |
| EventDelivery.ArrivalIsSentOrCounted | crates/client/src/lib.rs:379-396 | a plain event of a claimed subscription: the notice is sent if one is due and fits, then the event if there is room, and the counter says what was not |
| EventDelivery.SentWhenThereIsRoom | crates/client/src/lib.rs:379-396 | on an open channel with room the stream grows by the due notice and the event, and the counter is zero |
| EventDelivery.CountedOnlyWithoutRoom | crates/client/src/lib.rs:389-395 | the counter rises only where the stream was dropped or the channel full |
| EventDelivery.StreamIsWhatFoundRoom | crates/client/src/lib.rs:302-396 | in every run the events in a channel's stream are exactly those that found room when they were tried, those of the backlog included; a terminal event always does, unless the stream is dropped before it is sent |
| EventClient.Inner.RouteEvent | crates/client/src/lib.rs:379-420 | does exactly the arrival step, evicting from a longest backlog |
| EventClient.Inner.OfferTo | crates/client/src/lib.rs:389-395 | notice first if one is due, then the event; the counter is reset or raised accordingly |
| EventClient.Inner.LargestBacklog | crates/client/src/lib.rs:402-406 | returns a key whose backlog is at least as long as every other |
| EventClient.Inner.OpenChannel | crates/client/src/lib.rs:302-314 | fills a new channel from the backlog as the specification says, counting what does not fit |
| EventClient.Inner.Subscribe | crates/client/src/lib.rs:294-323 | does exactly the subscription step, also on a closed connection and over an earlier subscription |
| EventClient.Inner.SendWaiting | crates/client/src/lib.rs:445-452 | does exactly one of the waiting sends |
| EventClient.Inner.Next | crates/client/src/lib.rs:460-465 | takes the oldest item of the channel |
| EventClient.Inner.CloseAll | crates/client/src/lib.rs:422-429 | drops every sender, with its unannounced drops on record |
| EventClient.Forward | apps/gui/src-tauri/src/bridge.rs:121-152 | the frontend sees the stream in order and exactly one finish, last; it is made up, with the next number, only if the stream ended without one |
| Framing.LineEnd | crates/api/src/codec.rs:48-51 | the first newline, or the length |
| Framing.FrameOfLine | crates/api/src/codec.rs:20-75 | a line and its newline are one frame whatever follows; an oversized line is reported with its exact length and costs only itself |
| Framing.CrLfEndsALine | crates/api/src/codec.rs:56-78 | one carriage return before the newline goes with it, and no other byte does; it counts for the limit |
| Framing.UnendedLineStays | crates/api/src/codec.rs:32-46 | a last line without a newline is a frame as it is, a carriage return at its end included |
| Framing.WrittenLinesReadBack | crates/api/src/codec.rs:84-92 | written lines without newline, within the limit and not ending in CR read back identically |
| Framing.ReadsBackIffFaithful | crates/api/src/codec.rs:27-92 | and only such lines do |
| Framing.Reader.NextPiece | crates/api/src/codec.rs:32-53 | takes the buffered bytes up to a newline off the stream, without losing or reordering any |
| Framing.Reader.ReadFrame | crates/api/src/codec.rs:27-78 | returns the first frame of the whole stream and leaves the rest, whatever the chunks; the buffer never exceeds the limit |
| Framing.Reader.ReadAll | crates/api/src/codec.rs:27-78 | reading to the end gives the frames of the stream |
| Framing.ChunksDoNotMatter | crates/api/src/codec.rs:27-78 | two ways of cutting the same bytes give the same frames |
| LineWriter.PiecesJoin | crates/common/src/telemetry.rs:385-392 | splitting a text and its continuation is splitting them together, with the unfinished line held back |
| LineWriter.RedactingWriter.Write | crates/common/src/telemetry.rs:385-392 | writes out exactly the redacted lines the piece finishes and keeps the unfinished one |
| LineWriter.RedactingWriter.Flush | crates/common/src/telemetry.rs:394-400 | writes out the unfinished line, once |
| LineWriter.RedactingWriter.WriteAndFlush | crates/common/src/telemetry.rs:384-401 | any pieces and one flush give what redacting the whole text line by line gives |
| LineWriter.FinishedLines | crates/common/src/telemetry.rs:361-382 | each line reaches the redaction whole and alone, with its newline |
| Router.HandlersStartIff | crates/api/src/server.rs:322-390 | in every run a handler is started for a line exactly when it requests a registered method after an accepted hello, or is the shutdown with the configured token |
| Router.EachLineIsAnsweredOnce | crates/api/src/server.rs:249-320 | a line gets at most one answer, with its own id; exactly one, if it calls for one, when serving ends by shutdown |
| Router.EventsAreNumbered | crates/api/src/server.rs:107-129 | per subscription the numbers issued are 1, 2, 3 and so on, and each event is sent once or still waits |
| Router.ReactionFacts | crates/api/src/server.rs:283-430 | which lines are answered, with which id, and which are accepted as a handshake |
| Router.Connection.SayHello | crates/api/src/server.rs:409-429 | the errors in their order; the flag and the client name are set on success only |
| Router.Connection.DispatchRequest | crates/api/src/server.rs:322-390 | answers at once or starts a handler, as the specification says |
| Router.Connection.HandleLine | crates/api/src/server.rs:283-320 | one line is one arrival step, blank lines and batches recognised before parsing |
| Router.Connection.HandleTooLong | crates/api/src/server.rs:259-268 | an oversized line is answered without an id |
| Router.Connection.FinishTask | crates/api/src/server.rs:366-389 | a handler that comes back, in any order, is answered with its own id |
| Router.Connection.EventParams | crates/api/src/server.rs:120-129 | the number returned is one more than the events issued so far on the subscription |
| Router.Connection.ShutDown | crates/api/src/server.rs:251-256 | after a shutdown every line that called for an answer has exactly one |
| RouterLines.LinesAreToldApart | crates/api/src/server.rs:289-313 | by its bytes: blank exactly if all are ASCII whitespace, a batch exactly if the first other byte is a bracket, else what it parses as or unparsable |
| RouterLines.AnswersAreExact | crates/api/src/server.rs:283-430 | every line's immediate answer, with its id and its error, in every case, and nothing else |
| RouterLines.CallsAreServed | crates/api/src/server.rs:283-390 | a line that starts with a brace and parses as a call starts a handler under the call's id or is answered at once with it |
| RouterLines.HandshakeOpens | crates/api/src/server.rs:409-429 | the line of a valid handshake lets the client in under its name and is welcomed |
| RouterLines.OnlyHandshakesLetIn | crates/api/src/server.rs:409-429 | nothing else changes who is let in |
| KeyPath.ReadKey | crates/core/src/config/keypath.rs:7-52 | the character loop reads the key segment by segment, the first fault from the left deciding the error |
| KeyPath.FormatKey | crates/core/src/config/keypath.rs:55-70 | the loop prints the segments joined by dots, quoted where they must be |
| KeyPath.SegmentsAreQuoteFree | crates/core/src/config/keypath.rs:19-51 | what is read has a segment and no quote in any |
| KeyPath.RoundTripIff | crates/core/src/config/keypath.rs:7-70 | reading undoes printing exactly for non-empty quote-free paths |
| KeyPath.FormatIsInjective | crates/core/src/config/keypath.rs:55-70 | two readable paths never print alike |
| KeyPath.QuotesCollide | crates/core/src/config/keypath.rs:55-70 | with quotes allowed, two segments print like the one that contains their seam |
| KeyPath.Canonical | crates/core/src/config/keypath.rs:7-70 | printing what was read and reading that changes nothing |
| KeyPath.ReadsExactlyTheSpellings | crates/core/src/config/keypath.rs:5-52 | the accepted keys are exactly the spellings of a path, each read as the path it spells |
| Json.LeavesAreUnrelated | crates/core/src/config/loader.rs:317-335 | no leaf of a tree lies below another |
| ConfigMerge.CheckKnown | crates/core/src/config/loader.rs:218-258 | a leaf is refused exactly as the defaults say: unknown, of the wrong type, or a field of a new price entry judged by the template |
| ConfigMerge.SetReadsBack | crates/core/src/config/loader.rs:260-280 | the leaf reads back |
| ConfigMerge.SetReads | crates/core/src/config/loader.rs:260-280 | unrelated paths are unchanged, what is above is a table, what was below is gone |
| ConfigMerge.SetAddsOneLeaf | crates/core/src/config/loader.rs:260-280 | setting a leaf off the others' paths adds or replaces that leaf alone |
| ConfigMerge.NoCollision | crates/core/src/config/loader.rs:201-212 | two paths a merged tree can hold never share a printed key |
| ConfigMerge.AllowedAreUnrelated | crates/core/src/config/loader.rs:216-258 | nor does one lie below the other |
| ConfigMerge.OverridableByPath | crates/core/src/config/schema.rs:363-384 | the whitelist of printed keys lets through exactly the intended paths; quoting cannot forge a section |
| ConfigLoad.Walk | crates/core/src/config/loader.rs:319-335 | computes the list of leaves, members in the order of their keys |
| ConfigLoad.LeavesAreListed | crates/core/src/config/loader.rs:319-335 | that list holds exactly the leaves below a node, each with its value |
| ConfigLoad.Merged.constructor | crates/core/src/config/loader.rs:180-193 | the defaults, every leaf attributed to them |
| ConfigLoad.Merged.Set | crates/core/src/config/loader.rs:260-280 | tree and side table both gain exactly this leaf and its layer |
| ConfigLoad.Merged.Add | crates/core/src/config/loader.rs:201-212 | a leaf is tested, then set; a refused one changes nothing |
| ConfigLoad.Merged.Overlay | crates/core/src/config/loader.rs:201-212 | leaves are set in order up to the first that is refused, whose refusal is the failure; without one, the tree is the old one with all of them set and the layer lies over the rest |
| ConfigLoad.Merged.Apply | crates/core/src/config/loader.rs:195-214 | the same, and the result must validate |
| ConfigLoad.RefusedExactlyWhen | crates/core/src/config/loader.rs:201-258 | a leaf is refused as unknown, ill-typed or not overridable exactly when it has no default and prices no new model, is not of the default's type, or is well-typed in a workspace's file outside the whitelist |
| ConfigLoad.AcceptedExactlyWhen | crates/core/src/config/loader.rs:201-258 | a layer is accepted exactly when each leaf is well-typed and, in a workspace's file, on the whitelist |
| ConfigLoad.LayerPassesIff | crates/core/src/config/loader.rs:195-214 | a layer passes exactly when every leaf is accepted and the tree it makes is valid |
| ConfigLoad.LayersHaveWinners | crates/core/src/config/loader.rs:122-140 | after the files each leaf has the value and name of the highest file that sets it |
| ConfigLoad.ApplyEnv | crates/core/src/config/loader.rs:142-149 | succeeds exactly when each variable that is set leaves a valid tree; then the environment overrides all files |
| ConfigLoad.LoadSucceedsIff | crates/core/src/config/loader.rs:122-159 | a load succeeds exactly when every leaf of both files is accepted and every tree on the way is valid |
| ConfigLoad.Load | crates/core/src/config/loader.rs:122-159 | gives that outcome, with the first failure as its error; on success tree and side table show, for every path, the highest layer that sets it and its value, and the side table has no other key |
| ConfigLoad.LoadedLayersAreAllowed | crates/core/src/config/loader.rs:195-214 | a load that succeeds took nothing from the workspace's file but what a workspace may override, and only well-typed values for existing keys from either |
| ConfigLoad.ForbiddenKeyEndsTheLoad | crates/core/src/config/loader.rs:204-210 | a workspace's file that sets any other key ends the load, with that error if all its leaves are well-typed |
| ConfigLoad.Lookup | crates/core/src/config/loader.rs:41-55 | `get` computes the lookup the lemma below speaks of, with its two errors |
| ConfigLoad.EveryKeyHasItsWinner | crates/core/src/config/loader.rs:41-55 | every spelling of a leaf's key gives its value and the highest layer that sets it; anything else has no layer |
| ConfigLoad.HigherLayersWin | crates/core/src/config/loader.rs:122-159 | the four variables beat the workspace's file, it beats the user's, and that the defaults, layer by layer |
| ConfigLoad.EmptyTablesStayEmpty | crates/core/src/config/loader.rs:216-246 | no layer can give a member to a table that is empty by default, outside prices |
| ConfigLoad.ShellVariableIsRefused | crates/core/src/config/loader.rs:216-246 | the layer that sets `tools.shell.env.CI` is refused as an unknown key whenever that table is empty by default |
| ConfigEdit.InsertFailsExactly | crates/core/src/config/edit.rs:75-116 | an insert fails exactly when something on the way is not a table or a value would replace a table |
| ConfigEdit.InsertReadsBack | crates/core/src/config/edit.rs:96-115 | the key then looks up to the new item, with the old value's decoration if it replaces one |
| ConfigEdit.InsertKeepsTheRest | crates/core/src/config/edit.rs:81-95 | nothing off the path changes; tables on it stay, and those made on the way have no header |
| ConfigEdit.InsertSets | crates/core/src/config/edit.rs:75-116 | on the data an insert is the loader's own leaf assignment |
| ConfigEdit.RemoveDeletesTheSubtree | crates/core/src/config/edit.rs:134-143 | a removal deletes the subtree and nothing else |
| ConfigEdit.RemoveUndoesInsert | crates/core/src/config/edit.rs:75-143 | a key that was absent comes and goes without a trace |
| ConfigEdit.BlockedRemovalDoesNothing | crates/core/src/config/edit.rs:136-141 | a removal through something that is no table changes nothing |
| ConfigEdit.RemovalTakesEffectIff | crates/core/src/config/edit.rs:134-143 | the key is gone from the data afterwards exactly when it was absent or reachable through tables |
| ConfigEdit.InlineMemberStays | crates/core/src/config/edit.rs:134-143 | a member of an inline table is there after its removal |
| ConfigEdit.ItemKeeps | crates/core/src/config/edit.rs:118-175 | a value is stored as it is, up to null members, exactly when its lists hold no table and no null |
| ConfigEdit.EditedIff | crates/core/src/config/edit.rs:59-116 | the document can be edited exactly when the value can be stored, nothing is in the way and no scalar would replace a table; its data is then the loader's assignment |
| ConfigEdit.SetSucceedsIff | crates/core/src/config/edit.rs:25-73 | a key is set exactly when key and file can be read, the place takes the value, every leaf of the edited file is accepted and the defaults with it are valid; the document differs by that one assignment or removal |
| ConfigEdit.Set | crates/core/src/config/edit.rs:25-73 | comes to that outcome, with the first fault as its error |
| ConfigEdit.EditedFileLoads | crates/core/src/config/edit.rs:69-72 | a user's file that an edit wrote loads, if nothing lies over it |
| ConfigEdit.SetThenLoad | crates/core/src/config/edit.rs:15-73 | after an edit that succeeds, a load gives the new value in the user's name unless a higher layer sets the key, and for every key off its path what a load before the edit gave |
| RedactPaths.Find | crates/core/src/bundle/redact.rs:257-260 | the first occurrence, or none if there is none |
| RedactPaths.ReplaceAddsOnlyTokens | crates/core/src/bundle/redact.rs:256-262 | what occurs after a replacement occurred before or comes with the token |
| RedactPaths.ReplaceClearsIff | crates/core/src/bundle/redact.rs:256-262 | a replacement clears its needle exactly when the needle is not in the token, or was not there |
| RedactPaths.ReplaceKeepsTheRest | crates/core/src/bundle/redact.rs:256-262 | the text between the occurrences stays and each occurrence becomes one token: with the needle put back the text is there again |
| RedactPaths.NothingIsLeft | crates/core/src/bundle/redact.rs:252-267 | after the whole pass no needle occurs in any text, if none is in what becomes of a token inserted at its own turn or later |
| RedactPaths.NeedleBecomesToken | crates/core/src/bundle/redact.rs:219-264 | a needle taken as the text reaches its own turn whole and becomes its token |
| RedactPaths.NothingIsLeftIff | crates/core/src/bundle/redact.rs:252-267 | that condition on the tokens is exact |
| RedactPaths.SeparatorsSuffice | crates/core/src/bundle/redact.rs:23-26 | every needle with a separator is outside all tokens |
| RedactPaths.LongHomeSuffices | crates/core/src/bundle/redact.rs:20-26 | with a home directory longer than four bytes no needle is in a token, whatever the roots are called |
| RedactPaths.HomeIsLeft | crates/core/src/bundle/redact.rs:216-218 | a home directory called `HOME` is left in every text that has it |
| RedactPaths.RootComesBack | crates/core/src/bundle/redact.rs:200-222 | with a root `HOME` and a home directory `/hm`, the root comes back in the text `/hm` |
| RedactPaths.AnglesLetItBack | crates/core/src/bundle/redact.rs:252-267 | a concrete text in which a needle with angle brackets comes back |
| RedactPaths.NoHitsIff | crates/core/src/bundle/redact.rs:257-266 | nothing is counted, and nothing changes, exactly when no needle occurs |
| RedactPaths.ApplyPaths | crates/core/src/bundle/redact.rs:252-267 | the loop computes the pass and its count |
| RedactPaths.InsertSorted | crates/core/src/bundle/redact.rs:219 | keeps the order, longest first and then alphabetical, and the entries |
| RedactPaths.WithPaths | crates/core/src/bundle/redact.rs:200-222 | the needles are exactly the two forms of every root and of home, each once, sorted, a root's form with the root's token |
| RedactPaths.LongerFirst | crates/core/src/bundle/redact.rs:197-219 | a path inside a longer one is replaced after it |
| RedactPaths.TableIsClean | crates/core/src/bundle/redact.rs:200-222 | without a home directory, with one longer than four bytes, or with separators in all paths, the condition on the tokens holds |
| RedactPaths.RootsAreGoneIff | crates/core/src/bundle/redact.rs:197-267 | no root and no home directory, in either slash form, is left in any text, exactly when the table meets the condition on the tokens |
| RedactPaths.RedactPaths | crates/core/src/bundle/redact.rs:197-267 | table and loop together: the pass over the text, and with such a table nothing left in it |
| Numbers.DigitsReadBack | crates/core/src/bundle/redact.rs:388-390 | a numeral stands for the number it was printed from |
| Redactor.GiveKeeps | crates/core/src/bundle/redact.rs:388-389 | the numbers given out stay exactly 1 to k, one for each secret, never reassigned |
| Redactor.NumberedIsInjective | crates/core/src/bundle/redact.rs:74-95 | a token text determines rule name and number |
| Redactor.TokensAreEqualIff | crates/core/src/bundle/redact.rs:383-391 | two tokens of rules without a literal replacement are equal text exactly for the same rule and secret |
| Redactor.TokensAreStable | crates/core/src/bundle/redact.rs:383-391 | a token once given is given for the rest of the run |
| Redactor.NumberAllKeeps | crates/core/src/bundle/redact.rs:238-248 | one rule over one text keeps the numbering sound and every number given |
| Redactor.PiecesAreTheText | crates/core/src/bundle/redact.rs:239-247 | the pieces a text is cut into at the matches of a rule are the text again once the secrets are put back, so nothing but secrets is replaced |
| Redactor.RedactKeeps | crates/core/src/bundle/redact.rs:229-269 | one string keeps the numbering sound, and nothing is returned exactly when no rule and no path matched |
| Redactor.RulesCompose | crates/core/src/bundle/redact.rs:229-269 | the pass over a text is masking by rule after rule, each on what the earlier ones left, and then the paths; each rule counts the matches it found there |
| Redactor.NoRuleMatchesAfterwards | crates/core/src/bundle/redact.rs:229-250 | if masking by any rule leaves no match of its own and brings none for another, no rule matches the text once all have run |
| Redactor.FirstSecretIsMasked | crates/core/src/bundle/redact.rs:238-248 | the first secret of a run becomes the token of its rule with number 1, in the text as it was |
| Redactor.RedactedHoldsNoPath | crates/core/src/bundle/redact.rs:251-267 | the paths run last, so no needle is left in the result, whatever the rules put there |
| Redactor.RedactMarks | crates/core/src/bundle/redact.rs:229-269 | text that the pass returns is no hash, unless a rule's literal replacement could be part of one |
| Redactor.TreeIsRedacted | crates/core/src/bundle/redact.rs:272-297 | in any state, each string of a value becomes what the pass makes of it in its turn and nothing else changes |
| Redactor.RedactedHasSameShape | crates/core/src/bundle/redact.rs:272-297 | only strings change |
| Redactor.QuietIsUnchanged | crates/core/src/bundle/redact.rs:272-297 | a value without a match is unchanged |
| Redactor.Redactor.Token | crates/core/src/bundle/redact.rs:383-391 | gives the next number to a new secret and the known one to a known |
| Redactor.Redactor.ReplaceMatches | crates/core/src/bundle/redact.rs:238-248 | numbering match by match gives the text in which each secret, and nothing else, is replaced by the token it has at the end |
| Redactor.Redactor.RedactStr | crates/core/src/bundle/redact.rs:229-269 | rules in order, each on what the earlier left, then the paths; the state changes as specified |
| Redactor.Redactor.RedactJsonText | crates/core/src/bundle/redact.rs:346-381 | computes the rewriting of `JsonText`: an error for an unterminated literal, nothing if no literal was rewritten |
| Redactor.Redactor.RedactValue | crates/core/src/bundle/redact.rs:272-297 | threads the state through the strings, members in the order of their keys, and the flag tells whether anything matched |
| JsonText.EscapeReadsBack | crates/core/src/bundle/redact.rs:367-371 | a printed literal reads back as what was printed |
| JsonText.EverySpellingReads | crates/core/src/bundle/redact.rs:366-368 | a text reads back from every way RFC 8259 has to write it, `\u` escapes in either case and surrogate pairs included |
| JsonText.NotALiteral | crates/core/src/bundle/redact.rs:366-368 | bare quotes and control characters, unknown escapes and lone surrogates are no literal |
| JsonText.ClosedCloses | crates/core/src/bundle/redact.rs:356-365 | a closed body ends at its own closing quote whatever follows |
| JsonText.EscapedIsClosed | crates/core/src/bundle/redact.rs:371 | a printed literal is exactly one literal |
| JsonText.RenderScans | crates/core/src/bundle/redact.rs:346-381 | sound pieces are found again where they were |
| JsonText.ScanRenders | crates/core/src/bundle/redact.rs:346-381 | a text is the rendering of its pieces |
| JsonText.FindClose | crates/core/src/bundle/redact.rs:356-365 | the inner loop finds the closing quote, or that there is none |
| JsonText.StructureIsKept | crates/core/src/bundle/redact.rs:338-381 | for any redaction, the output scans into the same gaps in the same places and as many literals, each as it was or the escaped redaction of its value; untouched text is unchanged |
| JsonText.LiteralsInTurn | crates/core/src/bundle/redact.rs:346-381 | from left to right every literal with a value is redacted in the state the ones before it left, and rewritten exactly if the redaction returns something |
| Bundle.CopyRewritten | crates/core/src/bundle/export.rs:135-143 | a rewritten blob is stored under its hash and every earlier fact about the directory stays |
| Bundle.RowsRenamed | crates/core/src/bundle/export.rs:117-146 | each row ends up with the id its blob is renamed to, and pruned exactly if it was or its file is gone |
| Bundle.Dedup | crates/core/src/bundle/export.rs:147-148 | the first row of each id, the ids the same |
| Bundle.FileUnlessLost | crates/core/src/bundle/export.rs:147-148 | an id has a file for the importer exactly when no original row without a body has it ahead of every row that ends up with it |
| Bundle.RemapOfNothing | crates/core/src/bundle/export.rs:242-245 | without renamed blobs references are left alone |
| Bundle.ReferencesFollow | crates/core/src/bundle/export.rs:241-264 | through objects and lists everything is where it was, each blob reference follows its blob and every other string stays |
| Bundle.RemapKeepsShape | crates/core/src/bundle/export.rs:241-264 | renaming references changes strings only |
| Bundle.EventsKeepTheRest | crates/core/src/bundle/export.rs:150-170 | an exported event is the event it was: id, kind, a blob if it had one, and in its payload everything the pass left, but for renamed references and what is stated anew of a rewritten request |
| Bundle.EveryBodyFollows | crates/core/src/bundle/export.rs:117-170 | the blob an event names has the bytes of before, or what the pass made of them |
| Bundle.TouchedNoneIff | crates/core/src/bundle/export.rs:150-168 | the counter is zero exactly when no request was rewritten |
| Bundle.Export.CopyBlobs | crates/core/src/bundle/export.rs:117-146 | each row is pruned, copied, or rewritten as the pass says of its bytes; what is not pruned has a file under its hash, and every renaming a recorded size |
| Bundle.Export.RewriteEvent | crates/core/src/bundle/export.rs:152-169 | the event is its rewriting from a payload of the same shape; counter and sizes grow with it |
| Bundle.Export.RewriteEvents | crates/core/src/bundle/export.rs:150-170 | all events, the counter and the table of sizes |
| Bundle.Export.RestateCalls | crates/core/src/bundle/export.rs:171-175 | exactly the calls of rewritten requests carry the new size, clamped |
| Bundle.VerifyBlobs | crates/core/src/bundle/import.rs:55-64 | import accepts exactly the bundles whose files hash to their names, and names the first that does not |
| Bundle.CheckHashStage | crates/core/src/bundle/replay.rs:181-211 | the stage passes exactly if the body hashes to the event's blob id and the payload names no other hash and no other size; the first of the three faults is reported |
| Bundle.ExportIsIntact | crates/core/src/bundle/export.rs:117-148 | import accepts whatever export wrote |
| Bundle.RenamedEventsNameRows | crates/core/src/bundle/export.rs:152-170 | every blob id of an event still names a row |
| Bundle.TouchedRequestsPass | crates/core/src/bundle/replay.rs:181-211 | a rewritten request is restated so that it passes the hash stage with its new body |
| Bundle.TouchedRequestsPassIff | crates/core/src/bundle/replay.rs:165-211 | after an import it passes exactly when the store had the new body or no original row without a body had its id first |
| Bundle.PrunedRowHidesBody | crates/core/src/bundle/export.rs:147-148 | a concrete export whose rewritten request has no body after the import |
| Bundle.UntouchedBodyArrives | crates/core/src/trace/bundle.rs:336-353 | an untouched request whose body was in the store has the same body after the import |
| Bundle.UntouchedBodies | crates/core/src/bundle/redact.rs:418-427 | a bundle reported replayable has the original bytes of every request body |
| Bundle.WriteInto | crates/core/src/bundle/export.rs:106-211 | the export as a whole is such copying, deduplication and rewriting; import's test accepts its blobs, every event's blob has a row, and without a pass events are written as they are |
| RedactedExport.RedactorKeepsShape | crates/core/src/bundle/redact.rs:272-297 | the redactor's pass changes strings only, as an export requires |
| RedactedExport.HashStageIff | crates/core/src/bundle/replay.rs:181-211 | one untouched request, in any state of the run: it still passes exactly when nothing matches its recorded hash |
| RedactedExport.UntouchedRequestsPassIff | crates/core/src/bundle/replay.rs:165-211 | a request that passed the hash stage in the store, and whose body was not rewritten, passes it after export and import exactly when no rule and no path matches its recorded hash |
| RedactedExport.HexRuleBreaksReplay | crates/core/src/bundle/redact.rs:418-427 | with a rule for hexadecimal text such a request fails in every run, while no request counts as touched |
| JsonDiff.FirstDiff | crates/core/src/bundle/replay.rs:339-377 | nothing exactly when the trees are equal, otherwise a difference that is there, the first of its list |
| JsonDiff.RealMeansDifferent | crates/core/src/bundle/replay.rs:338-377 | a difference that is there means different trees |
| JsonDiff.FirstDifference | crates/core/src/bundle/replay.rs:331-336 | the first byte at which two bodies differ, or the end of the shorter |
| CivilDate.AlwaysAValidDate | crates/common/src/telemetry.rs:186-204 | the formula always gives a valid Gregorian date |
| CivilDate.OneDayLater | crates/common/src/telemetry.rs:193-202 | the next day's date is the calendar successor, leap years and centuries included |
| CivilDate.DaysLater | crates/common/src/telemetry.rs:186-204 | n days after any day the formula gives n calendar steps from its date |
| CivilDate.FormulaCountsDays | crates/common/src/telemetry.rs:186-204 | for every day the formula gives what counting days from 1970-01-01 gives |
| Transcript.MergedReads | apps/gui/src/lib/transcript.ts:192-194 | merging keeps rows strictly ascending; the page's last word on a number wins |
| Transcript.MergeRows | apps/gui/src/lib/transcript.ts:192-194 | the map and the sort compute that merge |
| Transcript.OutcomesTwice | apps/gui/src/lib/transcript.ts:217-221 | merging the same outcomes again adds nothing |
| Transcript.SummaryTwice | apps/gui/src/lib/transcript.ts:149-176 | nor does the same summary |
| Transcript.MergeIsIdempotent | apps/gui/src/lib/transcript.ts:178-215 | merging a page twice is merging it once, rows, agents and live overlay alike |
| Transcript.StepsGrow | apps/gui/src/lib/transcript.ts:314-323 | an event adds exactly its own delta to the live text or thinking |
| Transcript.TranscriptsAreSound | apps/gui/src/lib/transcript.ts:178-498 | in every run of events, pages and commands the rows are strictly ascending, and live text and thinking are the last part of what the run's accepted events said |
| Transcript.StatusNeverGoesBack | apps/gui/src/lib/transcript.ts:161-162 | an agent that is over never runs again, whatever comes |
| Transcript.FinishedAbsorbs | apps/gui/src/lib/transcript.ts:363-371 | the terminal event ends run, agent and every running call, and no later event changes anything |
| Transcript.OthersAreIgnored | apps/gui/src/lib/transcript.ts:370-371 | another subscription's events change nothing |
| TranscriptTallies.TalliesAddUp | apps/gui/src/lib/transcript.ts:369-520 | over any accepted events an agent's calls, usage, cost and notes are what the events say, on top of what was there |
| TranscriptTallies.CallsAddUp | apps/gui/src/lib/transcript.ts:411-520 | over any accepted events a call's progress is what its events said, in order, and it counts as denied by the last decision about it |
| TranscriptTallies.ResultDecides | apps/gui/src/lib/transcript.ts:419-435 | after them a result ends the call: well, denied or in error, by its flag and that decision |
| TranscriptTallies.OtherCallsStay | apps/gui/src/lib/transcript.ts:400-518 | an event leaves every other call alone; the end of the run ends those still running, in error |
| TranscriptTallies.CallStarts | apps/gui/src/lib/transcript.ts:400-410 | a call that starts runs under its name and is listed last in the current step |
| TranscriptTallies.EndIsRecorded | apps/gui/src/lib/transcript.ts:480-497 | how the run ended, when, and with which error is on record with its agent, and other agents are as they were |
| TranscriptTallies.PageTakesSteps | apps/gui/src/lib/transcript.ts:200-214 | a page takes from the overlay one step, the oldest, for each new assistant row of the run, and the prompt once a user row of the run is stored |
| TranscriptTallies.PageKnowsAgents | apps/gui/src/lib/transcript.ts:149-196 | a page never takes calls from an agent, believes whoever counted more, and loses no outcome of either side |
| Footers.InsertFooters | apps/gui/src/lib/transcript.ts:699-727 | each item followed by the footer due after it |
| Footers.FootersAreComplete | apps/gui/src/lib/transcript.ts:698-727 | the items stay in order, and an agent with a turn and an item has exactly one footer |
| Footers.FootersFollowLast | apps/gui/src/lib/transcript.ts:713-726 | every footer directly follows its agent's last item and states that agent's turn and number of tool calls |
| Csv.FieldReads | crates/cli/src/stats.rs:435-441 | a printed field reads back, whatever it contains |
| Csv.FileReadsBack | crates/cli/src/stats.rs:402-441 | a reader of RFC 4180 section 2 gives back exactly the rows |
| Csv.CallsCsv | crates/cli/src/stats.rs:402-433 | the export reads back as the header and the eighteen fields of every call |
| Diff.HunkStartHasAtSign | apps/gui/src/lib/diff.ts:28-57 | a hunk header starts with an at sign, so no line of a hunk is taken for one |
| Diff.PrintedHeaderReads | apps/gui/src/lib/diff.ts:28-57 | the first number of a hunk header is where the old side starts, the second where the new one does, with or without counts |
| Diff.HunkTextReads | apps/gui/src/lib/diff.ts:38-75 | deletions take the old numbers, additions the new ones, context both, and the remark about a missing newline none |
| Diff.RunKeeps | apps/gui/src/lib/diff.ts:38-75 | in every parsed diff each hunk's sides are numbered without gaps from its header, and the totals count its lines |
| Diff.ParseDiff | apps/gui/src/lib/diff.ts:38-75 | the loop over the lines of a text, with that property |
| Diff.ShowReadsBack | apps/gui/src/lib/diff.ts:37-75 | a well-numbered diff that is printed reads back as itself |
| Diff.Pair | apps/gui/src/lib/diff.ts:97-109 | deletions and additions side by side, row by row, in as many rows as the longer run |
| Diff.SideBySide | apps/gui/src/lib/diff.ts:82-112 | the left column is the old side and the right column the new side, in order, none lost |

## Left out

- Interleavings inside `subscribe` and `route_event`, which take two locks in turn: each is one step here, so nothing is claimed about an event that arrives between the two.
- A half-read frame that the server's select can drop: the framing statements are for a reader that awaits each frame to its end, as the client does.
- The gap between the connection count and `idle_since` in the daemon's idle tracking, and the idle timer itself: a daemon may ask itself to stop at any time while serving.
- Request and response correlation in the client (`call_raw`), which is a map with one entry a request.
- Real time, sockets, process flags, ACLs, the keychain, SQLite, archives and compression.
- The built-in secret patterns, and `redact_line`'s detection of fields: its overlapping ranges are skipped, so no coverage statement holds.
- Padding of the printed date, and times before 1970, which the source maps to the first day.
- ConfigMerge.SetLeaf: works on values where the source walks references in place; which of two values is shared is not captured.
- ConfigEdit.Insert: the same, and neither the order of keys nor the text layout beyond a value's decoration is modelled.
- The typed configuration next to the tree, and the width of numbers in TOML and JSON.
- Bundle.Dedup: the order of the blob rows that are kept, which the source sorts.
- RedactedExport.UntouchedRequestsPassIff: is for rules that put something other than hexadecimal digits in place of a match; a literal replacement that is empty or made of such digits could restore the very hash, depending on the numbers given out before.
- RedactPaths.RootsAreGoneIff: is for paths without angle brackets; with them `AnglesLetItBack` shows an input that fails.
- Rows of workspaces, sessions, agents and messages in an export: they are redacted value by value and carry no blob ids.
- The choice of the blobs to read as text, by media type.
- The redaction report itself: the counters and numbers it is made from are modelled, its list of rules is not.
- Export's reading errors other than a missing blob, which end it before a bundle exists.
- JsonDiff.FirstDiff: among members of an object the source takes keys in order, here any differing member may be named.
- `rebuild`, the wire types and the canonical form of a request body.
- Usage totals and cost of the session header, times of calls and the text of notices in the transcript; items that are not footers are taken as given.
- Tables, thousands separators and the other printers of the command line.
