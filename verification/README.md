# Verified models of the tmux control-mode client

This project models the state machines of a tmux control-mode client library and proves what
they promise over every run. The library speaks tmux's line protocol: it parses a stream of
notifications and command responses, correlates commands with their replies, routes pane
output to attached sinks, and shares one connection between many peers.

Run `dafny verify dfyconfig.toml` here to check everything.

## How the model is built

Code between two `await`s is one step. Outstanding queries and commands are records, and the
environment settles them with success or failure in any order the code allows. Each stateful
part comes twice:

* a specification: a datatype of the state, one function per step, and the theorems over runs;
* a class with the source's fields, whose methods are proved to take exactly those steps
  (`ensures Now() == Step(old(Now()))`), loops and in-place updates included.

What a step comes to is also stated apart from the step functions, by literal references: where each
pane is placed (`RouterPlaces`), who is written what (`RouterHolding`), what is asked again
(`RouterRefresh`), what each line, byte and control sequence means (`MessageLines`,
`AttributionTyping`, `AttributionControls`), and who owns, owes and is sent what
(`SubscriptionEffects`, `BackpressureSends`).

| part | specification and theorems | class |
|---|---|---|
| pane routing | `RouterSpec`, `RouterQueries`, `RouterRefresh`, `RouterPlaces`, `RouterDelivery`, `RouterHolding`, `RouterInterest`, `TopologyTable`, `TopologyEpoch` | `TopologyRouter`, `SinkRegistry`, `PaneInterestTracker`, `IdlePaneSuppressor`, `PaneTopologyManager`, `TopologyEpochTracker` |
| wire protocol | `OctalCodec`, `Layout`, `LayoutChecksum`, `Messages`, `MessageLines`, `Parser` | `LayoutReader`, `TmuxParser` |
| command correlation | `ClientSpec`, `ClientDelivery`, `ClientLifecycle`, `ClosedSystem` | `TmuxClient`, `MockTmuxServer` |
| subscriptions | `SubscriptionSpec`, `SubscriptionEffects` | `SubscriptionLedger` |
| layout coverage | `CoverageSpec`, `HookBuffer` | `CrossSessionLayoutLedger`, `CrossSessionLayoutRelay`, `HookRelay` |
| backpressure | `BackpressureSpec`, `BackpressureSends` | `BackpressureLedger` |
| attributing emulator | `AttributionSpec`, `Attribution`, `AttributionTyping`, `AttributionControls` | `AttributionEngine` |
| test clock | `ManualClockModel` | `ManualClock` |

## Where the code does not do what its text says

Each of these is a lemma that shows the failing case, next to the exact condition under which
the code keeps its promise.

* The serializer's comment promises a round trip for every value the parser can produce
  (src/protocol/serializer.ts:39-44). `Messages.RoundTripIff` gives the exact domain; a client
  name, buffer name or flag token that kept a carriage return because more tokens followed it
  does not come back (`Messages.DetachedNameLosesItsCr`).
* A command block numbered -1 is not seen as a block, so a second begin can arrive while a promise
  is being answered; that promise is then forgotten for good (`ClientSpec.SentinelForgets`), and a
  run from the start leaves it unsettled after the close (`ClientSpec.SentinelLeavesUnsettled`).
  Over every run each promise is accounted for exactly when no begin is ever handled while one
  promise is being answered and another waits (`ClientSpec.NothingForgottenIff`). Without such
  numbers every promise settles (`ClientSpec.EveryPromiseSettles`).
* In the subscription ledger an unsubscribe that resumes after a rejection can meet a newer
  subscribe of the same peer that is still in flight. It drops that record, and the rollback
  by name then deletes another peer's record (`SubscriptionSpec.PhantomAfterMeeting`,
  `SubscriptionSpec.MeetingIsReached`). `SubscriptionSpec.StepKeepsIff` says exactly which
  steps keep the ledger consistent, `SubscriptionSpec.ConsistentThroughoutIff` which runs, and
  `SubscriptionSpec.DisciplinedRun` which callers never leave them.
* In the coverage ledger a failed enable takes back a later enable's count when a disable came
  in between; the later enable then succeeds uncovered (`CoverageSpec.LaterEnableResolvesUncovered`,
  a run from the start). Over every run an enable resolves uncovered exactly when as many counts
  were taken back as enables were called (`CoverageSpec.EnableUncoveredIff`); it never does for a
  peer that takes nothing back while an enable is unfinished (`CoverageSpec.PatientEnablesCover`),
  and always after a release (`CoverageSpec.ReleaseUncovers`).
* The backpressure ledger does not look at the total again when a Continue's outcome takes a
  pane's entry out (src/connectors/backpressure-ledger.ts:219-239): a pane that fills up while its
  Continue is in flight runs on unpaused (`BackpressureSpec.RefillLeavesUnbounded`). Over every run
  the panes stay bounded throughout exactly when every entry taken out is of a pane below the high
  watermark (`BackpressureSpec.BoundedThroughoutIff`). The code counts on tmux emitting nothing
  until the Continue is confirmed (lines 224-225), and under that assumption the bound does hold
  (`BackpressureSpec.BoundedWhenResumesAreSpared`).
* Idle suppression does not send its pauses again after a reconnect
  (`RouterInterest.ReconnectLeavesIdlePaneRunning`). Over every run, the panes that run on though
  idle are exactly those marked idle at the drop that have stayed idle since, provided nothing was
  recomputed before the new connection was ready (`RouterInterest.ReconnectUnsuppressedIff`,
  `RouterInterest.ReconnectMirrorsIff`).

## Model

| member | source | states |
|---|---|---|
| TopologyTable.UnplaceIsExact | src/pane-output.ts:263-290 | unplacing for a layout keeps exactly the rows the layout does not deny, and reports whether it lost any |
| TopologyTable.NothingLeftIff | src/pane-output.ts:263-290 | no window is reported as left exactly when no listed pane was placed elsewhere |
| TopologyTable.UnplaceKeepsAgreement | src/pane-output.ts:263-290 | unplacing for one layout cannot revive a row another layout denies |
| TopologyTable.UpdateIsExact | src/pane-output.ts:223-249 | after a refresh the panes placed in the window are exactly those its reply lists; other rows stay |
| TopologyTable.PaneTopologyManager.Seed | src/pane-output.ts:203-214 | seeding replaces the table by the reply's rows and rebuilds a covering index |
| TopologyTable.PaneTopologyManager.Indexed | src/pane-output.ts:176-200 | the lagging index finds every pane the table maps to a window |
| TopologyTable.PaneTopologyManager.RemoveWindow | src/pane-output.ts:295-307 | removing a window through the index equals filtering the whole table |
| TopologyTable.PaneTopologyManager.UpdateWindow | src/pane-output.ts:223-249 | the two index-driven loops compute the whole-table update, its lost rows and a covering index |
| TopologyTable.PaneTopologyManager.UnplaceContradicted | src/pane-output.ts:263-290 | the index-driven loops compute the whole-table unplacing and the windows left |
| TopologyEpoch.BootstrapCurrentIff | src/pane-output.ts:813-823 | the bootstrap counter test holds exactly when nothing superseded the query since it was sent |
| TopologyEpoch.LatestBootstrapIff | src/pane-output.ts:836-838 | a bootstrap is the latest exactly when no other was started after it |
| TopologyEpoch.RefreshCurrentIff | src/pane-output.ts:858-884 | the refresh counter test holds exactly when nothing superseded the query since it was sent |
| TopologyEpoch.LayoutsKeptIff | src/pane-output.ts:841-856 | the layouts kept are exactly those recorded last for their window since the last bootstrap start |
| TopologyEpoch.TopologyEpochTracker.StartBootstrap | src/pane-output.ts:813-819 | the tracker's state becomes that of the history with one bootstrap start more, and its token is the one drawn there |
| TopologyEpoch.TopologyEpochTracker.TakeLayouts | src/pane-output.ts:851-856 | hands out the recorded layouts in order and forgets them |
| TopologyEpoch.TopologyEpochTracker.StartWindowRefresh | src/pane-output.ts:858-863 | draws a fresh token for the window |
| TopologyEpoch.TopologyEpochTracker.InvalidateWindow | src/pane-output.ts:879-884 | supersedes every bootstrap and every refresh of the window sent so far |
| RouterQueries.NoResurrection | src/topology-router.ts:409-428 | in every run, a row placing a pane in a window was written by a query sent after the window's last add or close |
| RouterQueries.NeverStarved | src/topology-router.ts:480-550 | in every run, whenever something needs topology on a live connection, the latest bootstrap is that connection's and is in flight, has seeded, or was reported |
| RouterQueries.AppliedIffNotSuperseded | src/topology-router.ts:565-597 | in every run, the staleness test of an outstanding query holds exactly when no superseding event followed its start |
| RouterRefresh.LastAskIsAnswered | src/topology-router.ts:409-600 | in every run, on a live connection that needs topology, the last word on every window - query, membership change or layout - is a query of that connection that is in flight, was applied, was reported, or found the window gone |
| RouterRefresh.ChangeIsAsked | src/topology-router.ts:409-470 | at any point of any run, an add, close, layout or session change is followed, at every later point where the connection is live and something needs topology, by a query for the window that is in flight, applied or reported; a session change by a bootstrap |
| RouterRefresh.UnplacedIsAsked | src/topology-router.ts:424-600 | on a live connection that needs topology, a row taken out by a change, a layout, a tiled pane's refresh or a failed refresh is asked for again in the same step, through the window it was in |
| RouterPlaces.StepPlaces | src/topology-router.ts:245-600 | in every run, each step places every pane where a reference by history, last reply line and standing layouts says, and moves no other |
| RouterPlaces.LostUntilAnswered | src/topology-router.ts:245-253 | once the live connection is lost no pane is placed until a query is answered, whatever else happens |
| RouterPlaces.DeniedIsAsked | src/topology-router.ts:501-540 | a pane a current bootstrap lists but a standing layout denies is asked for again in the same step |
| RouterDelivery.DeliveredInOrderOnce | src/topology-router.ts:318-393 | in every run, an attachment is written each chunk at most once and each pane's chunks in arrival order, live and replayed together |
| RouterDelivery.WrittenOnlyToThosePresent | src/pane-output.ts:461-505 | in every run, every write, the first to an attachment included, is of a chunk of that pane that arrived after the attachment was made; replays reach only window and session attachments |
| RouterDelivery.EndedOnceAfterLastWrite | src/pane-output.ts:558-580 | in every run, every attachment is live or was ended by exactly one call, after its last write |
| RouterDelivery.HeldIsBoundedAndConserved | src/topology-router.ts:326-393 | in every run, the held bytes are the held sizes, within the cap; a hold implies an outstanding query and unplaced panes; every eligible byte is held, replayed, dropped, discarded, or refused and reported at most once; RouterHolding.EarlyBytesAccounted says what the counters count |
| RouterHolding.WritesAreExact | src/topology-router.ts:318-393 | each step writes exactly an arriving chunk to every attachment whose scope admits its pane, and held chunks a settle finds placed to the admitting window and session attachments there at their arrival |
| RouterHolding.WrittenInOrder | src/pane-output.ts:461-505 | an arriving chunk is written to pane, window, session, then server attachments, each in attach order |
| RouterHolding.AttachedExactly | src/pane-output.ts:377-391 | in every run, an attachment is there from its attach until it is disposed of or the connection closes, and gets the next number |
| RouterHolding.EarlyOutput | src/topology-router.ts:318-360 | in every run, an arriving chunk is held exactly when its pane is unplaced, a window or session attachment is there, a query is outstanding, and the held sizes plus its own stay within 4 MiB; only the cap refuses, and refused bytes are counted |
| RouterHolding.HeldFate | src/topology-router.ts:361-393 | in every run, a held chunk stays until its connection closes or a settle; a settle that finds its pane placed delivers it to every admitting attachment old enough, one that leaves it unplaced keeps it while a query is outstanding and drops it when none is |
| RouterHolding.EarlyChunkAccounted | src/topology-router.ts:318-393 | over every run from its arrival, an early chunk was refused by the cap, is held, or left by being delivered, dropped with nothing outstanding, or closed on |
| RouterHolding.EarlyOutputReaches | src/topology-router.ts:318-393 | end to end: when a settle first places its pane, an early chunk is written to every admitting window and session attachment made by its arrival |
| RouterHolding.EarlyBytesAccounted | src/topology-router.ts:318-393 | over every run, counted from the inputs and states and not by the router: the bytes that arrived early are those held, replayed, dropped, discarded or refused, and the refused ones those still unreported, reported or forgotten by a close |
| RouterHolding.RefusalIsReported | src/topology-router.ts:361-375 | every settle reports the refused bytes, if any, in one report of exactly their number, and leaves none |
| RouterInterest.SeedFollowsLayouts | src/topology-router.ts:501-513 | once a current bootstrap applies, no row contradicts the last layout recorded for any window since it started |
| RouterInterest.LiveRecipientsAreAdmitting | src/pane-output.ts:461-505 | live output reaches exactly the attachments whose scope admits the pane |
| RouterInterest.AdmittedIff | src/pane-output.ts:745-756 | the admit count is positive exactly when some attachment admits the pane |
| RouterInterest.ReplayReaches | src/topology-router.ts:361-393 | a held chunk whose pane is placed is replayed to every admitting attachment old enough |
| RouterInterest.SettleReaches | src/topology-router.ts:361-393 | the same over a whole settle |
| RouterInterest.StepMarks | src/pane-output.ts:695-743 | every step either recomputes the marks from what is then attached and placed and announces exactly the panes that changed, or leaves marks and pauses alone; a new connection and the close recompute nothing, the one starting with nothing paused, the other forgetting the panes paused |
| RouterInterest.PausedExactlyWhenIdle | src/topology-router.ts:196-237 | on one connection, at every moment, a tracked pane is paused in tmux exactly when no attachment admits it under the table as of the last recompute, which has since only lost rows; no Pause was dropped before ready |
| RouterInterest.PausedExactlyWhenIdleNow | src/pane-output.ts:695-743 | right after every step that recomputes - attach, detach, membership change, applied reply, current failed refresh - a tracked pane is paused exactly when no attachment admits it now |
| RouterInterest.ReconnectUnsuppressedIff | src/topology-router.ts:221-253 | over every run with a drop and a later connection, at every moment of it, the panes running though marked idle are exactly those marked idle at the drop, when nothing was recomputed while disconnected and they stayed idle since |
| RouterInterest.ReconnectMirrorsIff | src/topology-router.ts:221-253 | so the paused panes are again those marked idle exactly when none of the panes idle at the drop stayed idle, or something was recomputed while disconnected |
| RouterInterest.ReconnectLeavesIdlePaneRunning | src/topology-router.ts:221-253 | a run from the start that leaves a placed, unwanted pane running on the second connection |
| SinkRegistryClass.SinkRegistry.Attach | src/pane-output.ts:377-391 | a fresh attachment is filed last in its scope, with the next attach number |
| SinkRegistryClass.SinkRegistry.Dispose | src/pane-output.ts:377-391 | the disposer removes and ends its attachment once and prunes an emptied bucket |
| SinkRegistryClass.SinkRegistry.DispatchLive | src/pane-output.ts:461-505 | writes pane, window, session and server attachments in that order, each in attach order |
| SinkRegistryClass.SinkRegistry.DispatchReplay | src/pane-output.ts:461-505 | writes only window and session attachments made no later than the chunk's arrival |
| SinkRegistryClass.SinkRegistry.EndAll | src/pane-output.ts:558-580 | ends every live attachment in one sweep and leaves none |
| SinkRegistryClass.IdlePaneSuppressor.OnPaneBecameInteresting | src/idle-pane-suppressor.ts:47-50 | continues the pane, through the sender's gate, and forgets it |
| SinkRegistryClass.IdlePaneSuppressor.OnPaneBecameIdle | src/idle-pane-suppressor.ts:52-55 | pauses the pane, through the sender's gate, and remembers it |
| SinkRegistryClass.PaneInterestTracker.Recompute | src/pane-output.ts:721-743 | rebuilds every mark and announces exactly the panes whose mark changed, each once |
| TopologyRouterClass.TopologyRouter.OnTransportReady | src/topology-router.ts:221-237 | takes the router's ready step |
| TopologyRouterClass.TopologyRouter.OnTransportLost | src/topology-router.ts:245-253 | takes the lost step only for the current connection |
| TopologyRouterClass.TopologyRouter.OnTransportClose | src/topology-router.ts:262-273 | discards the hold and ends every attachment |
| TopologyRouterClass.TopologyRouter.AttachBytesSink | src/topology-router.ts:286-312 | attaches, bootstraps for a topology scope, and recomputes interest |
| TopologyRouterClass.TopologyRouter.DispatchBytes | src/topology-router.ts:318-338 | writes live and holds an unplaced pane's chunk |
| TopologyRouterClass.TopologyRouter.HoldChunk | src/topology-router.ts:339-360 | holds within the byte cap, refusing and counting what does not fit |
| TopologyRouterClass.TopologyRouter.ReleaseHeldChunks | src/topology-router.ts:361-393 | the replay loop replays what is placed, keeps what a query may still place, drops the rest, and reports refused bytes once |
| TopologyRouterClass.TopologyRouter.OnMembershipChange | src/topology-router.ts:409-428 | unplaces the window, supersedes its queries and refreshes it |
| TopologyRouterClass.TopologyRouter.OnLayoutChange | src/topology-router.ts:429-452 | unplaces what the layout denies and asks again for the windows left |
| TopologyRouterClass.TopologyRouter.BootstrapSettled | src/topology-router.ts:480-550 | the continuation of a bootstrap: seeds when current, restarts when superseded, reports the latest's failure |
| TopologyRouterClass.TopologyRouter.RefreshSettled | src/topology-router.ts:565-600 | the continuation of a refresh: updates when current, gives the window up when it is gone |
| OctalCodec.DecodeEncode | src/protocol/decode.ts:37-112 | decoding what was encoded gives the bytes back, for every byte string |
| OctalCodec.DecodeIgnoresCr | src/protocol/decode.ts:37-80 | carriage returns anywhere change nothing, truncated and malformed escapes included |
| OctalCodec.EncodeHasNoControls | src/protocol/decode.ts:99-112 | an encoded payload holds no control character |
| OctalCodec.DecodeOctal | src/protocol/decode.ts:37-80 | a backslash and any three octal digits decode to the byte they spell, on eight bits |
| OctalCodec.DecodeCutShort | src/protocol/decode.ts:37-80 | an escape cut short decodes to a question mark and the text goes on at the character that cut it |
| OctalCodec.DecodeControl | src/protocol/decode.ts:37-80 | control characters outside an escape are skipped |
| OctalCodec.DecodeOctalEscapes | src/protocol/decode.ts:37-80 | the loop with its back-up step terminates, stays within the buffer and computes the decoding |
| OctalCodec.EncodeOctalEscapes | src/protocol/decode.ts:99-112 | the loop computes the encoding |
| Layout.ParsedIff | src/protocol/layout.ts:120-146 | the answer is `parsed` with these panes exactly for a matching four-hex-digit checksum over an empty body or one cell nested at most 1000 splits deep whose leaves, depth first, are the panes |
| Layout.CellSound | src/protocol/layout.ts:84-110 | whatever the reader accepts is the text of a cell of the grammar, with its leaves in order |
| Layout.CellComplete | src/protocol/layout.ts:84-110 | the text of any cell within the nesting limit is read back as its leaves |
| Layout.OneChangeIsSeen | src/protocol/layout.ts:24-31 | changing exactly one character always changes the checksum |
| Layout.OneChangeIsMalformed | src/protocol/layout.ts:120-134 | a layout string with one body character changed is always malformed |
| LayoutChecksum.ChecksumOneMore | src/protocol/layout.ts:24-31 | one more character: the checksum so far rotated right by one bit on 16 bits, plus its code, modulo 0x10000 |
| LayoutChecksum.OneCharacter | src/protocol/layout.ts:24-31 | a character with n characters after it that add nothing contributes its code rotated right by n bits on 16 bits |
| LayoutChecksum.ChecksumIsContributions | src/protocol/layout.ts:24-31 | the checksum of any text is, but for multiples of 0xffff, the sum of its codes, each rotated right by its distance from the end, less the lost carries, rotated alike |
| LayoutChecksum.UpperHexDigit | src/protocol/layout.ts:120-134 | upper-case hex digits of a checksum count like lower-case ones |
| LayoutChecksum.PrintedIsParsed | src/protocol/layout.ts:120-146 | the layout of any cell nested at most 1000 deep, printed with its checksum in four hex digits, is parsed to its leaves |
| LayoutChecksum.OnePaneLayout | src/protocol/layout.ts:120-146 | `b25d,80x24,0,0,0` is parsed: pane 0, 80 by 24, at the origin |
| LayoutChecksum.SideBySideLayout | src/protocol/layout.ts:84-110 | the body of a left-right split gives both panes their sizes and places |
| Layout.LayoutReader.ReadOneCell | src/protocol/layout.ts:84-110 | the recursive cursor appends exactly the cell's leaves, or fails where the grammar does |
| Layout.LayoutReader.ReadChildren | src/protocol/layout.ts:103-109 | the child loop reads what the grammar's cell list reads |
| Layout.ParseLayout | src/protocol/layout.ts:120-146 | never a partial list: the whole layout or `malformed` |
| Layout.ComputeChecksum | src/protocol/layout.ts:24-31 | the rotate-and-add loop computes the 16-bit checksum |
| Messages.RoundTripIff | src/protocol/serializer.ts:46-125 | a message comes back from its line exactly when it has a parser's shape and the line does not end in a carriage return |
| Messages.ReparseIff | src/protocol/serializer.ts:34-45 | what was parsed from any line parses again from its own line, unless a token kept a carriage return; only three kinds of message can |
| Messages.DetachedNameLosesItsCr | src/protocol/serializer.ts:39-44 | a parsed client name that does not survive the round trip |
| Messages.DetachedTokenKeepsCr | src/protocol/parser.ts:190-194 | the whole family of such client names |
| Messages.LookupName | src/protocol/parser.ts:246-275 | every wire type is found in the dispatch table under its own name |
| Messages.SerializedIsOneLine | src/protocol/serializer.ts:39-44 | a message without newlines in its text fields is written as one line |
| MessageLines.SerializesAs | src/protocol/serializer.ts:46-125 | every message is printed as its type's own word and its fields in the protocol's order, written out |
| MessageLines.LineIsRead | src/protocol/parser.ts:100-275 | each message is read from that line exactly when it has a parser's shape and the line ends in no carriage return |
| Parser.FeedTwice | src/protocol/parser.ts:346-359 | feeding two chunks is feeding their concatenation, in events and in state |
| Parser.AnyChunking | src/protocol/parser.ts:346-359 | however a text is cut into chunks, events and final state are those of the whole |
| Parser.StreamRoundTrip | src/protocol/parser.ts:406-479 | any sequence of in-domain notifications and whole command blocks, serialized and fed in any chunking to a fresh parser, yields exactly those messages and output lines |
| Parser.ConsumeIsLegal | src/protocol/parser.ts:406-479 | on every stream, output and malformed terminators come only from an open block, and a block opens only when none is open |
| Parser.TmuxParser.Feed | src/protocol/parser.ts:346-359 | the buffering loop delivers the events of all complete lines and keeps the unfinished one |
| Parser.TmuxParser.ProcessLine | src/protocol/parser.ts:406-479 | routes one line by block position and type, trailing carriage returns aside |
| ClientSpec.Lifecycle | src/client.ts:182-209 | on any stream and close point: no promise settles twice, exit is emitted at most once and exactly once by `closed`, ready and closed are announced at most once in order, nothing leaves `closed` |
| ClientSpec.EveryPromiseSettles | src/client.ts:338-357 | unless a begin carries the sentinel number, every promise is waiting or settled exactly once at every point, and settled once the close is handled |
| ClientSpec.ClosedIsSilent | src/client.ts:358-388 | after `closed`, data reaches nobody and commands are refused on the spot |
| ClientSpec.NothingForgottenIff | src/client.ts:378-441 | over every run from the start, each promise made is waiting, being answered or settled exactly once, exactly when no begin is ever handled while one promise is being answered and another waits; after the close the unsettled promises are exactly those forgotten at such begins |
| ClientSpec.ForgottenForGood | src/client.ts:338-407 | a forgotten promise is settled by no later step of any continuation, a close included |
| ClientSpec.SentinelForgets | src/client.ts:388-407 | with two promises waiting, two begins numbered -1 forget the first of them, for every continuation |
| ClientSpec.SentinelLeavesUnsettled | src/client.ts:388-407 | a run from the start - greeting block, two commands, two begins numbered -1, close - that ends closed with the first promise unsettled |
| ClientSpec.ClaimAccounts | src/client.ts:388-407 | a begin loses a promise exactly when one is still being answered and another is claimed |
| ClientDelivery.EveryMessageIsPassedOn | src/client.ts:388-484 | over every run, the router is passed every message of the text received until the close, in order and without a second exit; the listeners the same without pane output, and an exit made up from the close when none came |
| ClientLifecycle.AnnouncedExactly | src/client.ts:182-208 | over every run, readiness is announced to listeners and router once, when the startup block ends; the first close is told the router and announced with its reason, disposed, exited or failed; exactly the protocol errors received are reported |
| ClientLifecycle.CommandsRefused | src/client.ts:221-269 | on an open client a command is refused as invalid and queued nowhere exactly when it is blank, a comment or spans lines; a valid one is queued last, or refused with the transport |
| Client.TmuxClient.Execute | src/client.ts:221-269 | enqueues before sending and rolls back a refused send; invalid and closed are rejected at once |
| Client.TmuxClient.OnMessage | src/client.ts:378-484 | takes the correlation step of a message, then tells the router and the listeners |
| Client.TmuxClient.OnProtocolError | src/client.ts:492-510 | a malformed terminator settles the command being answered or closes the greeting |
| Client.TmuxClient.OnData | src/client.ts:180-182 | feeds the parser and handles what it reported, in order |
| Client.TmuxClient.OnClose | src/client.ts:182-208 | rejects everything unsettled, tells exit once, announces `closed` |
| MockServer.OneCommandOneBlock | src/mock/server.ts:137-160 | one command sent as one line is logged once and enqueues one whole block with the next number |
| MockServer.BlockIs | src/mock/server.ts:239-285 | a reply's block carries its number and time in both guards, and ends in an end or an error as the scenario answers, fails or throws |
| MockServer.LineThen | src/mock/server.ts:137-160 | a complete line is one command answered by one block, and what follows it is handled next |
| MockServer.EmptyLineDetaches | src/mock/server.ts:137-160 | an empty line detaches and nothing after it is handled; an unfinished line waits |
| MockServer.MockTmuxServer.Send | src/mock/server.ts:137-160 | handles every complete line up to a detach; a nested call delivers nothing |
| MockServer.MockTmuxServer.Flush | src/mock/server.ts:297-309 | the trampoline delivers everything enqueued, in order, and a nested call returns at once |
| MockServer.MockTmuxServer.Start | src/mock/server.ts:192-211 | the greeting block and the scenario's notifications, at most once |
| ClosedSystem.EveryCommandGetsItsReply | src/client.ts:221-441 | client, parser and server together, after start, under any interleaving: the commands settled are the first accepted ones, in order, each with exactly the scenario's reply; with nothing left to deliver all are settled; the stream is whole blocks and single notifications |
| ClosedSystem.CloseSettlesTheRest | src/client.ts:182-208 | the transport closing at any point of any run of the three together: the first accepted commands have the scenario's replies, every other one is rejected with the close's reason, in the order accepted |
| ClosedSystem.HandleAllAhead | src/client.ts:243-262 | a command executed in the middle of outstanding replies does not disturb them and is answered after them |
| ClosedSystem.BlockSettles | src/client.ts:388-432 | a block closed by `%end` resolves the oldest waiting command with its number, timestamp and lines; one closed by `%error` fails it with them |
| ClosedSystem.MalformedTerminatorFails | src/client.ts:492-510 | a block whose terminator is malformed fails its command as a protocol error, with the lines received |
| SubscriptionSpec.LedgerAgrees | src/connectors/subscription-ledger.ts:79-263 | within the schedule limits, at every step a name is in a registered peer's set exactly when the peer owns the registered record; records have owners; effective subscribes and unsubscribes alternate |
| SubscriptionSpec.StepKeepsIff | src/connectors/subscription-ledger.ts:100-263 | a step keeps the ledger consistent exactly when it respects the two schedule limits |
| SubscriptionSpec.ConsistentThroughoutIff | src/connectors/subscription-ledger.ts:100-263 | over every run that can happen, the ledger is consistent at every point exactly when every step respects the two schedule limits |
| SubscriptionSpec.JoinResumesKeeps | src/connectors/subscription-ledger.ts:113-149 | a waiting subscriber answered OK owns the confirmed, registered record |
| SubscriptionSpec.SubscribeKeeps | src/connectors/subscription-ledger.ts:100-180 | a subscribe answered at once leaves the peer owning the confirmed, registered record |
| SubscriptionSpec.CommandsAreSerial | src/connectors/subscription-ledger.ts:34-44 | neither kind of command is sent for a name while a subscribe for it is in flight |
| SubscriptionSpec.DropKeepsIff | src/connectors/subscription-ledger.ts:235-243 | dropping ownership is safe exactly when the record's subscribe is not in flight |
| SubscriptionSpec.ReleaseKeepsIff | src/connectors/subscription-ledger.ts:251-263 | releasing a peer is safe exactly when none of its own subscribes waits |
| SubscriptionSpec.ReleasedJoinOwns | src/connectors/subscription-ledger.ts:127-148 | a join that resumes after its peer was released makes that peer an owner of the surviving record, which none of its later calls can undo |
| SubscriptionSpec.AlwaysWellNamed | src/connectors/subscription-ledger.ts:251-263 | over every run within the limits a registered record bears its name, as releasing a peer's names needs |
| SubscriptionSpec.DisciplinedRun | src/connectors/subscription-ledger.ts:191-244 | from the start, callers that never overlap a peer's subscribe and unsubscribe of one name stay within the limits, so ownership agrees and commands alternate |
| SubscriptionSpec.PhantomAfterMeeting | src/connectors/subscription-ledger.ts:167-178 | an unsubscribe resuming into an in-flight record lets the rollback delete another peer's record |
| SubscriptionSpec.MeetingIsReached | src/connectors/subscription-ledger.ts:217-232 | such a state is reached by subscribing again right after a rejection |
| SubscriptionSpec.ReleaseNamesStep | src/connectors/subscription-ledger.ts:255-262 | releasing a peer's names one by one has the same effect in any order |
| SubscriptionEffects.OwnedExactly | src/connectors/subscription-ledger.ts:79-263 | after each step exactly these peers own a name: told by who owned it, what was asked and whether its subscribe is in flight |
| SubscriptionEffects.AnsweredExactly | src/connectors/subscription-ledger.ts:79-263 | each call is answered exactly so: internal, conflict of terms, unknown, made to wait, OK, or tmux's own answer |
| SubscriptionEffects.SentExactly | src/connectors/subscription-ledger.ts:100-263 | each step sends tmux exactly these commands for a name: an unsubscribe when, and only when, its last owner goes |
| SubscriptionLedgerClass.SubscriptionLedger.Subscribe | src/connectors/subscription-ledger.ts:100-162 | the synchronous part of a subscribe call |
| SubscriptionLedgerClass.SubscriptionLedger.Settled | src/connectors/subscription-ledger.ts:163-179 | confirmation, or rollback of the whole record |
| SubscriptionLedgerClass.SubscriptionLedger.JoinResumed | src/connectors/subscription-ledger.ts:127-149 | a waiting subscriber claims the surviving record or starts over |
| SubscriptionLedgerClass.SubscriptionLedger.Unsubscribe | src/connectors/subscription-ledger.ts:191-217 | the synchronous part of an unsubscribe call |
| SubscriptionLedgerClass.SubscriptionLedger.UnsubResumed | src/connectors/subscription-ledger.ts:233-244 | a waiting unsubscribe drops what the peer still owns |
| SubscriptionLedgerClass.SubscriptionLedger.ReleasePeer | src/connectors/subscription-ledger.ts:251-263 | the loop over the peer's names, whatever its order |
| CoverageSpec.CoverageAgrees | src/connectors/cross-session-layout-ledger.ts:71-141 | at every point of every run, a drained peer holds its reference exactly when its count is positive; the relay's count is the number of references, never negative; a holder is covered by a live subscription |
| CoverageSpec.DrainedAgrees | src/cross-session-layout.ts:323-363 | once all queues drain, the relay's count is the number of holding peers and it is subscribed exactly when that is positive |
| CoverageSpec.PatientEnablesCover | src/connectors/cross-session-layout-ledger.ts:71-141 | over every run in which a peer takes nothing back while an enable of it is unfinished, every enable not refused ends with the peer's reference held and covered by a live subscription |
| CoverageSpec.EnableUncoveredIff | src/connectors/cross-session-layout-ledger.ts:71-84 | over every run, an enable resolves uncovered exactly when disables, releases and refusals have by its start taken back as many counts as enables were called |
| CoverageSpec.UncoveredUntilEnabled | src/connectors/cross-session-layout-ledger.ts:71-100 | once all is taken back, every queued enable is left uncovered until enable is called again |
| CoverageSpec.ReleaseUncovers | src/connectors/cross-session-layout-ledger.ts:71-141 | every enable still queued when its peer is released is left uncovered |
| CoverageSpec.LaterEnableResolvesUncovered | src/connectors/cross-session-layout-ledger.ts:76-83 | a run from the start in which a refused enable takes back a later enable's count, and the later one resolves with no reference and no subscription |
| CoverageLedger.CrossSessionLayoutLedger.StartStep | src/connectors/cross-session-layout-ledger.ts:129-140 | a queued step reconciles the reference toward the count |
| CoverageLedger.CrossSessionLayoutLedger.ContinueStep | src/connectors/cross-session-layout-ledger.ts:75-83 | a refused enable is uncounted by its own step |
| CoverageLedger.CrossSessionLayoutRelay.StartStep | src/cross-session-layout.ts:359-363 | a relay step decides from the count when it starts |
| CoverageLedger.CrossSessionLayoutRelay.FinishStep | src/cross-session-layout.ts:323-342 | a failed enable gives its reference back |
| HookBuffer.EveryChangeCountedOnce | src/cross-session-layout.ts:406-428 | over every run of firings and deliveries, each change after the baseline is counted by exactly one delivery, either fetched under its true window or lost |
| HookBuffer.SnapshotDecodes | src/cross-session-layout.ts:180-201 | a snapshot decodes to the true entries after some point and nothing else; the newest is among them exactly when it is shorter than the cap |
| HookBuffer.DeliveryCatchesUp | src/cross-session-layout.ts:406-419 | over every run, a delivery ends at the counter exactly when the relay stood there or the newest entry fits the buffer; so always when all entries are shorter than the cap |
| HookBuffer.DeliveryAccounts | src/cross-session-layout.ts:253-265 | one delivery accounts for everything since the last one, and catches up with the counter exactly when the newest entry fits the buffer |
| HookBuffer.FireOk | src/cross-session-layout.ts:91-97 | truncating at every append keeps exactly the end of everything ever written |
| HookBuffer.DeliveryBack | src/cross-session-layout.ts:216-236 | the subscription's value is taken apart into the epoch, uncovered windows and buffer it was made of |
| HookBuffer.DecodeValue | src/cross-session-layout.ts:180-201 | the cursor loop computes the decoding |
| HookBuffer.HookRelay.HandleDelivery | src/cross-session-layout.ts:406-419 | plans from the decoded buffer and moves the high-water mark |
| BackpressureSpec.NeverStranded | src/connectors/backpressure-ledger.ts:209-248 | over every run, a paused pane drained to the low watermark has a Continue in flight or a reported failure; `resuming` says exactly that one is in flight; never two before teardown |
| BackpressureSpec.NoPauseWhilePaused | src/connectors/backpressure-ledger.ts:195-202 | over every run, no pane is sent a second Pause without a Continue in between |
| BackpressureSpec.AccountKeeps | src/connectors/backpressure-ledger.ts:257-264 | after every effective account the pane is paused or its total is below the high watermark |
| BackpressureSpec.AckKeeps | src/connectors/backpressure-ledger.ts:276-285 | an ack is clamped to the sender's own tally and touches no other |
| BackpressureSpec.BoundedThroughoutIff | src/connectors/backpressure-ledger.ts:209-335 | over every run, each pane is paused or below the high watermark at every point exactly when no entry is ever taken out, by an outcome or the teardown, at a total of the high watermark or more |
| BackpressureSpec.BoundedWhenResumesAreSpared | src/connectors/backpressure-ledger.ts:209-264 | so every pane stays bounded in every run before the teardown that accounts nothing to a pane whose Continue is in flight |
| BackpressureSpec.SettleKeepsBoundIff | src/connectors/backpressure-ledger.ts:217-247 | an outcome keeps the bound exactly when it is a refusal or the pane's total has not come back to the high watermark |
| BackpressureSpec.RefillLeavesUnbounded | src/connectors/backpressure-ledger.ts:209-248 | a run from the start after which a pane at the high watermark is unpaused with nothing in flight, whether the Continue was confirmed or its connection was gone |
| BackpressureSpec.SettleKeeps | src/connectors/backpressure-ledger.ts:217-247 | a Continue's outcome touches only its own episode: all other flows and reports, every tally and what was sent are unchanged |
| BackpressureSends.SendsExactly | src/connectors/backpressure-ledger.ts:195-335 | each step sends exactly a Pause when accounting takes an unpaused pane to the high watermark, a Continue for each pane let drain to the low watermark that is paused and has none on its way, and at the last one for every paused pane without one |
| BackpressureSends.PausedExactly | src/connectors/backpressure-ledger.ts:195-335 | a pane is held paused from its Pause until a Continue of that episode is answered or the ledger is flushed |
| BackpressureSends.OwedExactly | src/connectors/backpressure-ledger.ts:176-318 | bytes accounted are owed by that peer for that pane, acknowledged ones no more, never less than nothing; clearing and releasing forgive one peer |
| BackpressureLedgerClass.BackpressureLedger.TotalOutstanding | src/connectors/backpressure-ledger.ts:189-193 | the loop sums the pane's tallies over all peers |
| BackpressureLedgerClass.BackpressureLedger.Clear | src/connectors/backpressure-ledger.ts:295-304 | clears the peer's tallies, then decides each pane's resume |
| BackpressureLedgerClass.BackpressureLedger.Release | src/connectors/backpressure-ledger.ts:312-318 | removes the peer's slot before the resume decisions |
| BackpressureLedgerClass.BackpressureLedger.FlushPausedPanes | src/connectors/backpressure-ledger.ts:327-335 | sends a last Continue for exactly the paused panes that have none in flight |
| Attribution.EveryCellIsItsByte | examples/web-multiplexer/web/byte-attribution-engine.ts:147-442 | after any byte stream, cursor and scroll region are in bounds, every written cell's origin is that of the stream byte at its offset and its glyph the one decoded there, and no two cells claim one byte |
| Attribution.CutsDoNotMatter | examples/web-multiplexer/web/byte-attribution-engine.ts:147-161 | glyphs, pens, cursor and stream offsets are the same for every way of cutting the stream into chunks |
| Attribution.ApplyKeeps | examples/web-multiplexer/web/byte-attribution-engine.ts:411-628 | scrolling, inserting, deleting and erasing duplicate no cell |
| Attribution.StepKeeps | examples/web-multiplexer/web/byte-attribution-engine.ts:178-266 | every byte keeps the provenance of every cell, half-read graphemes included |
| AttributionTyping.TypedScreen | examples/web-multiplexer/web/byte-attribution-engine.ts:346-372 | on a fresh screen, printable bytes no more than it holds, in whatever chunks: byte i is at row i / cols, column i % cols with its origin, every other cell is blank, and cursor or deferred wrap follow the last |
| AttributionTyping.PrintableTypes | examples/web-multiplexer/web/byte-attribution-engine.ts:214-262 | from any engine in ground state a printable byte leaves its glyph at the cursor after the deferred wrap, every other cell as after that wrap, the cursor one further or the wrap deferred |
| AttributionTyping.SequenceTypes | examples/web-multiplexer/web/byte-attribution-engine.ts:214-275 | the two to four bytes of a UTF-8 sequence type its code point the same way, attributed to the first of them |
| AttributionTyping.StrayTypes | examples/web-multiplexer/web/byte-attribution-engine.ts:255-266 | a continuation byte nothing asked for types the replacement character |
| AttributionControls.CursorSequence | examples/web-multiplexer/web/byte-attribution-engine.ts:472-511 | from the bytes on, each cursor final moves the cursor its way by its count, stopping where it should, and changes nothing else |
| AttributionControls.EditSequence | examples/web-multiplexer/web/byte-attribution-engine.ts:512-532 | from the bytes on, every cell after an erase, insert or delete sequence, given outright |
| AttributionControls.RegionSequence | examples/web-multiplexer/web/byte-attribution-engine.ts:533-535 | the scroll region is set when its first line comes before its last, or the whole screen, and the cursor goes to its start |
| AttributionControls.SavingSequence | examples/web-multiplexer/web/byte-attribution-engine.ts:539-552 | the cursor and pen are saved and restored; any other final does nothing |
| AttributionControls.PrivateSequence | examples/web-multiplexer/web/byte-attribution-engine.ts:557-566 | the alternate screen's modes clear the screen; other private modes do nothing |
| AttributionControls.PenSequence | examples/web-multiplexer/web/byte-attribution-engine.ts:645-662 | without color specifications each number styles the pen in turn, a missing one resets it |
| AttributionControls.ColorSequence | examples/web-multiplexer/web/byte-attribution-engine.ts:663-678 | 38 and 48 color foreground and background, by index or by parts |
| AttributionControls.ControlByte | examples/web-multiplexer/web/byte-attribution-engine.ts:374-409 | backspace, tab, line feeds and return, cell by cell; other control bytes do nothing |
| AttributionControls.Escape | examples/web-multiplexer/web/byte-attribution-engine.ts:276-319 | index, next line, reverse index and reset, cell by cell; other escapes do nothing |
| AttributionControls.StringIsSilent | examples/web-multiplexer/web/byte-attribution-engine.ts:196-211 | a control string is consumed whole and leaves no trace |
| AttributionControls.DesignatorIsSilent | examples/web-multiplexer/web/byte-attribution-engine.ts:194-198 | a character-set designator is consumed whole and leaves no trace |
| AttributionControls.BrokenSequence | examples/web-multiplexer/web/byte-attribution-engine.ts:319-336 | a byte no control sequence may hold breaks it off without effect |
| AttributionEngineClass.AttributionEngine.ScrollUpNow | examples/web-multiplexer/web/byte-attribution-engine.ts:411-418 | the nested in-place loops move the region up one line |
| AttributionEngineClass.AttributionEngine.ScrollDownNow | examples/web-multiplexer/web/byte-attribution-engine.ts:420-427 | the nested in-place loops move the region down one line |
| AttributionEngineClass.AttributionEngine.InsertLinesNow | examples/web-multiplexer/web/byte-attribution-engine.ts:608-617 | lines move down inside the region, in place, from the bottom |
| AttributionEngineClass.AttributionEngine.DeleteLinesNow | examples/web-multiplexer/web/byte-attribution-engine.ts:619-628 | lines move up inside the region, in place, from the cursor row |
| AttributionEngineClass.AttributionEngine.InsertCharsNow | examples/web-multiplexer/web/byte-attribution-engine.ts:592-598 | cells move right, in place, from the right edge |
| AttributionEngineClass.AttributionEngine.DeleteCharsNow | examples/web-multiplexer/web/byte-attribution-engine.ts:600-606 | cells move left, in place, from the cursor |
| AttributionEngineClass.AttributionEngine.EraseDisplayNow | examples/web-multiplexer/web/byte-attribution-engine.ts:568-574 | erases by array position exactly what lies after, before or anywhere around the cursor |
| AttributionEngineClass.AttributionEngine.ApplySgr | examples/web-multiplexer/web/byte-attribution-engine.ts:645-681 | the loop that skips colour operands folds the parameters into the pen |
| AttributionEngineClass.AttributionEngine.ApplyCsiNow | examples/web-multiplexer/web/byte-attribution-engine.ts:448-553 | dispatches a control sequence |
| AttributionEngineClass.AttributionEngine.PushBytes | examples/web-multiplexer/web/byte-attribution-engine.ts:147-161 | the loop, reprocessed bytes included, folds the chunk's bytes with their places |
| AttributionEngineClass.Emulate | examples/web-multiplexer/web/byte-attribution-engine.ts:691-698 | a fresh engine fed with all chunks is the emulation of the whole stream |
| ManualClockModel.FiringOrder | src/chaos/transport.ts:60-128 | over a whole run, fired keys (due time, scheduling order) strictly increase, nothing fires early, and every callback has fired or is waiting |
| ManualClockModel.StepIsOnTime | src/chaos/transport.ts:60-128 | a callback is due its delay from now, or now when that is negative; firing takes it from the queue and brings time to when it is due; an advance brings time to its target |
| ManualClockModel.ManualClock.EarliestDue | src/chaos/transport.ts:108-123 | the scan finds the first due item in firing order, or none when none is due |
| ManualClockModel.ManualClock.Advance | src/chaos/transport.ts:85-95 | firing keeps the order; when done, time has reached the target and nothing is due by it |

## Left out

- Sinks and the error seam do not call the router back while it writes, and a query command delivers no output synchronously; so the check for a changed connection inside the replay loop (src/topology-router.ts:378) has nothing to find.
- The registry's buckets are values filed by scope; sharing of a bucket object between a snapshot and later attaches is not modelled, and the order of the final end sweep is a set.
- RouterInterest.PausedExactlyWhenIdle: claims one connection up to its close, because a lost transport empties the table without recomputing interest and a reconnect sends no pauses again; RouterInterest.ReconnectUnsuppressedIff says what holds on the next one.
- RouterInterest.ReconnectUnsuppressedIff: between the drop and the new connection no query reply arrives, since the client rejects the commands in flight when the transport drops.
- Microtasks and promises as such: continuations run as steps of their own in any order. The first subscriber's rollback runs in the same step as the rejection.
- Event handlers may execute commands at any point between two steps, but do not close the client from inside a handler.
- Client.TmuxClient.OnData: the parser's reports are handled after the whole chunk is fed; the parser reads nothing the handlers change, so the order of events is the same.
- A refused send delivers no data, and a transport that throws is a refused send.
- ClosedSystem.EveryCommandGetsItsReply: starts after `start` and has no detach, which the server's own contracts cover; a close is in ClosedSystem.CloseSettlesTheRest, and nothing is delivered after it.
- MockServer.MockTmuxServer.Flush: callbacks are the list of chunks handed over; what they send back appears as nested calls while flushing.
- SubscriptionSpec.LedgerAgrees: record objects and owned-names sets are numbered values, and a released peer is never registered again.
- CoverageSpec.CoverageAgrees: the relay's only users are the ledger's peers; coverage repair, epochs and the fetches of a delivery are not modelled.
- HookBuffer.EveryChangeCountedOnce: only the hook writes the buffer and the counter, starting from an unset option; foreign text is handled by the decoder but is not part of the runs.
- HookBuffer.DeliveryBack: the list of uncovered windows is modelled as a set, which the source keeps sorted and distinct.
- BackpressureSpec.NeverStranded: byte counts are integers.
- ManualClockModel.ManualClock.Advance: takes a bound on how many callbacks it fires, because callbacks that keep scheduling zero delays never let `advance` return.
- Attribution.EveryCellIsItsByte: a glyph is a code point, and colour strings are the palette index or components they come from.
- Numbers are unbounded integers: the sign of zero, precision beyond 53 bits and the exponent form of huge numbers in printed text are not modelled.
- Text decoding of record fields, list-panes line parsing and error message text: replies reach the model as parsed rows.
- Process, socket, HTTP, WebSocket and desktop transports, and the views and stores of the example application: effects over libraries that cannot be seen.
- The chaos decorator around the clock, the bisect and broadcast engines, line sinks, key maps, version checks and argument validators: they would only add easy members.
