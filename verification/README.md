# The order protocol, its frames and its rings: a verified model

A market-making engine in C++ and its client in Python talk over one WebSocket per session. The
client quotes one bid and one ask around each book it is sent; the engine keeps the orders, sweeps
them against every book and reports back; market data is conflated to one pending tick while reports
are queued and never dropped. Both sides read the same JSON frames with two different scanners, and
the engine exports its telemetry through a lock-free ring.

This project models that protocol and proves what it is for. Code that updates state is modelled as
classes and methods over the same state, each method proved to compute a pure specification function;
the properties are then proved of those functions over every run, and the classes carry them as their
invariants (`Valid` of the strategy and its driver, `Whole` of a session and of the server).

## How it is laid out

| file | what it holds |
|---|---|
| `text.dfy`, `arith.dfy`, `protocol.dfy` | strings and decimals, arithmetic facts, messages and order validation |
| `engine_spec.dfy`, `engine.dfy`, `engine_runs.dfy` | the order engine as one map; the same with indexes, counters and failing allocations; its whole runs |
| `engine_answers.dfy` | which orders it accepts, fills and pulls, in the fields of order, instrument and book |
| `strategy_spec.dfy`, `strategy.dfy` | the client's quoting decisions and session driver, as functions and as classes |
| `quoting.dfy`, `driver_answers.dfy` | what the client sends and when it closes, in the fields of book, order and configuration |
| `session_spec.dfy`, `session.dfy`, `session_runs.dfy`, `session_effects.dfy` | outbox, write path and close machine, as functions and as classes; every run of a session |
| `close_reasons.dfy`, `session_answers.dfy` | why a session closes and under which code; what it answers, and what it still sends once closing |
| `server_spec.dfy`, `server.dfy`, `server_runs.dfy` | many sessions over one engine, and why each is still a run of one |
| `flow.dfy`, `client_flow.dfy`, `engine_flow.dfy`, `composed.dfy`, `sweep.dfy` | the invariant that spans client map, both channels, outbox and engine; the composed system; why the stale sweep works |
| `ticks.dfy`, `in_step.dfy` | the book a tick carries, from the feed to every session's wire, and from there to the client |
| `json_grammar.dfy`, `json_lexer.dfy`, `json_scan.dfy` | the grammar of RFC 8259 sections 2 to 7 as syntax trees; a recursive-descent reading of it, sound and complete |
| `frame_scanner.dfy`, `utf8.dfy`, `preflight.dfy` | the engine's iterative scanner with its 64-bit mask; RFC 3629; the whole preflight |
| `py_scan.dfy`, `int_domains.dfy` | the client's recursive-descent scan and one-regex fast path; its integer domain check |
| `encoder.dfy`, `wire_reader.dfy` | the hand-written printer; the client's decoding by member name, and that it reads back what was printed |
| `ring.dfy`, `recorder.dfy` | the telemetry ring and its drain, step by step; the benchmark correlation table |

`dafny verify dfyconfig.toml` checks all of it. Bytes are `char`s below 256; `seq`, `epoch` and
`md_seq` are unbounded, since the repository declares their wrap-around out of scope.

## The main results

- **The composed protocol.** Over any interleaving of ticks, conflation, fills, amends, rejects, other
  sessions' doings, lost connections and the stale sweep, the engine never answers the client with
  MAX_LIVE_ORDERS, DUP_CLORDID, UNKNOWN_CLORDID or STALE_EPOCH and never sees a gap
  (`Composed.EngineNeverComplains`); everything live at the engine is in the client's map, which never
  exceeds four entries (`Composed.NothingLiveUnknown`); with nothing in flight the two agree exactly
  (`Composed.AgreeAtRest`), the client's market is the engine's book (`InStep.SameBookAtRest`) and what it
  has resting is at the touch (`InStep.TouchAtRest`); and once a connected client has swept a stale feed and its cancels have been
  taken, the engine holds nothing live for it (`StaleSweep.SweepPullsEverything`).
- **The client.** On every fresh uncrossed book each side ends up with an order in flight or resting at its
  touch, unless that price was refused it (`Quoting.TwoSided`); exactly what is sent, and that nothing else
  ever sends an order, is `Quoting.FreshBookQuotes`, `Quoting.AckRequotes` and `Quoting.NothingElseQuotes`.
- **The engine.** The indexed, counted, allocation-failing engine computes what a plain scan of the order
  map would, or changes nothing. It accepts an order exactly when nine conditions hold and refuses it for
  the first that fails (`EngineAnswers.AcceptedExactlyWhen`); a book fills exactly the marketable orders,
  for the smaller of leaves and displayed size (`EngineAnswers.BookFills`). Over whole runs each order has
  one life, ids have no gaps, and a session cannot tell whether others exist.
- **The session and the server.** The wire stream is gapless and loses no report; a draining close waits
  for the last report, and gets out after no more writes than reports were queued; a session is closed
  once and never stranded. While open it is within its mark and its cap, and every close and every end has
  its cause and its code (`CloseReasons.ClosedFor`, `CloseReasons.PolicyCloseHasCause`). Every session of a
  server run is a run of the one-session machine, and every tick any of them is sent is the feed's own book
  (`ServerTicks.EveryTickIsTheFeeds`).
- **The frames.** The mask-stack scanner, the recursive-descent scan and the regex fast path accept
  exactly the frames of a declarative grammar, with exactly the parse tree's member spans; and whatever
  message the engine prints, the client decodes it by name to that very message exactly when its integers
  fit and its strings are within the identifier policy (`WireReader.DecodedExactlyWhenFits`).
- **The ring.** Under every interleaving with stale but monotone index views nothing is torn, lost or
  reordered, and the drain ends against a producer that never stops.

Documentation and code agree on everything modelled here, with one refinement: the benchmark recorder
uses a stamp of zero to mean "not yet written", so "first hand-off only" holds for a book exactly when its
stamp is not zero (`Recorder.BenchRecorder.MdWritten` states both cases).

## Model

| member | source | states |
|---|---|---|
| Composed.EngineNeverComplains | python/mmclient/strategy.py:355-445 | at every moment of every composed run no reject pushed to the client carries MAX_LIVE_ORDERS, DUP_CLORDID, UNKNOWN_CLORDID or STALE_EPOCH, the next command on the wire has the seq and epoch an open session expects, and a closing session closes 1008 or 1001, never 1002 |
| Composed.ClientNeverLosesCount | python/mmclient/_session.py:173-258 | the client never stops for a seq gap or a decreasing md_seq: on its own instrument the only close it latches is the stale feed's, and until it stops its inbound count is the number of messages read |
| Composed.NothingLiveUnknown | python/mmclient/strategy.py:266-322 | while the session is open and the client quoting, every live order of the session is in the client's map; the map has at most four entries, per side one in flight or live and one being cancelled |
| Composed.AgreeAtRest | python/mmclient/strategy.py:266-322 | with both channels and the report queue empty the client's map is exactly the engine's live set, every order LIVE and at the engine's raw price |
| Composed.AlwaysGood | cpp/src/session.cpp:204-269 | the invariant over client map, both channels, outbox and engine map holds at every moment of every composed run |
| InStep.SameBookAtRest | cpp/src/server.cpp:474-495 | in every composed run, with nothing on its way to a quoting client, its bid and ask prices and md_seq are those of the engine's own book, or none if the session has been sent no book |
| InStep.TouchAtRest | python/mmclient/strategy.py:215-239 | and unless that book is locked or crossed, every order the session has live in the engine rests, in raw price, at the touch of its side |
| InStep.AlwaysFollows | python/mmclient/strategy.py:215-264 | at every moment, until it stops, the client's picture of the market is the last tick it read, and the newest tick of an open session is the engine's book |
| StaleSweep.SweepPullsEverything | python/mmclient/strategy.py:173-213 | in every run, when a client still connected has swept, the session is open and every command it sent has been taken, the engine holds no live order of the session |
| StaleSweep.AlwaysWatched | python/mmclient/strategy.py:173-213 | only the sweep stops a connected client on its own instrument, and after it everything alive has its cancel ahead of it |
| OrderFlow.OnePerSide | python/mmclient/strategy.py:393-445 | two orders of one side that are both, or neither, being cancelled are the same order |
| OrderFlow.AtMostFour | python/mmclient/strategy.py:355-391 | the client's map never exceeds four entries |
| OrderFlow.RestingIsMapped | python/mmclient/strategy.py:429-445 | an order resting at the engine is in the client's map |
| OrderFlow.AtRest | python/mmclient/strategy.py:266-322 | with nothing in flight the map and the resting orders agree in ids, states and prices |
| StrategySpec.NoStaleRestingQuote | python/mmclient/strategy.py:215-330 | for any sequence of books, reports, timers and connections: a side's current order is never PENDING_CANCEL, a side holding one bars no price, and if it is LIVE it rests at the freshest accepted book's price unless that book is locked or crossed |
| StrategySpec.BarredRetire | python/mmclient/strategy.py:314-322 | a rejected price is remembered only as its order leaves the map |
| StrategySpec.StaleAloneIs4000 | python/mmclient/_session.py:260-262 | of the reasons for stopping, the stale feed alone closes 4000 |
| Quoting.FreshBookQuotes | python/mmclient/strategy.py:215-239 | on a fresh uncrossed book, bids before asks, each side sends nothing if that price is barred, an order is in flight or one rests there; one post-only order at the touch for the smaller of qty and max_qty, with its own letter, an unused id and the book's md_seq, if it has none; and to move a resting one, its cancel and then that order; nothing else of the side changes |
| Quoting.TwoSided | python/mmclient/strategy.py:355-391 | after such a book a side holds an order in flight or live at its touch, or, if that very price had been refused it, nothing |
| Quoting.AckRequotes | python/mmclient/strategy.py:283-330 | the ack of an order in flight makes it live and runs its side's decision against the freshest book, sending nothing if that is locked or crossed; the other side is untouched |
| Quoting.OtherReportsSendNothing | python/mmclient/strategy.py:283-322 | any other report sends nothing; a cancel ack, a last fill or a reject takes the order off the map and off its side, and a reject of the current order bars its price |
| Quoting.CrossedBookSendsNothing | python/mmclient/strategy.py:374-385 | a locked or crossed book is taken in and sends nothing; bars at other prices are lifted |
| Quoting.NothingElseQuotes | python/mmclient/strategy.py:215-330 | no other input, of any kind and in any reachable state, sends an order |
| Quoting.StopsExactlyWhen | python/mmclient/strategy.py:241-264 | a message stops a running client exactly for a gap, another instrument's book or an older book, each with its reason; a repeated book only refreshes the feed's age |
| Quoting.TimerSweeps | python/mmclient/strategy.py:173-213 | the timer acts exactly when the last book is older than the limit and it has not acted before: it stops, announces the stale feed unless stopped, and cancels exactly the orders not already being cancelled |
| Quoting.RefusedPriceHolds | python/mmclient/strategy.py:370-379 | over any stretch of inputs on a connection that leaves the side's touch at a price refused it, the side sends no order |
| DriverAnswers.FrameTaken | python/mmclient/_session.py:173-197 | a closing driver ignores a frame and an unreadable one closes 1002; any other goes to the strategy, on the epoch of the first, whose sends leave in order under the next seqs on that epoch, and the driver closes 1002 exactly for a gap, another instrument's book or an older one |
| DriverAnswers.SweepSent | python/mmclient/_session.py:208-211 | a feed gone stale closes 4000 unless a close or a stop came first, and cancels for exactly the orders not being cancelled leave under the next seqs |
| StrategyClasses.Strategy.OnConnect | python/mmclient/strategy.py:136-157 | every field is reset for the new epoch |
| StrategyClasses.Strategy.OnDisconnect | python/mmclient/strategy.py:159-171 | quoting stops and every belief about orders and book is dropped |
| StrategyClasses.Strategy.OnTimer | python/mmclient/strategy.py:173-213 | the stale feed stops quoting once and cancels, in arrival order, every order resting or in flight and not already being cancelled |
| StrategyClasses.Strategy.OnTob | python/mmclient/strategy.py:215-239 | an admitted book is installed, then the bid and the ask are quoted at its touch |
| StrategyClasses.Strategy.Admit | python/mmclient/strategy.py:241-264 | the envelope, symbol and md_seq checks in order, each with its own stop |
| StrategyClasses.Strategy.OnReport | python/mmclient/strategy.py:266-322 | stale epochs are ignored, a seq gap stops, and a report for a known order moves it as its kind says |
| StrategyClasses.Strategy.Reconsider | python/mmclient/strategy.py:324-330 | a side's decision is run again against the freshest accepted book |
| StrategyClasses.Strategy.AdvanceSeq | python/mmclient/strategy.py:341-349 | a seq other than the next stops quoting with that gap |
| StrategyClasses.Strategy.Quote | python/mmclient/strategy.py:355-391 | the decision of Quoting.FreshBookQuotes: the reject barrier, the never-cross belt, then place, keep, or cancel and replace |
| StrategyClasses.Strategy.SendNew | python/mmclient/strategy.py:393-421 | the next cl_id of the side becomes its current, PENDING_NEW order |
| StrategyClasses.Strategy.SendCancel | python/mmclient/strategy.py:423-427 | the order becomes PENDING_CANCEL and a cancel for it is sent |
| StrategyClasses.Strategy.Retire | python/mmclient/strategy.py:429-445 | the order leaves the map, and its side if it was the current one |
| StrategyClasses.SessionDriver.OnBytes | python/mmclient/_session.py:173-197 | the first frame's epoch is adopted before the strategy sees it, an undecodable frame latches 1002, and every command is stamped with the next seq and that epoch |
| StrategyClasses.SessionDriver.OnTimer | python/mmclient/_session.py:208-211 | the timer's commands are stamped like any others |
| StrategyClasses.SessionDriver.OnDisconnect | python/mmclient/_session.py:213-214 | the loss reaches the strategy and sends nothing |
| StrategyClasses.SessionDriver.DispatchAll | python/mmclient/_session.py:216-258 | commands leave in order under contiguous seqs on the adopted epoch; a stop latches its close code |
| StrategyClasses.SessionDriver.LatchClose | python/mmclient/_session.py:264-273 | the first close intent is kept |
| Engine.MakeEngine | cpp/src/engine.cpp:167-184 | an engine is made exactly for the instruments and caps the constructor does not refuse |
| Engine.OrderEngine.OnNew | cpp/src/engine.cpp:186-299 | for every choice of failing allocations the call changes nothing, or gives the report and state of the plain-map engine, which are those of EngineAnswers.AcceptedExactlyWhen, indexes and counters agreeing; it completes if no allocation fails |
| Engine.OrderEngine.OnCancel | cpp/src/engine.cpp:301-329 | likewise for a cancel |
| Engine.OrderEngine.OnBook | cpp/src/engine.cpp:331-409 | likewise for the staged sweep: the fills of a scan of the whole map, which are those of EngineAnswers.BookFills, bids before asks, in key order |
| Engine.OrderEngine.EndSession | cpp/src/engine.cpp:434-474 | likewise for the reap: acks for the live orders in key order, and no entry of the session left |
| Engine.OrderEngine.LiveCount | cpp/src/engine.cpp:411-423 | the count off the indexes is the number of live orders in the map |
| Engine.OrderEngine.EntryCount | cpp/src/engine.cpp:425-428 | the counter is the number of the session's entries, tombstones included |
| Engine.OrderEngine.EntryCapBreached | cpp/src/engine.cpp:430-432 | breached exactly when the session's entries reach the cap |
| Engine.SessionRange | cpp/include/mm/engine.hpp:308-314 | the walk from the session's floor finds exactly the session's stretch of an ordered container |
| Engine.IndexWalkIsMapScan | cpp/src/engine.cpp:342-396 | walking a live index meets the crossed orders a scan of the whole map meets, in the same order |
| Engine.LiveOfIsBothSides | cpp/src/engine.cpp:411-423 | a session's live orders are counted once each by the two indexes |
| Engine.JoinSides | cpp/src/engine.cpp:364-405 | bids then asks, numbered on from one another, are the plain scan's fill list |
| EngineRuns.InvAlways | cpp/include/mm/engine.hpp:9-109 | in every reachable state live orders have leaves above zero and no session has more than max_live_orders of them |
| EngineRuns.OneLifePerOrder | cpp/src/engine.cpp:186-407 | over every run each (session, cl_id) gets at most one ack and one terminal event, no fill after it, every fill at the raw price sent, and accepted quantity is always fills plus leaves |
| EngineRuns.IdsNeverGap | cpp/src/engine.cpp:280-405 | acks carry 1, 2, 3, ... and fills carry 1, 2, 3, ..., with no gap |
| EngineRuns.SessionsDoNotInterfere | cpp/include/mm/engine.hpp:16-56 | what a session receives equals what it would receive with all other sessions' commands and closes deleted, up to the two global counters |
| EngineAnswers.AcceptedExactlyWhen | cpp/src/engine.cpp:186-299 | an order is acked exactly when its id is unused, symbol and side known, px and qty multiples of tick and lot, qty and px in range, a live slot free and, if post-only, no cross in the fields of the book; it then rests under the next engine id, on its side, at its price, for its quantity; otherwise the code is that of the first condition failed, and only a reused id leaves no mark |
| EngineAnswers.BookFills | cpp/src/engine.cpp:331-409 | a book no newer is counted and ignored; under any other a live bid is filled, once, at its price, exactly when ask_qty > 0 and 0 < ask_px <= its price, for the smaller of leaves and ask_qty, asks mirrored; every other order is unchanged; bids before asks in key order, exec ids numbered on |
| EngineAnswers.FillAsSeen | cpp/src/engine.cpp:342-405 | over every run: a newer book fills an order exactly when the session has seen it resting and it is marketable at the price asked for, for the smaller of what the session saw left and the displayed size |
| EngineAnswers.CancelAsSeen | cpp/src/engine.cpp:301-329 | over every run the answer to a cancel is settled by what the session has seen: a resting order is pulled under its engine id, one never sent is unknown, any other already terminal, and nothing else changes |
| EngineAnswers.EndAsSeen | cpp/src/engine.cpp:434-474 | over every run the end of a session acks exactly the orders it has seen resting, in id order, and leaves none of its entries and all of the others' |
| Protocol.TickRoundTrip | cpp/include/mm/types.hpp:127-149 | a validated price survives conversion to ticks and back, whatever its sign |
| SessionRuns.WireStream | cpp/src/session.cpp:368-439 | in any run seq is 1, 2, 3, ...; reports leave in push order with none missing; ticks have increasing md_seq and pushed ticks are those written, conflated, discarded at close and pending; acks carry the service times in order |
| SessionRuns.PolicyCloseComesLast | cpp/src/session_close.cpp:37-91 | a close frame is the last thing sent and carries the latched code; a 1008 or 1001 frame goes out after every report pushed |
| SessionRuns.ClosedOnce | cpp/src/session_close.cpp:20-140 | the first latched code is kept and recorded, the epoch is retired exactly once, at close intent or teardown, and session_closed runs exactly once |
| SessionRuns.NeverStranded | cpp/src/session.cpp:77-174 | at most one write is outstanding, nothing waits behind an idle socket, and a session not torn down has a read, close or drain completion to come |
| SessionRuns.CloseGetsOut | cpp/src/session.cpp:368-463 | while a latched close still owes its frame a write is outstanding, and at most as many writes succeed as reports were queued when it was latched: the next success lets the frame out |
| SessionRuns.NeverTakenBack | cpp/src/session_close.cpp:20-45 | no event undoes a latched close, a teardown or anything sent |
| CloseReasons.OpenWithinLimits | cpp/include/mm/outbox.hpp:96-113 | in every run a session neither closing nor torn down has at most hwm reports queued and fewer entries than its cap, and had at every push |
| CloseReasons.PolicyCloseHasCause | cpp/src/session.cpp:319-344 | a session closing 1008 was asked to by a close request, or at some push had more than hwm reports queued or its entries at the cap |
| CloseReasons.ClosedFor | cpp/src/session.cpp:78-174 | what one event makes of an open session: it ends exactly when a read ends or a write fails, recording the peer's code or 1000, 1001, 1007, 1002 or 1006 by the way it did; it closes under the code requested, 1009 for an oversize message, 1002 for a binary frame or a gap, and else only 1008 past a limit or 1011 when the codec came back empty |
| SessionAnswers.FrameAnswered | cpp/src/session.cpp:176-269 | a gap pushes nothing; any other frame pushes exactly one report: MSG_TOO_LARGE, the decoder's code, STALE_EPOCH with the engine untouched, or the engine's own answer with its state and, for an ack, its service time |
| SessionAnswers.ClosingIsFinal | cpp/src/session.cpp:361-439 | from the moment a close is latched no report is pushed and no tick goes out; under any code but 1008 and 1001 nothing does but the close frame |
| SessionAnswers.OverWhenFinished | cpp/src/session_close.cpp:47-140 | a closing session is over exactly when a read ends, a write or the close handshake fails or the drain ends, under the code it latched |
| SessionTicks.TicksAreBooks | cpp/src/server.cpp:474-479 | in every run each tick on the wire under md_seq n carries the instrument's symbol and the four values of the one book published under n |
| SessionTicks.AlwaysUpToDate | cpp/src/session.cpp:361-366 | the newest tick of an open session, pending or written, is the engine's book field by field, from its first book on |
| SessionClasses.Outbox.PushReport | cpp/include/mm/outbox.hpp:96-113 | a report joins the queue; past the high-water mark, and there only, the breach is latched (CloseReasons.OpenWithinLimits, CloseReasons.PolicyCloseHasCause) |
| SessionClasses.Outbox.PushTob | cpp/include/mm/outbox.hpp:134-142 | the pending tick is replaced and the replacement counted |
| SessionClasses.Outbox.Pop | cpp/include/mm/outbox.hpp:158-171 | reports first, oldest first, then the pending tick |
| SessionClasses.Outbox.Depth | cpp/include/mm/outbox.hpp:190-190 | queued reports plus the pending tick |
| SessionClasses.Session.LatchClose | cpp/src/session_close.cpp:20-35 | refused when a close is latched or the session over; otherwise code and drain policy are latched and the epoch retired |
| SessionClasses.Session.BeginClose | cpp/src/session_close.cpp:37-45 | 1008 and 1001 drain; everything else closes at once |
| SessionClasses.Session.SendCloseFrame | cpp/src/session_close.cpp:73-91 | one frame, never behind an outstanding write or after teardown |
| SessionClasses.Session.RetireEpoch | cpp/src/session_close.cpp:93-108 | the engine forgets the session, once |
| SessionClasses.Session.Teardown | cpp/src/session_close.cpp:110-140 | once: the epoch is retired if it was not, and the code recorded |
| SessionClasses.Session.Stamp | cpp/src/session.cpp:381-418 | seq, epoch and, for an ack, the oldest waiting service time |
| SessionClasses.Session.Write | cpp/src/session.cpp:375-439 | the stamped message is handed over, or, if it cannot be encoded, the session closes 1011 |
| SessionClasses.Session.Pump | cpp/src/session.cpp:368-439 | at most one write; while closing, ticks are discarded and the close frame follows the last report |
| SessionClasses.Session.OnCloseRequest | cpp/src/server.cpp:302-312 | a close the server asks for, on a session between events, leaves it between events |
| SessionClasses.Session.CheckPolicyCloses | cpp/src/session.cpp:319-344 | a breached mark or a full entry map closes 1008 |
| SessionClasses.Session.EnqueueReport | cpp/src/session.cpp:278-282 | pushed, then the policies checked in the same turn |
| SessionClasses.Session.DeliverReport | cpp/src/session.cpp:346-359 | dropped after teardown, else queued and pumped |
| SessionClasses.Session.DeliverTob | cpp/src/session.cpp:361-366 | dropped while closing, else made the pending tick and pumped |
| SessionClasses.Session.AskEngine | cpp/src/session.cpp:222-269 | the engine's one report is queued; an ack's service time joins the waiting ones |
| SessionClasses.Session.OnCommand | cpp/src/session.cpp:204-221 | a seq gap closes 1002; a stale epoch is rejected and survived |
| SessionClasses.Session.OnMessage | cpp/src/session.cpp:176-202 | oversize and undecodable frames are rejected and survived |
| SessionClasses.Session.OnText | cpp/src/session.cpp:158-174 | a text frame is handled unless closing, and the read re-armed |
| SessionClasses.Session.OnBinary | cpp/src/session.cpp:160-168 | a binary frame closes 1002, and the read is re-armed |
| SessionClasses.Session.OnTooBig | cpp/src/session.cpp:117-138 | closes 1009 and goes on to drain, or ends a session already closing under its own code |
| SessionClasses.Session.OnReadError | cpp/src/session.cpp:78-157 | the code recorded for each way a read can end: the latched one while closing, else the peer's, 1001, 1002, 1007 or 1006 |
| SessionClasses.Session.OnWrite | cpp/src/session.cpp:441-463 | a failed write ends the session under the right code; a finished one pumps again |
| SessionClasses.Session.OnCloseDone | cpp/src/session_close.cpp:47-91 | an oversize close goes on to drain the socket; a failed handshake tears down |
| SessionClasses.Session.OnDrainDone | cpp/src/session_close.cpp:61-71 | the drain re-arms until it ends, and then tears down |
| ServerRuns.EverySessionWhole | cpp/src/server.cpp:452-496 | at every moment of every server run every open session keeps the invariant of the one-session machine, whatever the others do |
| ServerRuns.ActKeepsWhole | cpp/src/server.cpp:452-496 | whatever the server does next, every session open after it keeps that invariant |
| ServerRuns.SeatRun | cpp/src/server.cpp:452-496 | each open session's part in a server run is a run of the one-session machine |
| ServerRuns.NoOrphans | cpp/src/server.cpp:587-596 | every order in the engine belongs to a session still open |
| ServerRuns.GaugeIsWhole | cpp/src/server.cpp:520-531 | the live-orders gauge summed over open sessions counts every live order there is |
| ServerRuns.CountNeverFalls | cpp/src/server.cpp:587-596 | the exported conflation count never falls, in particular not when a session leaves the sum |
| ServerSpec.PublishedTo | cpp/src/server.cpp:452-496 | to each session a published book is what it would be alone with the engine |
| ServerSpec.NeighboursTouchNothing | cpp/include/mm/engine.hpp:16-56 | any number of other sessions' commands and closes leave this session's orders and the book as they were |
| ServerSpec.OwnEventLocal | cpp/src/session.cpp:204-269 | no event of a session changes another session's orders or its epoch |
| ServerTicks.EveryTickIsTheFeeds | cpp/src/server.cpp:452-496 | in every server run every tick written to an open session under md_seq n carries the symbol and the four values of the one quote published under n |
| ServerTicks.EveryoneGetsTheBook | cpp/src/server.cpp:487-495 | once a book is published its tick is pending at, or the last written to, every session not closing |
| ServerClasses.Server.PublishBook | cpp/src/server.cpp:452-496 | one md_seq per book, fills to their owners in sweep order and dropped for sessions gone, then that book's tick (ServerTicks.EveryTickIsTheFeeds) to every session in epoch order |
| ServerClasses.Server.Connect | cpp/src/server_accept.cpp:314-322 | a new session takes the next epoch and joins the map |
| ServerClasses.Server.SessionClosed | cpp/src/server.cpp:587-596 | the session's conflation count is folded into the base as it leaves the map |
| ServerClasses.Server.SettleCounters | cpp/src/server.cpp:520-531 | live orders and conflated ticks summed over the open sessions and the base |
| JsonScan.ScanSound | cpp/src/frame_preflight.cpp:268-388 | whatever is accepted is one object of the grammar within the depth and key caps, and the spans recorded are its tree's |
| JsonScan.ScanComplete | cpp/src/frame_preflight.cpp:268-388 | every such frame is accepted with its own tree's spans |
| JsonScan.ScanIsGrammar | cpp/include/mm/codec.hpp:67-111 | accepted exactly when a reading exists, and there is one reading |
| FrameScanners.FrameScanner.Run | cpp/src/frame_preflight.cpp:268-388 | the iterative scanner with its mask stack accepts and records exactly what the recursive reading does |
| FrameScanners.FrameScanner.ScanNumber | cpp/src/frame_preflight.cpp:118-147 | stops exactly at the end of the grammar's number, or finds none |
| FrameScanners.FrameScanner.ScanHex4 | cpp/src/frame_preflight.cpp:149-164 | the value of four hex digits, or none |
| FrameScanners.FrameScanner.ScanString | cpp/src/frame_preflight.cpp:165-226 | stops exactly past a string with paired surrogate escapes and no raw control byte |
| FrameScanners.FrameScan.Find | cpp/include/mm/codec.hpp:186-197 | the value under a key, empty when absent |
| Utf8.Utf8Valid | cpp/src/frame_preflight.cpp:27-67 | the loop accepts exactly the well-formed sequences of the lead-byte table |
| Utf8.ValidIsEncoding | cpp/src/frame_preflight.cpp:27-67 | those are exactly the encodings of sequences of Unicode scalar values, section 4 of RFC 3629 |
| Utf8.EncodeInjective | cpp/src/frame_preflight.cpp:27-67 | each accepted string decodes in one way |
| Utf8.SanitizedTag | cpp/src/frame_preflight.cpp:432-445 | cut on a sequence boundary, control bytes replaced, the cut marked |
| Utf8.SanitizedPoints | python/mmclient/_preflight.py:121-144 | replacing then cutting gives the same bytes |
| Utf8.SameRendering | python/mmclient/_preflight.py:121-144 | clean-then-cut on code points equals cut-then-clean on bytes |
| Utf8.RenderedWell | cpp/src/frame_preflight.cpp:432-445 | the result is valid UTF-8 of at most 35 bytes without a control byte, whole code points, and uses all but three bytes of the cap |
| Preflight.FramePreflight | cpp/src/frame_preflight.cpp:459-476 | accepts exactly the acceptable frames, with their members |
| Preflight.CheckKeys | cpp/src/frame_preflight.cpp:459-476 | passes exactly literal and pairwise distinct names |
| Preflight.AcceptIsGrammar | cpp/include/mm/codec.hpp:67-111 | acceptable means no byte order mark, the encoding of scalars, one object of the grammar with literal distinct root names, and the members are that object's |
| PyScan.ScanGeneral | python/mmclient/_preflight.py:319-334 | the recursive scan returns the map of the engine's spans, or refuses as the engine does |
| PyScan.MatchComplete | python/mmclient/_preflight.py:287-317 | any text the member regex could match is what the matcher captures |
| PyScan.MatchSound | python/mmclient/_preflight.py:287-317 | and what it captures is a match of the regex |
| PyScan.FlatMembers | python/mmclient/_preflight.py:287-317 | whenever the member loop returns a map, the general scan returns the same one |
| PyScan.Scan | python/mmclient/_preflight.py:287-317 | with the fast path in front, the verdict and map are the general scan's |
| PyScan.CheckAndScan | python/mmclient/_preflight.py:147-164 | within the transport's cap the client accepts the engine's frames with the engine's spans |
| PyScan.Scanner.CheckEscapes | python/mmclient/_preflight.py:166-182 | passes exactly the bodies whose escaped surrogates pair |
| PyScan.Scanner.Token | python/mmclient/_preflight.py:213-225 | the next token of the grammar, or none |
| PyScan.Scanner.Value | python/mmclient/_preflight.py:227-236 | the rest of a value, to the depth cap |
| PyScan.Scanner.Members | python/mmclient/_preflight.py:238-255 | a nested object, read as the reference reads it |
| PyScan.Scanner.RootMembers | python/mmclient/_preflight.py:238-255 | the root object, its spans recorded under the key policy |
| PyScan.MapValue | python/mmclient/_preflight.py:184-193 | the map built holds every member under its name |
| PyScan.Scanner.Record | python/mmclient/_preflight.py:184-193 | refuses an escaped, repeated or thirty-third name |
| IntDomains.CheckSpan | python/mmclient/protocol.py:288-321 | token shape, then length, then conversion at the widest length only |
| IntDomains.DigitCountDecides | python/mmclient/protocol.py:288-321 | for a number of the grammar of any length the check passes exactly when it is an integer of the right signedness with value in the domain |
| IntDomains.WidestDigits | python/mmclient/_rules.py:42-48 | the two widths are the lengths of the domains' ends |
| IntDomains.TokenIsInteger | python/mmclient/_rules.py:88-102 | the token predicates hold exactly of the grammar's integers |
| Encoder.Writer.Encode | cpp/src/codec_nlohmann.cpp:183-251 | the buffer holds exactly the printed message, which the client reads back by name (WireReader.ReadsWhatWasPrinted), at least two bytes |
| Encoder.Writer.AppendEscaped | cpp/src/codec_nlohmann.cpp:113-149 | the escaped text is appended, and nothing else |
| Encoder.PrintThenParse | cpp/src/codec_nlohmann.cpp:113-251 | every message with valid UTF-8 strings prints to a frame the preflight accepts, with exactly the tag and declared members in order, each span reading back to its value |
| WireReader.ReadsWhatWasPrinted | cpp/src/codec_nlohmann.cpp:183-251 | every message with valid UTF-8 strings, printed, accepted and read member by member under the names the client's types declare, is that message, every reject code included; only an order ack carries a service time |
| WireReader.DecodedExactlyWhenFits | python/mmclient/protocol.py:245-354 | the client decodes a printed message, to that message, exactly when its integers are in their 64-bit domains, cl_id and symbol within 64 and 32 bytes and no string holds a control byte |
| ReadBack.EveryMessageReadBack | cpp/src/session.cpp:381-439 | in every run each message a session hands to the transport, its strings UTF-8, is decoded to exactly itself exactly when it fits |
| Ring.MaskIsMod | cpp/include/mm/telemetry_ring.hpp:205-235 | masking with capacity less one is the remainder by it |
| Ring.CheckedCapacity | cpp/include/mm/telemetry_ring.hpp:266-272 | zero and unroundable capacities are refused, others rounded up to a power of two |
| Ring.NothingTorn | cpp/include/mm/telemetry_ring.hpp:205-235 | no slot is written while read, popped records are a prefix of accepted ones in order, and every push offered is accepted or counted dropped |
| Ring.PendingNeverUnder | cpp/include/mm/telemetry_ring.hpp:241-259 | the producer's pending estimate never underflows and never underestimates |
| Ring.DrainIsExact | cpp/include/mm/telemetry.hpp:283-307 | a drain pops exactly the records pending at entry, each emitted in order or counted lost |
| Ring.DrainEnds | cpp/include/mm/telemetry.hpp:283-307 | the drain's own steps use up its budget, the producer's never renew it, and one of its own is always possible |
| Ring.TelemetryRing.TryPush | cpp/include/mm/telemetry_ring.hpp:205-221 | refused and counted exactly when the ring looks full, else published |
| Ring.TelemetryRing.TryPop | cpp/include/mm/telemetry_ring.hpp:223-235 | the oldest record not yet popped |
| Ring.TelemetryRing.Drain | cpp/include/mm/telemetry.hpp:283-307 | one bounded batch: what was pending, each line emitted or counted lost |
| Recorder.MakeRecorder | cpp/include/mm/bench_recorder.hpp:72-83 | a recorder that could hold nothing is refused |
| Recorder.BenchRecorder.Find | cpp/include/mm/bench_recorder.hpp:181-186 | a stamp is correlated exactly while its book is among the last 65,536, and with that book |
| Recorder.BenchRecorder.MdPublished | cpp/include/mm/bench_recorder.hpp:91-96 | a published book owns its slot |
| Recorder.BenchRecorder.MdWritten | cpp/include/mm/bench_recorder.hpp:99-105 | a hand-off is sampled while the book is unstamped, so once per book exactly when its stamp is not zero |
| Recorder.BenchRecorder.OrderFor | cpp/include/mm/bench_recorder.hpp:108-116 | the first echo of a book in the window is sampled, once, against both stamps |
| Recorder.BenchRecorder.Svc | cpp/include/mm/bench_recorder.hpp:118-118 | stored, or counted refused at capacity |
| Recorder.EchoedSamples | cpp/include/mm/bench_recorder.hpp:108-116 | each book offers at most one sample a stream, and total is production plus delivery when all three are there |

## Left out

- SessionClasses.Session.AskEngine: inside a session the engine is called with every allocation succeeding; what a failed allocation leaves behind is stated of the engine itself.
- SessionClasses.Session.OnText: the frame arrives already judged oversize, undecodable or decoded to a command; decoding a command's fields is not part of this model.
- FrameScanners.FrameScanner.Run: the reason text and byte offset of a rejection are not stated, only that it is one.
- Preflight.FramePreflight: likewise, the verdict and the members, not the words of the error.
- PyScan.MatchComplete: the regex engine is modelled by what the expression matches, not by how it backtracks.
- PyScan.CheckAndScan: the interpreter's UTF-8 decoder is taken to accept what section 4 of RFC 3629 admits.
- Utf8.SanitizedPoints: strings decoded by the client are sequences of scalar values.
- Encoder.PrintThenParse: integers and strings are read back by their mathematical meaning and the escapes of section 7 of RFC 8259; the JSON libraries of either side are not part of this model.
- Composed.AlwaysGood: one client on one session, frames whole and in order, the codec never empty (its output is at least two bytes), the server closing of its own accord only 1008 or 1001; other sessions appear as changes to the engine outside this session's orders.
- ServerRuns.SeatRun: a session leaves the map at the event that tears it down, and what still completes for it afterwards is followed by the one-session machine only.
- Ring.TelemetryRing.TryPop: as the drain calls it, within its budget; the calls of the class run without a break, the interleaving being the step machine's.
- Ring.NothingTorn: of the C++ memory model only stale, monotone views of the other side's index.
- Wrap-around of seq, epoch, md_seq and the ring's counters, which the repository puts out of scope.
- Counters of orders, rejects and cancels, reject-event coalescing, depth gauges and the snapshot record format.
- WireReader.DecodedExactlyWhenFits: the verdict and the message, not the words of a refusal; a reject's code is one of the engine's sixteen, where the client would keep any text.
- The client's encoder and its refusals, and the engine's decoding of a command's fields.
- Transport, TCP, the WebSocket handshake and admission, timers and clocks: completions, timer firings and stamps arrive as events and values.
- The shared-memory ring, pricing and native strategy, feed files, benchmark dumps, shutdown sequencing, signals and the command line.
