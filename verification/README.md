# agentwatch, modelled and proved in Dafny

agentwatch watches the session files of coding agents.  A monitor polls a list of sources, folds what
they report into a store of sessions, and sends numbered lifecycle, delta and health events; a WebSocket
server fans the events out and rate-limits its clients.  This project models the parts of it whose
correctness spans several functions or a whole run, and proves what they promise.

Code that changes things step by step is written as classes and loops, each proved against a
specification on values; the properties are then lemmas about the specification, over every input, every
run and every interleaving.  What a specification computes is also told independently of it: what a session,
an update or a file list holds is stated in terms of the records, updates and directories it comes from.

| files | what they model |
|---|---|
| `Session.dfy`, `MonitorSpec.dfy` | sessions, updates and events; one poll as a list of critical sections |
| `Monitor.dfy` | the monitor object on the heap, refining the specification |
| `MonitorInvariants.dfy`, `MonitorReports.dfy`, `MonitorHistory.dfy`, `MonitorEvents.dfy`, `MonitorSweeps.dfy`, `MonitorReplay.dfy`, `MonitorQuiescence.dfy` | invariants, lifecycles, numbering; repeated reports of a session's end; what a session holds, told by its updates; what events say; whom the sweeps end and remove; snapshot and delta replay; quiescence and health |
| `RateLimit.dfy` | the token bucket with its idle sweep |
| `Reader.dfy` | tailing a growing file, and the entry visitor |
| `Decimal.dfy`, `Cursors.dfy` | decimal and JSON cursors, clamped deltas |
| `Pi.dfy`, `PiReports.dfy` | the Pi source, and what its updates say of the entries read |
| `Claude.dfy`, `ClaudeCompletion.dfy`, `ClaudeSource.dfy`, `ClaudeReports.dfy`, `ClaudeSubagents.dfy`, `ClaudeFollow.dfy` | the Claude parser, subagent completion across batches, one parse call, what its updates say of the records read, a session followed through its cursor |
| `Conservation.dfy` | from the bytes of a file to the counts in the store |
| `PathSearch.dfy` | recovering a working directory from a project directory name |
| `FileWatch.dfy`, `FileDates.dfy` | the directory walker and its cache; which files it finds, with which times |
| `Fanout.dfy` | send queues, the broadcaster, and the fan-out protocol |

## How the model is built

A poll is a sequence of small steps, one for each critical section, and a poll seen half-way, or one whose
context was cancelled, is a prefix of it.  What the sources answer, what the clock shows and in which order
Go visits a map are inputs (`SourceScript`, `Clock`, `Orders`, and `Choices` for the Claude parser); every
answer, every reading and every order is covered.  JSON decoding and time parsing are parameters: a decoder
turns a line into a record, and a line that does not decode is one of the records.

The monitor's store holds completion times in cells and subagent lists in arrays.  Everything handed to a
reader or a sink, and every array received from a source, is in the ghost set `exposed`, which the store
stays apart from; `WriteTime` and `WriteSubagent` show that whoever holds such a cell cannot change the
store through it.

A poll looks at its context before each source and before each handle; `Checks` numbers these looks, and which one
finds it cancelled is an input.

Fan-out is proved on a machine whose steps are the critical sections of the broadcaster and of its
connections; joins, disconnects, drains and a stop may come between any two steps of a delivery.  The
classes share its functions on channels, and `DeliveryIsHandleEvent` ties an undisturbed delivery to
the method.

## Results that need a condition

- The rate limiter's idle sweep cannot be observed, and the bound of burst plus refill on admissions holds, if
  and only if the burst is at most twice the limit: `SweepRefinement`, `AdmissionBound`.  For a larger burst two
  bursts one TTL apart are a counterexample.
- A Claude session's compaction count is the number of compaction lines behind its cursor if and only if no committed
  call used up a session-end marker on lines that hold a compaction and no user or assistant turn: the cursor moves past
  them and no update counts them.  `ClaudeConservation` proves it, and `CompactionDropped` is a concrete case.
- A clamped count equals the last total if and only if the total never fell: `AntigravityCount`, `OpenCodeCount`.
  `FallIsCounted` is a concrete file.
- Decoding a project directory name gives the encoded path back if and only if no existing path with the same
  encoding comes earlier in the search order; where the search has too many candidates, if and only if the path has no
  hyphen: `RoundTripIff`.  It has too many if and only if, for some number of first parts, more than 4096 paths that read
  as them lie in directories that exist: `OverflowsIff`.  13 parts never do, 14 parts may: `ThirteenPartsFit`,
  `FourteenPartsOverflow`.  `HyphenReadAsSlash` is a concrete path that is not recovered.
- The walker's cache may hide a file or keep one.  A path is found as often as by a walk that reads every directory if
  and only if it is not there, or its Info call fails now exactly when it failed when its directory was remembered:
  `CacheAgreement`.  `HiddenFileStaysHidden` and `StaleFileStaysListed` are the two kinds of failing input.
- A client that follows snapshot and deltas holds the store if and only if every session a cancelled poll wrote has been
  told about by a completed one since: a cancelled poll keeps what it committed and sends nothing.  `MixedReplay` says so
  for every session, over any mix of completed and cancelled polls; that the client is wrong about the others takes a
  clock that moves, since a session committed again at the same time with the same data is no different.
  `CancelledPollLeavesBehind` is a poll that leaves a client behind.
- Lifecycle events replay to where a session is, and health events to a source's status, until a cancelled poll moves the
  session or changes the status; the first one that does breaks it: `LifecyclePath`, `HealthReplay`.
- A report that a session is over ends it if and only if it is active, and brings it back if it is not.  So as long as
  nothing else updates or ends the session, it is active after an even number of reports if and only if it was before
  them, whatever else happens in the polls: `TerminalUpdatesAlternate`.  A source that reports the end in every poll, as
  OpenCode does for an archived session, has it active after every other poll: `ArchivedSessionFlaps`.

## Where code and documentation differ

- `sources/antigravity/source.go:160-166` returns an advanced cursor along with a parse error so that a bad file is
  not tried again, but `monitor/monitor.go:103-111` discards the cursor of a failed parse.  The model follows the
  code: the file is read again in every poll until it changes.
- `docs/decisions/0004-event-envelope.md:63` has the monitor send a snapshot event after its first poll.
  `monitor/monitor.go:318-341` sends lifecycle, delta and health events only; snapshots come from `Snapshot`.
- `sources/claude/source.go:618-620` handles a search that runs out of candidates.  It never does: a candidate can
  always go on with a hyphen (`CandidatesRemain`), so the loop of `DecodeTryPaths` has no such branch.

## Model

| member | source | states |
|---|---|---|
| MonitorSpec.PollIsItsSteps | monitor/monitor.go:58-344 | a completed poll, sweep after sweep, is the run of one list of critical sections, so every prefix of the list is a moment of the poll |
| Monitor.Monitor.constructor | monitor/monitor.go:28-48 | a new monitor tracks nothing, has sent nothing and has handed out nothing |
| Monitor.Monitor.PollOnce | monitor/monitor.go:58-344 | one poll, for every answer of the sources, clock and cancellation point: it is completed if and only if no check of the context finds it cancelled, and otherwise stops behind the steps before that check; it ends in the state, numbering and sent events of that poll run of the specification and keeps the store apart from everything handed out |
| Monitor.Monitor.PollSources | monitor/monitor.go:65-206 | the source loop goes through all source steps if and only if no check finds the context cancelled, and otherwise through those before that check |
| Monitor.Monitor.PollHandle | monitor/monitor.go:95-190 | one handle: a parse error or an update without session ID commits nothing, anything else commits state and cursor together and collects one delta entry and one lifecycle event |
| Monitor.Monitor.Transitioned | monitor/monitor.go:127-181 | the session after an update and its event, in the four cases discovered or resumed from removal, resumed, ended, updated |
| Monitor.ApplyUpdate | monitor/monitor.go:459-502 | the plain fields of a session after an update; `LastWriter` says what they hold in terms of all updates |
| Monitor.Monitor.Merged | monitor/monitor.go:504-509 | the update merged into a session, its subagents copied into an array of their own |
| Monitor.Monitor.CommitUpdate | monitor/monitor.go:118-190 | store, cursor and removal mark after one committed update, and a clone of the new session that shares nothing with the store |
| Monitor.Monitor.SweepStale | monitor/monitor.go:208-238 | the stale sweep visits every session once; `PollSweeps` says whom it ends |
| Monitor.Monitor.SweepSlugs | monitor/monitor.go:240-289 | the completion sweep collects the slugs of terminal subagents and ends the active sessions that carry one |
| Monitor.Monitor.CompletedSlugsNow | monitor/monitor.go:246-255 | the collected slugs are those of terminal subagents with a slug, of any stored session |
| Monitor.Monitor.SweepRetention | monitor/monitor.go:291-316 | the retention sweep removes exactly the terminal sessions whose retention is over |
| Monitor.Monitor.Record | monitor/monitor.go:413-445 | a source's new health, and an event when its status changed |
| Monitor.Monitor.Deliver | monitor/monitor.go:318-341 | the sink gets all lifecycle events, at most one delta and all health events, numbered on from the last number; without a sink nothing is sent or numbered |
| Monitor.Monitor.Snapshot | monitor/monitor.go:512-522 | deep copies of all tracked sessions, each once, in new cells that neither the store nor any earlier copy uses and that no two of them share |
| Monitor.Monitor.Get | monitor/monitor.go:524-534 | a deep copy of a tracked session in new cells, nothing for any other ID |
| Monitor.Clone | session/state.go:94-107 | the copy has the same value and fresh cells for completion time and subagents |
| Monitor.WriteTime | session/state.go:94-107 | whoever holds a time cell from a snapshot, a delta or a clone may write to it: store and view of the monitor stay what they were |
| Monitor.WriteSubagent | monitor/monitor.go:504-507 | the same for subagent arrays handed out or received from a source |
| MonitorInvariants.RunsKeepInv | monitor/monitor.go:122-316 | over all runs, cancelled polls included: sessions are stored under their own ID, terminal means a completion time is set, and no removed session is stored |
| MonitorInvariants.CursorKeysDiffer | monitor/monitor.go:51-53 | two sessions share a cursor only if source and ID are the same, for source names without a colon |
| MonitorHistory.LastWriter | monitor/monitor.go:118-190 | after every run of polls, in terms of the updates committed since it was last untracked or removed: a session is stored if and only if there are any; both token counts and the estimate flag are those of the last, the token limit is the last positive one, each name the last non-empty one given for that field, the start the last one given or else the handle's, the counts the sums of the deltas, the subagents the last non-empty list, and the time of receipt that of the last |
| MonitorEvents.UpdateEvent | monitor/monitor.go:127-181 | a committed update causes one lifecycle event, whose kind, states, source, time and reason are those of what it did, and one entry of the delta, which is the session as stored |
| MonitorEvents.UpdateEnds | monitor/monitor.go:137-160 | an active session reported as over is terminal from then on, completed when the report says or else now; any other update leaves it active and not completed |
| MonitorEvents.HealthEvent | monitor/monitor.go:405-445 | a health event is sent if and only if the status changed, and says what is recorded |
| MonitorEvents.EmittedInOrder | monitor/monitor.go:318-341 | lifecycle events first, then one delta if a session was updated or removed, then health events, each with its own time |
| MonitorSweeps.PollSweeps | monitor/monitor.go:208-316 | in a completed poll the stale sweep ends exactly the active sessions whose last data is older than a positive threshold, the completion sweep exactly those with the slug of a terminal subagent, and the retention sweep removes and marks exactly the terminal ones completed at least the retention ago |
| MonitorSweeps.StaleIff | monitor/monitor.go:208-238 | after any runs, a completed poll sends a session as stale if and only if it is active and the last update committed to it came longer than a positive threshold before that sweep |
| MonitorSweeps.NeverStale | monitor/monitor.go:208-238 | a session given data at least once per threshold before each stale sweep is never sent as stale |
| MonitorInvariants.LifecyclePath | monitor/monitor.go:134-181 | the lifecycle events sent for a session are a path of the documented automaton, with matching from and to states, that ends where store and removal marks say, exactly until a cancelled poll moves the session |
| MonitorReports.TerminalUpdatesAlternate | monitor/monitor.go:137-174 | over any run of polls, completed or cancelled, in which only reports that it is over update a session and neither the stale nor the completion sweep ends it, each report ends it if it is active and makes it active if it is not, so where it stands is decided by whether the reports are even |
| MonitorReports.ArchivedSessionFlaps | sources/opencode/source.go:149-154 | a source that reports the end of its session in every poll has it active after every odd number of polls and not after every even one, for any clock and configuration |
| MonitorInvariants.SeqCounts | monitor/monitor.go:319-341 | events are numbered 1, 2, 3 and so on over every run |
| MonitorInvariants.EmittedLifecycles | monitor/monitor.go:365-377 | what is sent carries the collected lifecycle events, all of them, in order |
| MonitorReplay.ReplayMidPoll | monitor/monitor.go:209-330 | a snapshot taken at any step of a poll, brought up to date with that poll's delta, is the store after the poll |
| MonitorReplay.DeltaReplay | monitor/monitor.go:318-330 | a client that takes a snapshot at any step of any poll and applies everything sent from that poll on holds the store after every later completed poll |
| MonitorReplay.MixedReplay | monitor/monitor.go:66-330 | over any mix of completed and cancelled polls, a client that takes a snapshot at any step and applies everything sent from then on agrees with the store on every session but those written by a cancelled poll and told about by no completed one since; if the clock moves it agrees on no other, and holds the store if and only if there are none |
| MonitorReplay.CancelledPollIsSilent | monitor/monitor.go:66-68 | a cancelled poll sends nothing; the store afterwards is the one its clients hold if the poll wrote no session and, if the clock moves, only then |
| MonitorReplay.CancelledPollLeavesBehind | monitor/monitor.go:91-93 | a first poll whose context is found cancelled after one commit leaves that session in the store, nothing sent, and clients without it |
| MonitorQuiescence.Quiescence | monitor/monitor.go:208-316 | after a completed poll, all at once: no active session is past the stale threshold, none carries the slug of a terminal subagent of a stored session, no terminal one is past retention |
| MonitorQuiescence.RepeatedPollIsSilent | monitor/monitor.go:113-116 | a second poll at the same time with nothing new changes no session, cursor or removal mark and sends no lifecycle or delta event |
| MonitorQuiescence.HealthFollows | monitor/health.go:41-55 | over every run a source's counters and last error are those of its failures since its last fully clean poll; it is degraded from the threshold on and failed from twice the threshold on |
| MonitorQuiescence.HealthReplay | monitor/monitor.go:413-445 | replaying a source's health events from healthy gives its current status, and no event repeats the status before it, exactly until a cancelled poll changes the status |
| RateLimit.NewClientRateLimiter | transport/wsapi/ratelimit.go:36-50 | a limiter exists exactly for a positive limit, window and burst |
| RateLimit.AdmitOn | transport/wsapi/ratelimit.go:52-55 | no limiter admits everything; a limiter answers as the specification |
| RateLimit.ClientRateLimiter.Admit | transport/wsapi/ratelimit.go:52-96 | one request sweeps, refills, takes a token or denies with a delay, and stores the bucket |
| RateLimit.ClientRateLimiter.SweepIdle | transport/wsapi/ratelimit.go:98-111 | the sweep forgets exactly the buckets idle for the TTL, at most once per TTL |
| RateLimit.RefillAdds | transport/wsapi/ratelimit.go:73-77 | refilling in two steps is refilling once |
| RateLimit.SweepRefinement | transport/wsapi/ratelimit.go:98-111 | the limiter answers every sequence of requests of any clients like one that never forgets, if and only if burst is at most twice the limit |
| RateLimit.AdmissionBound | transport/wsapi/ratelimit.go:64-85 | no client is admitted more than burst plus refill times in any interval of any run, if and only if burst is at most twice the limit |
| RateLimit.RetryAfterExact | transport/wsapi/ratelimit.go:90-95 | after a denial every request before the announced time is denied and keeps that time, and the first one at or after it is admitted, whatever other clients do |
| RateLimit.WaitWithinWindow | transport/wsapi/ratelimit.go:90-95 | a retry delay is positive and at most one window |
| Reader.ReadLines | internal/jsonl/reader.go:67-119 | the loop returns all complete lines after the offset and the offset behind them, or fails on a file or line over its cap |
| Reader.ReadFailsIff | internal/jsonl/reader.go:67-112 | a read fails exactly for a file over its cap or a complete line over its cap, 100 MiB and 1 MiB where no other is given |
| Reader.ReadIsExact | internal/jsonl/reader.go:52-66 | the lines rejoined are the bytes between the two offsets, no line holds a newline, and neither do the bytes left unread |
| Reader.LinesAreUnique | internal/jsonl/reader.go:101-115 | only one list of lines can be read from given bytes |
| Reader.TailIsOneRead | internal/jsonl/reader.go:58-61 | reading a growing file in any number of steps gives the lines and the offset of one read, and fails exactly when that read fails |
| Reader.ReadAtBoundary | internal/jsonl/reader.go:101-118 | a read from the end of a line ends at the end of a line and adds its lines to those before |
| Reader.ForEachEntry | jsonl/parse.go:116-193 | the loop visits the entries of the complete lines in order, skips oversized and undecodable ones, and stops behind the entry the visitor refuses |
| Reader.VisitsAll | jsonl/parse.go:138-192 | a visitor that never stops visits exactly the entries of the complete lines that are not oversized and that decode, in order |
| Reader.VisitStops | jsonl/parse.go:181-188 | a visit goes on after every entry but the last, and ends early only when the visitor refuses the last |
| Reader.VisitResumes | jsonl/parse.go:138-192 | a visit stopped at any entry and resumed from its offset visits, together, what one pass visits |
| Decimal.ParseOfFormat | sources/pi/source.go:135-158 | reading a printed 64-bit integer gives it back, negative ones included |
| Decimal.ParseIntIff | sources/pi/source.go:135-141 | a string reads as a number if and only if it is a fitting sign, any zeros and the digits of the number, and the number fits 64 bits |
| Cursors.AntigravityRoundTrip | sources/antigravity/source.go:190-217 | decoding an encoded cursor gives it back, for all integers |
| Cursors.AntigravityInjective | sources/antigravity/source.go:190-192 | different cursors are encoded differently |
| Cursors.OpenCodeRoundTrip | sources/opencode/parser.go:22-43 | decoding an encoded cursor gives it back, for all integers |
| Cursors.OpenCodeInjective | sources/opencode/parser.go:22-24 | different cursors are encoded differently |
| Cursors.ClaudeRoundTrip | sources/claude/source.go:482-514 | decoding an encoded cursor gives offset and parent map back, in either format |
| Cursors.ClaudeInjective | sources/claude/source.go:482-494 | different cursors are encoded differently, across the two formats |
| Cursors.DeltasTelescope | sources/antigravity/source.go:168-179 | clamped deltas add up to the last total plus everything the total ever fell by |
| Cursors.AntigravityCount | sources/antigravity/source.go:137-186 | over any rewrites of its file the counts of a session are the last totals read plus all decreases, exact if and only if no total read ever fell |
| Cursors.OpenCodeCount | sources/opencode/parser.go:198-206 | the same for the counts of an OpenCode session, polls that do not find it included |
| Cursors.FallIsCounted | sources/antigravity/source.go:168-179 | a file rewritten from 5 messages to 3 leaves the session counting 5 |
| Pi.Accumulator.ParseLine | sources/pi/parser.go:92-134 | one line changes the accumulator as its record says, nothing for a malformed one |
| Pi.Accumulator.ParseMessage | sources/pi/parser.go:136-169 | what each message role counts and sets |
| Pi.Parse | sources/pi/source.go:131-160 | one call: an unreadable cursor or file is an error, the update names the session when there were lines, the next cursor is the offset behind them |
| PiReports.ParsesIff | sources/pi/source.go:133-158 | a call fails exactly when its cursor is not an integer or the file cannot be read from there, and the next cursor is the offset behind the lines |
| PiReports.UpdateTells | sources/pi/parser.go:62-169 | names, activity, tool, tokens and times of an update are the last the entries give, the start the first, and it never reports an end |
| Pi.DeltasCount | sources/pi/parser.go:136-168 | the deltas of a batch are its user and assistant messages and its tool results and shell runs |
| Pi.MergeIgnoresBatching | sources/pi/parser.go:62-90 | names and counts of a session come out the same however its lines fall into any number of reads |
| Claude.ParseLinesWithParents | sources/claude/parser.go:124-228 | the loop over a batch, for every choice map iteration can make, is the fold of its records from the known parents |
| Claude.ParseResult.ParseRecord | sources/claude/parser.go:147-224 | what each kind of record does to the batch |
| Claude.ParseResult.ParseProgressRecord | sources/claude/parser.go:230-308 | when a progress record is ignored, starts a subagent or updates one |
| Claude.ParseSubagentAssistantMessage | sources/claude/parser.go:310-338 | model, usage and tool calls a subagent's message adds |
| Claude.ParseResult.CheckSubagentCompletion | sources/claude/parser.go:340-386 | tool results complete the subagents of their parents, known from this batch or from earlier ones, this batch taking precedence |
| Claude.LinkParents | sources/claude/parser.go:415-431 | every parent a subagent names is linked to one of the subagents that name it |
| ClaudeCompletion.CompletionIsFinished | sources/claude/parser.go:344-386 | for agent progress with parents and subagents paired one to one: however the records fall into reads, the subagents some read completes are exactly those whose tool use returned after they had reported |
| ClaudeCompletion.CompletionIgnoresBatching | sources/claude/source.go:259-274 | two ways to split the same records, one of which may be the whole file at once, complete the same subagents |
| ClaudeFollow.FollowedCompletions | sources/claude/source.go:223-323 | the same end to end: calls on a growing file, any of which may fail, parents handed on through the cursor, cursors kept only for updates that name a session |
| ClaudeSource.Source.Parse | sources/claude/source.go:214-323 | one call: corrupt cursors start over, cursor and parent map advance together, a batch without data names no session unless a marker ends it, and the marker is used up |
| ClaudeReports.ParsesIff | sources/claude/source.go:223-250 | a call fails exactly when the file cannot be read from its cursor, and keeps the cursor where there is nothing to report |
| ClaudeReports.UpdateTells | sources/claude/source.go:286-312 | names, activity, tool, tokens and times of an update are the last its records give, slug and start the first; without a turn it reports nothing but an end |
| ClaudeReports.MarkerEnds | sources/claude/source.go:237-320 | a call that succeeds uses up the marker waiting for the session it reports on, and no other, and its update then names that session as over, with the reason and the time of the marker, whatever lines were read; without a marker it reports no end |
| ClaudeReports.MarkerEndsSession | monitor/monitor.go:137-160 | an active session whose committed parse used up a marker is terminal after that step, completed when the marker says or else now, and its event carries the marker's reason |
| ClaudeSubagents.SubagentsTold | sources/claude/parser.go:230-386 | a batch knows a subagent if and only if a progress record or tool result concerns it, and tokens, counts, names, times, activity and completion are what those say |
| ClaudeSubagents.ListedAsTold | sources/claude/parser.go:388-413 | every subagent an update lists is as the lines of the call tell it |
| ClaudeSubagents.ConcernedAreListed | sources/claude/parser.go:388-413 | every subagent the lines of a call concern is listed |
| ClaudeSource.Source.ConsumePendingTerminal | sources/claude/source.go:418-429 | a marker is handed out once |
| ClaudeSource.BuildSubagentStates | sources/claude/parser.go:388-413 | every subagent is listed once, in some order |
| ClaudeSource.BatchCounts | sources/claude/parser.go:182-223 | the deltas of a batch are its user turns, enriched assistant turns, tool uses and compactions; without data it has no messages and no tools |
| Conservation.Conservation | monitor/monitor.go:98-124 | for every schedule of appends and monitor steps: committed deltas, plus what single deltas left out, are the weight of the file up to the stored cursor, and until the session is first removed its count is their sum |
| Conservation.PollIsSchedule | monitor/monitor.go:58-344 | every poll, completed or cancelled, with the file growing between any two of its steps, extends a lawful schedule to a lawful one that ends in the state after the poll |
| Conservation.RunConservation | monitor/monitor.go:58-344 | so the same holds of the store after every run of polls |
| Conservation.PiConservation | sources/pi/source.go:133-160 | for a Pi session, whatever calls fail in between, nothing is left out: messages and tools are counted line by line |
| Conservation.ClaudeConservation | sources/claude/source.go:223-323 | for a Claude session, whatever calls fail in between, messages and tools are exact, and compactions are exact if and only if no committed call used up a marker on compactions without a turn |
| Conservation.CompactionDropped | sources/claude/source.go:276-286 | a concrete file and marker for which a compaction is behind the cursor and in no delta |
| Conservation.MonitorCompletions | monitor/monitor.go:98-124 | the same at the cursor the monitor stores, after every run of polls, completed or cancelled, with the file growing between any two steps |
| PathSearch.ReadsAsIsEncoding | sources/claude/source.go:516-521 | the paths a name may stand for are exactly the absolute paths with that encoding |
| PathSearch.DecodeTryPaths | sources/claude/source.go:549-641 | the loops, caches and the candidate limit compute the first existing candidate, or nothing when some step has too many |
| PathSearch.LevelInOrder | sources/claude/source.go:596-611 | candidates are all different and in order, a slash before a hyphen, so no duplicate is ever dropped |
| PathSearch.LevelIs | sources/claude/source.go:579-611 | the candidates after some parts are exactly the paths that read as them and have an existing path before each hyphen read as a slash |
| PathSearch.CandidatesRemain | sources/claude/source.go:618-620 | the search never runs out of candidates |
| PathSearch.TryPathsFindsFirst | sources/claude/source.go:549-552 | a path found exists and has the encoding it was given, and where directories of what exists exist and the search does not overflow it is the first existing path with that encoding |
| PathSearch.ThirteenPartsFit | sources/claude/source.go:88-89 | up to 13 parts the limit of 4096 candidates is never exceeded |
| PathSearch.OverflowsIff | sources/claude/source.go:613-615 | the search gives up exactly when, for some number of first parts, more than 4096 paths read as them and lie in directories that exist |
| PathSearch.FourteenPartsOverflow | sources/claude/source.go:613-615 | with 14 parts or more, where every reading of up to 13 first parts exists, nothing is found |
| PathSearch.DecodeProjectPath | sources/claude/source.go:529-547 | percent-decoding, the search, and the fallback to slashes |
| PathSearch.UnescapeIff | sources/claude/source.go:530-533 | percent-decoding finds the string a name stands for, and fails only if it stands for none |
| PathSearch.RoundTripIff | sources/claude/source.go:516-547 | when decoding the encoding of a path gives it back, for existing and for missing paths, and for searches that give up |
| PathSearch.HyphenReadAsSlash | sources/claude/source.go:516-547 | where /a/b and /a-b both exist, the encoding of the second does not decode to it |
| PathSearch.RoundTrip | sources/claude/source.go:523-528 | an existing path of at most 13 parts that is the only one with its encoding is recovered |
| FileWatch.Walker.Discover | internal/filewatch/filewatch.go:97-115 | one call over all roots: files found and cache afterwards, failed and cancelled calls included |
| FileWatch.Walker.WalkRoot | internal/filewatch/filewatch.go:117-134 | missing roots and files are skipped, other errors end the call |
| FileWatch.Walker.WalkDir | internal/filewatch/filewatch.go:136-236 | one directory, from its snapshot when its time has not changed, read and remembered otherwise, stopped where the context is found cancelled; terminates by the depth of the tree |
| FileWatch.CacheAgreement | internal/filewatch/filewatch.go:151-171 | after any sequence of tree changes and of calls that fail, Info included, or are cancelled at any entry, a call fails only where a walk that reads every directory fails, and otherwise finds a path as often as that walk if and only if it is not there or its Info call fails now exactly when it did when its directory was remembered |
| FileWatch.CacheIsUnobservable | internal/filewatch/filewatch.go:61-63 | where nothing fails now, the result is the multiset of paths a walker with an empty cache finds if and only if no path there is hidden by an earlier Info failure |
| FileWatch.HiddenFileStaysHidden | internal/filewatch/filewatch.go:224-227 | a concrete directory where a file skipped for a failing Info call stays missing from a later call that a fresh walk finds it in |
| FileWatch.StaleFileStaysListed | internal/filewatch/filewatch.go:151-171 | a remembered file whose Info call fails now is still found, where a fresh walk skips it |
| FileDates.EntriesAreDated | internal/filewatch/filewatch.go:224-248 | after any calls, every entry found has the modification time its path had in the call that last read its directory |
| FileDates.FreshEntriesAreDated | internal/filewatch/filewatch.go:224-248 | with an empty cache that is the time it has now |
| FileDates.FoundIsReached | internal/filewatch/filewatch.go:97-236 | after any calls, a call that a fresh walk would finish finds exactly the matching files reachable from its roots, but for the hidden ones |
| Fanout.Conn.TrySend | transport/wsapi/conn.go:30-47 | a message is queued if and only if the connection is open and its buffer has room |
| Fanout.Conn.Close | transport/wsapi/conn.go:49-58 | closing is final and leaves the queue alone |
| Fanout.Broadcaster.AddConn | transport/wsapi/broadcaster.go:58-69 | a connection is registered unless a positive limit is reached |
| Fanout.Broadcaster.RemoveConn | transport/wsapi/broadcaster.go:71-79 | a registered connection is deregistered and closed, any other left alone |
| Fanout.Broadcaster.HandleEvent | transport/wsapi/broadcaster.go:31-56 | every registered client with room gets the event, every other one is closed and deregistered |
| Fanout.Broadcaster.Stop | transport/wsapi/broadcaster.go:89-102 | all clients are deregistered and closed |
| Fanout.RunsAreLawful | transport/wsapi/broadcaster.go:34-102 | whatever is interleaved: each client has accepted a contiguous, ordered run of events from its join on, all of them if it is registered between deliveries; registered connections are open and within a positive limit |
| Fanout.JoinRegisters | transport/wsapi/broadcaster.go:58-69 | who joins below the limit is registered with an empty queue and not being evicted |
| Fanout.EvictingMeansFull | transport/wsapi/broadcaster.go:46-53 | a client is picked for eviction only by a send that finds it closed or its queue full |
| Fanout.LeavesOnlySo | transport/wsapi/broadcaster.go:46-102 | a client is deregistered only by its disconnect, by a stop or by an eviction |
| Fanout.WhoKeepsUpStays | transport/wsapi/broadcaster.go:34-56 | a client that is never full when it is sent to, and neither disconnected nor stopped, stays registered whatever is interleaved, and between deliveries has accepted every event since it joined |
| Fanout.NothingAfterClose | transport/wsapi/conn.go:33-58 | nothing is ever queued on a closed connection |
| Fanout.DeliveryIsHandleEvent | transport/wsapi/broadcaster.go:41-53 | the steps of a delivery with nothing in between do to every client what the method promises |

## Left out

- JSON decoding, RFC 3339 times and glob matching: library code; decoders, times and matching names are parameters.
- Cursors.ClaudeRoundTrip: takes from the JSON library that it prints a cursor as an object and reads its own output back (`Lawful`), and so do the results that rest on it.
- Concurrency of `PollOnce` and of `HandleEvent` with itself, and the order of a joining client's snapshot relative to deltas: the code promises none of it.
- Monitor.Monitor.PollOnce: sources are functions of the cursor during one call, health records are values in a map instead of records behind pointers, and what a sink does with an event is not modelled; context utilization and the text of sanitized errors are left out.
- Monitor.Monitor.constructor: options, and the error when no source is given, are left out.
- Monitor.Monitor.Deliver: the delta carries its sessions as values; that their cells are apart from the store is in the contract of `PollOnce` through `exposed`.
- RateLimit.AdmissionBound: tokens are reals, so rounding of the source's floating-point arithmetic and saturation of durations are not captured.
- Integer widths: counters are unbounded; only cursors are held to 64 bits.
- Reader.ReadLines: the file does not change during one read, and errors of the operating system are left out.
- Reader.ForEachEntry: the visitor is a function of the entries visited so far.
- Pi.MergeIgnoresBatching: not stated for token counts and start times, which the source lets every batch overwrite.
- ClaudeSource.Source.Parse: how session-end markers are found, validated and deleted is not part of this model; the markers waiting at a call are an input.
- Claude.ParseResult: subagents are values in a map instead of records behind pointers that only that map holds.
- ClaudeCompletion.CompletionIsFinished: speaks of the parser's completion mark; the activity it exports may change again after completion. For progress that is not agent progress, and for parents shared between subagents, the source does not aim at the same result for every split.
- Conservation.Conservation: the session has one source, and no other session has the same cursor key; keys join source and ID with a colon and are not unique for names that contain one.
- Cursors.AntigravityCount: the other fields of its updates are left out, as are those of OpenCode.
- PathSearch.RoundTrip: paths are given in cleaned form; `filepath.Clean` is not modelled, and the file system does not change during a search.
- FileWatch.Walker.Discover: age limits and symbolic links are left out, and the cache tracks neither; a context cancelled at a path that is reached through two roots is found cancelled the first time.
- Fanout.RunsAreLawful: wire writes, heartbeats and the marshalling of events are left out; a failed write or heartbeat is a disconnect.
- The Codex and Cursor parsers, policies, the event bus, the mock source and HTTP routing: they would add only easy members.
