# herdr-phone in Dafny

herdr-phone is a relay that shows a herdr terminal workspace on a phone. It
filters terminal output on its way to a browser, carries mutations back under
idempotency and confirmation rules, polls the workspace and broadcasts what
changed, and keeps a tunnel process alive. This project models the stateful
cores of that relay and proves what each of them promises, over every byte
stream, every schedule of concurrent handlers and every history of polls.

| part | modules |
|---|---|
| terminal filter | `AnsiParser`, `AnsiFilter`, `AnsiTokens`, `AnsiSafety`, `AnsiLexing`, `AnsiDictionary`, `AnsiBounds` |
| terminal bridge | `TerminalBridge`, `FrameReader`, `FrameIntake` |
| mutation protocol | `Encoding`, `Operations`, `Stores`, `MutationProtocol`, `MutationSafety`, `MutationSteps`, `MutationTheorems`, `MutationPatience`, `MutationOutcomes` |
| rate limiter | `RateLimiter`, `RateTheorems`, `RateGreed` |
| state engine | `Topology`, `Order`, `ContentHash`, `LayoutCopies`, `StateEngine`, `EngineTheorems`, `ContentGate`, `Runs`, `RunContents`, `RunIdentity`, `PollLoop` |
| client queues | `Subscription`, `Delivery` |
| tunnel | `Supervisor`, `Backoff`, `LineWriter` |
| sessions, text bounds | `SessionStore`, `Utf8Bounds`, `Utf8Scalars` |
| shared | `Prelude`, `Bytes`, `Machine` |

An object the relay updates in place is a class here, and each of its methods
is proved equal to a function on values. Concurrent code is a step relation
over those functions: one step per critical section or channel operation, in
any order. The theorems are about the functions and the step relations.

## What the model takes as given

- The clock never goes back in lock order. A critical section of the mutation
  protocol reads it once; `idemStore.reserve` reads it twice, and the store's
  own method keeps the two readings apart. A new session carries a reading taken
  before its creator has the lock.
- A confirmation may be issued long after its generation was checked: the check
  uses any guard map. Leaving the engine's subscriber list and closing the queue
  are two steps, as in the source.
- SHA-256 is injective. Digests of a mutation's parameters and of a topology
  are free constructors; the sixteen-digit incarnation is an injective function
  where a theorem says so.
- Confirmation tokens and session ids are fresh when they are drawn.
- How long a handler may hold its key is a parameter of a run. Confirmations,
  validation, single resolution and replay are proved for every value of it.
  Exclusion is proved, and is true, exactly when no handler may outlive its
  reservation (`ExclusionExactly`). Handlers that reach their dispatch within the
  server's cap and end it within its budget are such handlers (`OnTimeIsPrompt`).
- A poll reports one occupant per pane id. `AgreementExactly` shows that this
  is also necessary.
- Times are integers (nanoseconds), token counts and backoff factors are reals.
  Rounding, and the wrap-around of 64-bit counters, are not modelled.

## Where the code and its comments differ

- The comment on `idemStore.release` (internal/server/stores.go:215-216) says
  it removes this caller's reservation. The code removes whatever pending entry
  the key has. The entry is always the caller's own if and only if no handler
  may outlive its reservation (`OwnershipExactly`).
- An evicted rate-limit bucket is said to be indistinguishable from a fresh one
  (internal/server/stores.go:241-243). That holds if and only if the burst is
  at least one and refills within ten minutes; so does the rate bound itself.
  With a burst below one, the first call for an unknown key is still allowed.
- `AgentIncarnation` is said to change exactly when the generation does
  (internal/state/runs.go:48-51). That is true from one poll to the next, and
  fails both ways over several. An occupant that leaves and comes back has a new
  generation and its old incarnation (`IncarnationCanReturn`); a pane id that
  vanishes and is recycled for another occupant has its old generation and a new
  incarnation (`GenerationCanRestart`). Between any two points it holds if and
  only if, in the reports, the occupants are equal exactly when equally many
  changes lie behind them since the pane last appeared (`IncarnationExactly`);
  while the pane stays, if and only if the occupants differ or no poll between
  showed another (`IncarnationExactlyWhilePresent`). The run id, which combines
  both, is never inherited (`RunIdsNameOneOccupant`).
- `idemKey` separates its parts by NUL (internal/server/stores.go:154-156). Two
  sessions never share a key if and only if neither continues the other after a
  NUL (`IdemKeySeparatesExactly`); session ids hold no NUL.
- The filter's pending buffer stays within `maxSeq` on every stream if and only
  if `maxSeq` is at least two (`PendingWithinCapExactly`): the introducer is
  stored before the cap is applied, so a lone 8-bit CSI leaves two bytes.

## Model

| member | source | states |
|---|---|---|
| `AnsiParser.ChunkInvariance` | internal/security/ansi.go:64-69 | however a stream is cut into fragments, the concatenated outputs and the final state are those of one call on the whole stream |
| `AnsiFilter.Filter.Sanitize` | internal/security/ansi.go:136-348 | the index loop that steps back and re-reads a byte terminates, and from any state gives the output and state of the byte-at-a-time machine, with unset limits replaced by the defaults |
| `AnsiFilter.Filter.ReadByte` | internal/security/ansi.go:144-346 | one turn of the state switch; a byte is re-read only on leaving a non-ground state for ground |
| `AnsiFilter.Filter.ReadGround` | internal/security/ansi.go:147-190 | ground: UTF-8 continuations, 8-bit introducers normalised to 7-bit, ENQ and other C1 bytes dropped |
| `AnsiFilter.Filter.ReadSequence` | internal/security/ansi.go:192-275 | escape, intermediate and CSI states, with cancellation, re-reading and the size cap |
| `AnsiFilter.Filter.ReadString` | internal/security/ansi.go:277-345 | OSC and swallowed-string states, their terminators, cancellation and caps |
| `AnsiFilter.AgainRereads` | internal/security/ansi.go:222-227 | whenever a byte is re-read, nothing has been emitted and reading it in ground is what reading it in place means |
| `AnsiFilter.ReadSelector` | internal/security/ansi.go:407-418 | the digit loop with its early exit returns the exact decimal prefix, or a lower bound of it above a million |
| `AnsiFilter.DecidePayload` | internal/security/ansi.go:407-435 | despite the early exit, a payload is stripped exactly when its unbounded decimal prefix selects a query |
| `AnsiFilter.DecideOsc` | internal/security/ansi.go:395-436 | the same for a whole OSC sequence with its introducer and either terminator |
| `AnsiTokens.TokenRuns` | internal/security/ansi.go:144-346 | every well-formed ECMA-48 token, read from ground, is rendered as specified and leaves the filter back in ground owing the right continuations |
| `AnsiSafety.StreamRendered` | internal/security/ansi.go:71-94 | a stream of well-formed tokens is filtered to the concatenation of their renderings |
| `AnsiSafety.OutputIsSafe` | internal/security/ansi.go:71-94 | for every input the output splits into safe tokens only: no ENQ, no stripped ESC, CSI or OSC, no control string, C1 bytes only as owed continuations |
| `AnsiSafety.SafeTokensPass` | internal/security/ansi.go:147-345 | any concatenation of safe tokens passes unchanged, from ground with any number of continuations owed |
| `AnsiSafety.FixedPoints` | internal/security/ansi.go:147-345 | a stream passes unchanged if and only if it is a concatenation of safe tokens |
| `AnsiSafety.Idempotence` | internal/security/ansi.go:136-348 | filtering twice is filtering once |
| `AnsiSafety.NoAnswerback` | internal/security/ansi.go:147-190 | no stream gets an ENQ through |
| `AnsiLexing.EveryStreamLexes` | internal/security/ansi.go:136-348 | every byte stream is the concatenation of lexical pieces: whole tokens, sequences cut short, and sequences over their limit |
| `AnsiLexing.LexedStreamRendered` | internal/security/ansi.go:136-348 | any such lexing is filtered to the renderings of its whole tokens, the other pieces vanishing |
| `AnsiLexing.FilterIsRenderedLexing` | internal/security/ansi.go:136-348 | for every stream the filter equals lex-then-render, under every positive sequence limit |
| `AnsiLexing.InterruptedRereads` | internal/security/ansi.go:192-345 | a byte that interrupts an unfinished sequence is read as if the sequence had not begun |
| `AnsiDictionary.ControlSequence` | internal/security/ansi.go:357-391 | after any stream that leaves the filter at rest, a CSI in 7-bit or 8-bit form is dropped if and only if its final byte is n, c or t, p with a $, q with a > and no space, x without a $, or y with a *; any other comes out as ESC [ |
| `AnsiDictionary.OperatingCommand` | internal/security/ansi.go:395-436 | an OSC, with any of its three terminators, is dropped if and only if its number, leading zeros aside, is written 0, 1, 2, 8 or 52, or it holds a question mark; any other comes out as ESC ] |
| `AnsiDictionary.EscapeSequence` | internal/security/ansi.go:192-249 | of the plain escape sequences only ESC Z is dropped |
| `AnsiDictionary.ControlString` | internal/security/ansi.go:322-345 | DCS, SOS, PM and APC strings, in both forms and with any terminator, vanish |
| `AnsiDictionary.SingleByte` | internal/security/ansi.go:147-190 | a byte that begins nothing passes unless it is ENQ or lies in 0x80 to 0x9F |
| `AnsiDictionary.Character` | internal/security/ansi.go:119-130 | a lead byte and its one, two or three continuation bytes pass whole, C1 values included |
| `AnsiDictionary.OverlongSequence` | internal/security/ansi.go:272-304 | a CSI or OSC one byte over the limit is gone, and what follows is read afresh |
| `AnsiDictionary.OverlongString` | internal/security/ansi.go:322-335 | so is a control string one byte over its own limit |
| `AnsiDictionary.InterruptedSequence` | internal/security/ansi.go:222-304 | a sequence interrupted by a byte it cannot hold leaves the stream filtered as if it had not begun |
| `AnsiDictionary.BrokenTerminator` | internal/security/ansi.go:306-345 | an ESC in an OSC or control string that no backslash follows ends it and is lost with it |
| `AnsiBounds.ResourceBounds` | internal/security/ansi.go:246-334 | twice the output is at most three times the input; the pending buffer and the scan counter stay within their limits |
| `AnsiBounds.PendingWithinCapExactly` | internal/security/ansi.go:165-177 | the pending buffer stays within the sequence limit on every stream if and only if the limit is at least two; a lone 8-bit CSI is the failing input |
| `AnsiBounds.ResourceBoundTight` | internal/security/ansi.go:165-177 | 8-bit CSI streams of every length meet the output bound with equality |
| `FrameReader.Reader.HandleRecord` | internal/terminal/bridge.go:268-342 | one controller record: the sequence check, the size check, the filter call and what is queued, equal to the function the bridge theorems use |
| `TerminalBridge.StepInv` | internal/terminal/bridge.go:177-464 | every reader, writer and cancellation step keeps: written, queued and unsent bytes together are the filter's output on the frames accepted so far |
| `TerminalBridge.AcceptedIncrease` | internal/terminal/bridge.go:299-320 | the sequence numbers of accepted frames strictly increase |
| `TerminalBridge.DeliveredIsFilteredPrefix` | internal/terminal/bridge.go:299-464 | in every interleaving the binary messages written form a prefix of one fresh filter applied to all accepted bytes |
| `TerminalBridge.DeliveredInFull` | internal/terminal/bridge.go:370-464 | when the controller stream ended the session and no write failed, the prefix is the whole |
| `TerminalBridge.BrowserGetsNoAnswerback` | internal/terminal/bridge.go:299-464 | no ENQ reaches the browser, whatever the interleaving |
| `FrameIntake.AcceptedExactly` | internal/terminal/bridge.go:268-342 | the accepted bytes are, in order, those of every decoded frame before the first record that is a close, repeats or lowers an earlier frame number, or is over the size limit; the intake stops there, for that record's reason |
| `FrameIntake.FrameSends` | internal/terminal/bridge.go:322-342 | an accepted frame is sent as its resize note, if it announces one, and then what its bytes add to the filtered stream |
| `FrameIntake.BrowserReceives` | internal/terminal/bridge.go:299-464 | end to end from the records: in every interleaving a prefix of the filtered bytes of those frames, and all of them when the stream ended the session and no write failed |
| `FrameIntake.EverythingCanArrive` | internal/terminal/bridge.go:177-464 | from every moment of every run before a cancellation or loss, the whole stream can still reach the browser |
| `Operations.TablesAgree` | internal/server/mutations.go:31-92 | the operations that need confirmation are the confirmable ones other than takeover, on the same resource fields |
| `Encoding.IdemKeyInjective` | internal/server/stores.go:154-156 | sessions without NUL and any request ids get distinct keys |
| `Encoding.IdemKeySeparatesExactly` | internal/server/stores.go:154-156 | two sessions share no key, whatever the request ids, if and only if neither continues the other after a NUL |
| `Encoding.IdemKeyNeedsPlainSessions` | internal/server/stores.go:154-156 | with a NUL in a session, two pairs share a key |
| `Encoding.RequestFingerprintInjective` | internal/server/mutations.go:504-508 | equal fingerprints mean equal operation, generation and normalised parameters |
| `Stores.NonceStore.Gc` | internal/server/stores.go:97-104 | keeps exactly the unexpired tokens |
| `Stores.NonceStore.IssueNonce` | internal/server/stores.go:54-69 | drops the expired tokens and records the new one with its scope |
| `Stores.NonceStore.ConsumeNonce` | internal/server/stores.go:73-95 | a presented token is gone whether or not it matched; it is accepted only unexpired and for the identical scope |
| `Stores.IdemStore.Gc` | internal/server/stores.go:225-232 | keeps exactly the unexpired entries |
| `Stores.IdemStore.PeekEntry` | internal/server/stores.go:162-180 | miss, in flight, conflict or replay, dropping an expired entry |
| `Stores.IdemStore.ReserveKey` | internal/server/stores.go:187-202 | reserves an unknown key, and otherwise reports like a peek |
| `Stores.IdemStore.ReleaseKey` | internal/server/stores.go:217-223 | removes the key's entry if and only if it is pending |
| `Stores.ReleaseKeepsResponses` | internal/server/stores.go:217-223 | letting a key go removes only a reservation, never a response, and touches no other key |
| `MutationProtocol.ReservationOutlasts` | internal/server/mutations.go:437-443 | a reservation lasts the larger of twice the dispatch cap and half a minute |
| `MutationProtocol.BudgetIsTheSmaller` | internal/server/mutations.go:291-309 | a dispatch's budget is the largest that exceeds neither the cap nor the client's deadline less the skew |
| `MutationSteps.StepInv` | internal/server/mutations.go:210-424 | every handler, confirmation, takeover and clock step keeps the protocol invariant |
| `MutationTheorems.HistoryIsLawful` | internal/server/mutations.go:210-424 | in every run, every event of the history is justified by the events before it, however late handlers are |
| `MutationTheorems.OneInFlight` | internal/server/mutations.go:311-424 | at no time do two handlers hold the same session and request id, if none outlives its reservation |
| `MutationTheorems.HeldKeyIsReserved` | internal/server/mutations.go:311-424 | on the same condition, while a handler holds its key the store has a live reservation for its request and no response |
| `MutationTheorems.RetryNeverRepeats` | internal/server/mutations.go:311-424 | on the same condition, between two dispatches of one session and request id the first is resolved, and every response cached for the key before the second has expired |
| `MutationTheorems.ResolvedExactlyOnce` | internal/server/mutations.go:338-424 | in every run, a reservation has been completed or released if and only if its handler no longer holds it, and never twice |
| `MutationTheorems.DispatchWasVetted` | internal/server/mutations.go:250-289 | every dispatch was checked against the guard map of that moment: a known operation and request id, no alternate field naming another resource, a confirmation where one is due, and on a pane a nonzero generation equal to the guard's |
| `MutationTheorems.AdmissibleIsAdmitted` | internal/server/mutations.go:250-309 | and a request that meets this with time left is never refused there: it goes on with the smaller of the cap and its remaining time |
| `MutationTheorems.DestructiveIsConfirmed` | internal/server/mutations.go:350-359 | every destructive dispatch consumed its own unexpired token, issued earlier for the identical operation, nonempty resource parameter, generation, session and parameter digest |
| `MutationTheorems.TakeoverIsConfirmed` | internal/server/terminalroute.go:69-78 | a takeover goes ahead only on an unexpired token issued for a takeover of that nonempty pane, generation and session |
| `MutationTheorems.TokenGrantsOnce` | internal/server/stores.go:73-95 | no token ever grants two things, be they dispatches or takeovers |
| `MutationTheorems.ConfirmationDispatchesOnce` | internal/server/mutations.go:350-359 | two destructive dispatches never name the same confirmation |
| `MutationTheorems.ReplayFidelity` | internal/server/mutations.go:233-248 | a replayed response was produced, and is still live, by an earlier dispatch of the same session, request id, operation, generation and parameters |
| `MutationTheorems.ExclusionLastsAsLongAsTheReservation` | internal/server/stores.go:187-223 | a second request for a reserved key, of any payload, gets the key if and only if the reservation has expired; a late release then frees its successor's key |
| `MutationPatience.ExclusionExactly` | internal/server/mutations.go:311-424 | every run keeps at most one holder, and at most one dispatch in flight, per session and request id if and only if no handler may outlive its reservation |
| `MutationPatience.OwnershipExactly` | internal/server/stores.go:215-223 | in every run the entry a handler completes or releases is its own reservation if and only if no handler may outlive its reservation |
| `MutationPatience.OnTimeIsPrompt` | internal/server/mutations.go:437-443 | handlers that reach their dispatch within the cap and end it within its budget never outlive a reservation |
| `MutationOutcomes.ResolutionIsLogged` | internal/server/mutations.go:361-424 | a successful dispatch is completed with status 200, a final failure with its own status, and a retryable failure released |
| `MutationOutcomes.SettledIsNotRepeated` | internal/server/mutations.go:233-248 | after a success or final failure no dispatch of that session and request id starts until the response has expired |
| `MutationOutcomes.SettledIsReplayed` | internal/server/mutations.go:233-248 | before then the same request is answered with that status and body, at its first look and at its reservation, and ends; another request under its id ends without effect |
| `MutationOutcomes.UnsettledIsForgotten` | internal/server/mutations.go:388-402 | after a retryable failure, or giving up, the key is free again |
| `MutationOutcomes.NewRequestPasses` | internal/server/mutations.go:217-248 | a request goes past its first look if and only if it is well formed and its key carries no response and no other request |
| `MutationOutcomes.FreeKeyIsReserved` | internal/server/mutations.go:311-328 | a handler gets its reservation if and only if the key has no unexpired entry |
| `MutationOutcomes.ConfirmedExactly` | internal/server/mutations.go:133-181 | a confirmation is issued if and only if the operation is confirmable, the resource named, agreeing with the parameters, and on a pane the generation current |
| `MutationOutcomes.IssueIsLogged` | internal/server/stores.go:54-69 | an issued token is recorded for exactly its claim and lifetime |
| `MutationOutcomes.ConfirmationIsHonoured` | internal/server/stores.go:54-95 | the first time it is presented, a token lets the mutation go on if and only if the request is the one it was issued for and its lifetime has not passed |
| `MutationOutcomes.TakeoverIsHonoured` | internal/server/terminalroute.go:69-78 | and grants a takeover if and only if the claim is the one it was issued for and its lifetime has not passed |
| `MutationOutcomes.HandlersCanGoOn` | internal/server/mutations.go:210-424 | in every phase of a handler its next step is open, and a holder may always give its key back |
| `RateLimiter.Store.constructor` | internal/server/stores.go:260-262 | an empty limiter whose first sweep counts from its creation |
| `RateLimiter.Store.AllowCall` | internal/server/stores.go:265-286 | refill, cap, spend and the occasional sweep, for seen and unseen keys |
| `RateLimiter.Store.SweepIdle` | internal/server/stores.go:290-300 | at most once per interval, drops exactly the buckets idle for ten minutes |
| `RateLimiter.SweepExactly` | internal/server/stores.go:241-300 | a sweep comes at most once a minute and drops exactly the buckets untouched for ten |
| `RateLimiter.ForeverUsesRoom` | internal/server/stores.go:265-286 | calls granted in a window are at most the tokens a bucket can hold or accrue in it |
| `RateLimiter.EvictionUnseen` | internal/server/stores.go:241-300 | from any state, the evicting limiter answers like one that remembers every bucket |
| `RateTheorems.RateBoundExactly` | internal/server/stores.go:241-300 | grants in every window are at most burst plus elapsed over interval, for every key and call sequence, if and only if the burst is at least one and refills within ten minutes |
| `RateTheorems.EvictionInvisibleExactly` | internal/server/stores.go:241-300 | eviction changes no answer on any call sequence if and only if the same condition holds |
| `RateTheorems.DefaultsAreGood` | internal/server/server.go:102-107 | under the server's default policy the bound holds and eviction is never seen |
| `RateGreed.GrantsExactly` | internal/server/stores.go:241-300 | the limiter is exact: each call passes if and only if, in every window ending with it, the calls already passed leave room for it within the burst and what accrues |
| `RateGreed.IntervalSuffices` | internal/server/stores.go:265-286 | refused calls cost nothing: a full interval after the last call let through, the next passes |
| `Topology.FingerprintSeparates` | internal/herdr/models.go:189-195 | two NUL-free panes have the same occupant fingerprint if and only if terminal, agent and session identity agree |
| `Order.SortCanonical` | internal/state/snapshot.go:79-126 | sorting by distinct keys gives one result for every arrangement of the same elements |
| `Order.StringLeqMeans` | internal/state/snapshot.go:115-124 | the order compares strings at their first difference, a proper beginning first |
| `ContentHash.ProjectList` | internal/state/snapshot.go:79-126 | a list is projected and sorted into a permutation of the projections in key order |
| `LayoutCopies.CanonicalLayouts` | internal/state/snapshot.go:139-155 | the layout list, and each layout's pane and split lists, are fresh copies in canonical order; no shared list is written |
| `LayoutCopies.ProjectLayouts` | internal/state/snapshot.go:111-124 | the copies sorted in place are the projection's layouts, and the broadcast topology's lists read as before |
| `ContentHash.HashIgnoresOrder` | internal/state/snapshot.go:79-168 | topologies that differ only in the order of workspaces, tabs, panes, agents, layouts or inner layout lists hash equally |
| `ContentHash.HashKeepsPanes` | internal/state/snapshot.go:79-126 | equal hashes mean every pane of one topology is in the other with the same id, occupant and status |
| `ContentHash.HashKeepsWorktrees` | internal/state/snapshot.go:79-137 | equal hashes mean every workspace keeps its checkout provenance and status |
| `ContentHash.HashIgnoresChurn` | internal/state/snapshot.go:34-37 | scroll position and revision of any pane do not reach the hash |
| `ContentHash.WorktreeKeySeparates` | internal/state/snapshot.go:131-137 | worktree keys of NUL-free provenances are equal if and only if the provenances are |
| `ContentGate.HashExactly` | internal/state/snapshot.go:79-168 | two topologies with distinct ids hash alike if and only if the focus agrees and every workspace, tab, pane, agent and layout of each has its like in the other, on every field but the volatile ones |
| `ContentGate.PublishesExactly` | internal/state/engine.go:224-250 | after any history a good poll publishes the next version with its topology if and only if nothing was published yet or the content differs; otherwise view and version stay |
| `StateEngine.State.UpdateGenerations` | internal/state/engine.go:256-277 | the two loops together are the generation update on values |
| `StateEngine.State.BumpPanes` | internal/state/engine.go:256-268 | new panes start at one, changed occupants advance, and the ids present are collected |
| `StateEngine.State.DropAbsent` | internal/state/engine.go:269-277 | exactly the guards of absent panes are removed, whatever the map order |
| `StateEngine.State.ApplyPoll` | internal/state/engine.go:207-250 | a poll result: failures touch no view, equal hashes publish nothing, changes publish the next version with the updated guards |
| `StateEngine.UpdateAdvances` | internal/state/engine.go:256-277 | the update's keys are exactly the reported ids; each pane keeps its generation if its occupant is unchanged, advances by one if not, and starts at one if new |
| `EngineTheorems.GuardMatchesView` | internal/state/engine.go:207-250 | in every reachable state the broadcast generations equal the live guard map, cover exactly the view's panes and are at least one |
| `EngineTheorems.AgreementExactly` | internal/state/engine.go:256-277 | polling a topology twice leaves guard and view in agreement if and only if each pane id has one occupant |
| `EngineTheorems.GenerationTracksOccupant` | internal/state/engine.go:207-277 | for a pane present in every good poll between two points, its generation is equal at both if and only if every poll between showed the same occupant; it never decreases, and failed polls move nothing |
| `EngineTheorems.ReorderedPollIsSilent` | internal/state/engine.go:224-229 | in every reachable state a poll that only reorders the last view publishes nothing and moves no generation |
| `PollLoop.StepInv` | internal/state/engine.go:107-162 | every wake, tick, return and completion keeps the loop's accounting of polls and wakes |
| `PollLoop.OnePollOutstanding` | internal/state/engine.go:107-162 | at most one poll is outstanding, and a follow-up is queued only while one is |
| `PollLoop.NoWakeForgotten` | internal/state/engine.go:107-162 | a wake after which no poll has started is still owed: its token is buffered or a follow-up is queued |
| `PollLoop.OwedPollStarts` | internal/state/engine.go:107-162 | an owed poll starts as soon as the token is taken, or else once the poll in flight is finished |
| `PollLoop.StartsExactly` | internal/state/engine.go:128-162 | a poll starts exactly at a tick or wake taken while none is outstanding, or when one finishes with a follow-up queued; a tick or wake taken otherwise queues the follow-up |
| `Runs.IndexAgents` | internal/state/runs.go:128-135 | the index finds the first agent reported for each pane |
| `Runs.IndexWorkspaces` | internal/state/runs.go:136-139 | the index finds the last workspace reported under each id |
| `Runs.IndexTabs` | internal/state/runs.go:140-143 | the index finds the last tab reported under each id |
| `Runs.BuildRuns` | internal/state/runs.go:127-212 | the building loop over indexes equals the plain projection: one run per agent pane with a guard, sorted by pane |
| `Runs.RunsMatchGuard` | internal/state/runs.go:104-121 | in every reachable state each run asserts a generation the guard accepts, every agent pane of the view has a run, and the list is in order |
| `RunContents.RunsExactly` | internal/state/runs.go:127-236 | after any history the runs are exactly the panes that host an agent, each with its pane, guarded generation, occupant digest and id; name and readiness from its first agent entry, kind and status from the pane first; status one of the known four or unknown; workspace, checkout and tab as last reported |
| `Runs.DuplicateAgentsIgnored` | internal/state/runs.go:128-135 | extra agent entries for panes already covered change no run |
| `Runs.RunIdInjective` | internal/state/runs.go:230-236 | equal run ids mean equal pane, generation and incarnation, for all pane ids |
| `RunIdentity.GenerationCountsOccupants` | internal/state/engine.go:256-277 | over any history a pane is guarded exactly while the last good poll reports it, with the occupant it reports, and its generation is one plus the changes of occupant since it last appeared |
| `RunIdentity.AbsenceForgets` | internal/state/engine.go:269-277 | reports from before a pane was last absent affect neither its occupant nor its generation |
| `RunIdentity.IncarnationExactly` | internal/state/runs.go:48-51 | between any two points, the pane coming and going, incarnation and generation change together if and only if the occupants are equal exactly when equally many changes lie behind them |
| `RunIdentity.IncarnationExactlyAcrossAbsence` | internal/state/runs.go:35-51 | the same across an absence, from the reports since the absence alone |
| `RunIdentity.IncarnationExactlyWhilePresent` | internal/state/runs.go:48-51 | while the pane stays, they change together if and only if the occupants differ or no poll between showed another |
| `RunIdentity.IncarnationFollowsGeneration` | internal/state/runs.go:48-51 | across one poll they always change together |
| `RunIdentity.IncarnationCanReturn` | internal/state/runs.go:48-51 | an occupant that leaves and returns comes back two generations later with its old incarnation |
| `RunIdentity.GenerationCanRestart` | internal/state/runs.go:35-51 | a pane id recycled for another occupant has its old generation and a new incarnation |
| `RunIdentity.RunIdsNameOneOccupant` | internal/state/runs.go:35-43 | at any two points, of one history or two, run ids are equal if and only if pane, generation and occupant are, recycled panes included |
| `Subscription.Client.Offer` | internal/state/subscriber.go:82-106 | replaces what is pending, signals, or overflows and closes |
| `Subscription.Client.Take` | internal/state/subscriber.go:57-67 | hands over what is pending and leaves nothing |
| `Subscription.Client.Close` | internal/state/subscriber.go:116-130 | closing empties the queue and happens once |
| `Subscription.Broadcast` | internal/state/engine.go:279-286 | every subscriber is offered the item once; exactly those that took it stay subscribed |
| `Delivery.StepInv` | internal/state/subscriber.go:57-113 | every poll, subscribe, deregister, close, wake-up and drain keeps the engine in agreement with its view and all queues in order and fresh |
| `Delivery.NewestIsDelivered` | internal/state/subscriber.go:57-113 | in every interleaving a subscriber's newest view is its one pending item or the last it drained; versions drained strictly increase; pending bytes are within the limit; a pending item has a token or an awake consumer |
| `Delivery.DrainCatchesUp` | internal/integration/adapters.go:59-75 | after a drain a subscriber has seen the newest view |
| `Delivery.WaitingCanBeDrained` | internal/integration/adapters.go:59-75 | in every run a waiting item has a wake-up that leads to draining it, and that yields the newest view |
| `Delivery.ClientAgreesWithGuard` | internal/state/engine.go:207-250 | in every run a subscriber with nothing pending last drained a view whose generations are exactly the live guard's, for exactly the panes it shows |
| `Delivery.OverflowExactly` | internal/state/subscriber.go:82-106 | a poll drops a subscriber if and only if it makes a new view that alone is over the byte limit |
| `LineWriter.Writer.constructor` | internal/tunnel/process.go:246-251 | an empty splitter, with the default line limit if none is given |
| `LineWriter.Writer.Write` | internal/tunnel/process.go:253-278 | the byte loop makes the callbacks of the line machine, in order |
| `LineWriter.Writer.Flush` | internal/tunnel/process.go:294-302 | delivers an unterminated last line and starts afresh |
| `LineWriter.SplitterRefines` | internal/tunnel/process.go:233-302 | for every fragmentation, the lines delivered are the newline split of the whole stream, empty lines removed and each cut to the limit |
| `LineWriter.LinesOf` | internal/tunnel/process.go:233-302 | the split, law by law: a line is delivered unless empty, cut to the limit, then the lines of the rest; so is an unterminated last line |
| `Backoff.Counter.Next` | internal/tunnel/backoff.go:52-79 | the exponential delay of the attempt, capped, jittered and capped again, within zero and the maximum; the attempt is counted |
| `Backoff.DelayIs` | internal/tunnel/backoff.go:52-79 | the delay in closed form: base times a power of the factor, capped, scaled by the jitter draw, cut to whole units and capped |
| `Backoff.DefaultsApply` | internal/tunnel/backoff.go:23-41 | settings out of range act as one second, a factor of two, thirty seconds, and jitter between none and all |
| `Backoff.DelayBounded` | internal/tunnel/backoff.go:52-79 | every delay is between zero and the maximum, for every policy, attempt and draw |
| `Backoff.DelayGrows` | internal/tunnel/backoff.go:52-79 | without jitter later delays are never shorter |
| `Backoff.JitterWithinFraction` | internal/tunnel/backoff.go:52-79 | jitter moves a delay by at most its fraction either way |
| `Supervisor.Tunnel.PrepareToken` | internal/tunnel/supervisor.go:316-326 | only a token command leaves a temporary file |
| `Supervisor.Tunnel.WaitAttempt` | internal/tunnel/supervisor.go:245-293 | the attempt's file is gone however it ends; counters reset only after the stability window |
| `Supervisor.Tunnel.AfterFailure` | internal/tunnel/supervisor.go:297-310 | stops, degrades at the cap, or waits the delay that belongs to the exits counted |
| `Supervisor.Tunnel.TakeTurn` | internal/tunnel/supervisor.go:199-236 | one turn: what it counts, when it ends and in which state, the delay it waits, no token file left |
| `Supervisor.Tunnel.Supervise` | internal/tunnel/supervisor.go:187-237 | the loop ends where the streak of counted exits says; at each loop head backoff and count agree; each wait follows from the streak and is within the maximum; no token file is left |
| `Supervisor.DegradesExactly` | internal/tunnel/supervisor.go:187-310 | unless stopped, it ends degraded if and only if some streak of counted exits reaches the cap, and then at exactly the cap |
| `Supervisor.DegradesByWindow` | internal/tunnel/supervisor.go:187-310 | unless stopped, it ends degraded if and only if some row of exits as long as the cap has none after the first that stayed ready for the stability window |
| `Supervisor.FlappingDegrades` | internal/tunnel/supervisor.go:245-310 | attempts that never stay ready for the window degrade at exactly the cap, ready or not |
| `Supervisor.UncappedNeverDegrades` | internal/tunnel/supervisor.go:297-310 | with the cap disabled it never gives up |
| `SessionStore.Expiry` | internal/auth/session.go:145-149 | the earlier of the lifetime's end and the identity's own expiry |
| `SessionStore.Store.Create` | internal/auth/session.go:131-166 | stores and returns the new session |
| `SessionStore.Store.Lookup` | internal/auth/session.go:186-204 | returns and touches a live session, removes an expired one |
| `SessionStore.Store.LookupByIdentity` | internal/auth/session.go:219-249 | removes exactly the expired sessions and returns the newest live one of the subject, for every map order |
| `SessionStore.Store.Gc` | internal/auth/session.go:273-285 | removes exactly the expired sessions and counts them |
| `SessionStore.ReuseIsDetermined` | internal/auth/session.go:219-249 | the result and the store after an identity lookup are unique, ties broken by id |
| `SessionStore.DeadStaysDead` | internal/auth/session.go:131-285 | no step brings back or returns a session once expired or gone |
| `SessionStore.ExpiryIsAbsorbing` | internal/auth/session.go:131-285 | over any run, a session once expired is never returned again |
| `SessionStore.ReturnedIsLive` | internal/auth/session.go:186-249 | every session a lookup returns was stored and unexpired, and is stored as returned |
| `SessionStore.LookupExactly` | internal/auth/session.go:173-204 | a cookie finds its session if and only if it is stored, before its end, and seen within the idle limit where there is one; it is touched, a dead one dropped |
| `SessionStore.ReuseExactly` | internal/auth/session.go:219-263 | an identity finds a session if and only if it names someone and a live session of that person exists; it is the newest by creation, then id; the dead, and only they, are reaped |
| `SessionStore.ReturnedWasAlive` | internal/auth/session.go:173-249 | over any run, what a lookup returns had neither outlived its term nor been idle too long |
| `Utf8Bounds.BoundTail` | internal/server/runs.go:589-600 | a text over the limit becomes its longest valid UTF-8 suffix within the limit, at most three bytes short of it; any other text is returned whole |
| `Utf8Bounds.TruncateHead` | internal/server/runs.go:616-625 | the same for prefixes |
| `Utf8Bounds.SuffixValid` | internal/server/runs.go:589-600 | a suffix of valid UTF-8 is valid if and only if it begins at a rune start |
| `Utf8Bounds.PrefixValid` | internal/server/runs.go:616-625 | a prefix of valid UTF-8 is valid if and only if it ends before a rune start |
| `Utf8Scalars.ValidExactly` | internal/server/runs.go:589-625 | the validity these bounds keep is that of RFC 3629: a byte string is valid if and only if it encodes a sequence of scalar values |

## Left out

- HTTP routing, headers, cookies, JSON and gzip codecs and the websocket library: plumbing around the modelled steps.
- JWT and JWKS verification, random generation and constant-time comparison: calls into code not seen here, taken as fresh or injective values.
- The herdr socket client and its typed mutations; a dispatch is its outcome, and the error table in internal/server/mutations.go is a flag that says whether a failure is retryable.
- Parameter normalisation: parameters are a normalised text with its top-level string fields.
- The bridge's input side (stdin, resize, ping, browser messages) and its close codes; text messages from it appear only as interleaved writes.
- The writer wrapper around the filter in internal/security/ansi.go, which only forwards.
- Daemon control socket, state lock, pid files, orphan reconciliation and process launching: filesystem and signals.
- internal/daemon/supervise.go, a simpler copy of the tunnel supervisor.
- internal/interpret, whose screen heuristics have no sharp specification.
- Configuration, command line and doctor checks.
- The socket fan-out of internal/server/events.go.
- The web client.
- Redaction by regular expression, which precedes tail bounding.
- Fields of a run that are copied for display only.
- The library sort, which is modelled by its result; equal keys may come out in another order there.
- The engine's poll cadence and ticker; a tick may come at any time.
- The serialized size of a snapshot, which is a number supplied with each poll.
- The supervisor's logs, URL and last error.
- Utf8Bounds.TruncateHead: takes a nonnegative limit, because slicing by a negative one panics; callers pass positive constants.
- RateLimiter.Store.AllowCall: takes a positive interval, which the server's defaults guarantee.
- Supervisor.Tunnel.TakeTurn: the stop checks after an attempt are one check, because both lead to the same state.
