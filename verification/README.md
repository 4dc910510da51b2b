# Verified model of the Zizq Rust client

A Dafny model of the parts of the Zizq client whose behaviour is a protocol or an
algorithm, with proofs of what its documentation and tests promise. Each module names
the source file it models.

| files | what they model |
|---|---|
| `Worker`, `WorkerInvariant`, `WorkerTheorems`, `WorkerRuns` | the worker as a step system: dispatcher, handler tasks, ack loop, shutdown signal and server replies step in any order |
| `WorkerLoops`, `Backoff` | the same worker as the loops it is written as, each run against arbitrary interference; every effect of a loop is a step of the step system, and no loop waits while a step of its own is due |
| `Json`, `JqPath`, `PathSelection`, `PathRemoval`, `Hashable`, `ExclusionLaws` | walking, removing, picking by path, the two payload projections keys are hashed from, what an exclusion list compares and when its order matters |
| `Utf8`, `UniqueKey`, `JsonReader`, `CanonicalReads`, `UniqueKeyLaws` | canonical encoding, an independent reader that gives the value back, and key shape |
| `Take`, `TakeLaws` | the two take-stream framings under one poll loop |
| `Decimal`, `PathParser`, `PathParserLaws`, `PathGrammar` | the jq path parser of the derive macro, its printer, and the grammar it accepts |
| `MergePatch`, `Budget`, `JobPatches` | three-state fields and setter chains under JSON Merge Patch (section 2 of RFC 7396) |
| `Paging` | the lazy job stream |
| `Wrappers` | `Option` |

How to read it:

- A *delivery* is one occurrence of a job on a take stream; the same id may be delivered
  twice. The worker theorems quantify over every reachable state or every run of the
  step system. Replies are classified as the worker classifies them: a bulk ack succeeds
  on 204 and 422, any other 4xx is final, and everything else, odd 2xx and undecodable
  bodies included, retries.
- Code that works in place is a method over mutable state, proved equal to a
  specification function; the laws are lemmas about that function. A `&mut` cursor
  into a JSON tree is a zipper over an owned tree, since Rust rules aliasing out.
- Decoding a frame into a job, SHA-256, and resolving a page path are parameters. The
  server is a script of replies, and awaiting is a script of turns.
- Objects are maps where order does not matter and entry lists where it is the claim.
  Numbers are literal tokens. Strings are sequences of Unicode scalar values, encoded
  to UTF-8 where bytes matter.

What the proofs found:

- `payload_except` with index paths: an index removal shifts later siblings, so a list
  can leave a listed element in the hashed value, and the order of the list can matter.
  `PathRemoval.ExclusionExact` says for every list exactly which paths are hidden, and
  `ExclusionLaws.OrderExact` and `SwapExact` exactly when order matters; `IndexListLeaks`
  and `IndexOrderMatters` are the examples. Lists of field paths, and the batch path the
  derive puts first, are always hidden.
- A worker can pull one more job after its shutdown future is ready, when the future
  becomes ready between the two polls of one select (`WorkerTheorems.NoPullAfterShutdown`,
  `PullSlipsIn`); never two (`AtMostOnePull`), and none once shutdown has been observed.
- The path parser panics, where it should return an error, on a quoted key that escapes a
  character of more than one byte (`PathGrammar.PanicExact`, `PanicExample`).
- `BudgetPatch`: after `strategy(Unknown)` with the name `time_based`, duration and burst
  set earlier in the chain are lost, where separate patches would keep them
  (`Budget.ChainExact`, `ForgetfulExample`). Durations are cut to whole milliseconds and
  wrap at 2^64 ms (`Budget.MillisExact`, `DurationsCut`).

Where text and code disagree, the model follows the code:

- `docs/src/workers.md` gives 30 seconds as the default shutdown timeout; the code has
  60 (`zizq/src/worker.rs:42`).
- A comment in `zizq/src/error.rs:246-248` gives `is_retryable` as the worker's ack policy;
  the worker retries everything that is not a 4xx.

## Model

| member | source | states |
|---|---|---|
| `WorkerTheorems.JobConservation` | zizq/src/worker.rs:366-402 | in every reachable state each delivery pulled so far is in exactly one of: a live handler, the ack channel, the current batch, ended; nothing else is anywhere |
| `WorkerTheorems.TruthfulReports` | zizq/src/worker.rs:605-649 | a delivery goes into a bulk ack only if its handler returned Ok and into a failure report only if it returned Err, never both |
| `WorkerTheorems.WhyUnreported` | zizq/src/worker.rs:605-692 | a delivery whose outcome never reached the server panicked, met a final 4xx, or was aborted by the deadline |
| `WorkerTheorems.AckOrder` | zizq/src/worker.rs:654-692 | finished batches, the current batch and the channel, concatenated, are the history of sends; batches are non-empty, every retry resends the same batch, and nothing is sent twice |
| `WorkerTheorems.BatchFate` | zizq/src/worker.rs:676-690 | any two members of a finished batch have the same fate: acked or rejected, by the same reply |
| `WorkerInvariant.StepUniform` | zizq/src/worker.rs:670-690 | every step keeps that, since a recorded fate is never overwritten |
| `WorkerTheorems.ConcurrencyBound` | zizq/src/worker.rs:374-399 | across any number of reconnects the JoinSet never exceeds `concurrency` and the channel never exceeds its capacity |
| `WorkerTheorems.DelaysClosedForm` | zizq/src/worker.rs:293-356 | wherever the worker sleeps, the delay is the closed form at the number of sleeps it has counted |
| `WorkerRuns.ReconnectDelay` | zizq/src/worker.rs:293-356 | after any run from the start the reconnect delay is the closed form at the number of reconnect sleeps since the last connect answered with a 2xx |
| `WorkerRuns.AckDelay` | zizq/src/worker.rs:670-690 | the ack delay is the closed form at the number of ack sleeps since the last batch was closed |
| `WorkerRuns.ReportDelay` | zizq/src/worker.rs:627-647 | the delay of a failure report is the closed form at the number of sleeps of its own task |
| `WorkerRuns.DeliveriesAreThePulls` | zizq/src/worker.rs:385-399 | the deliveries of a run are the ids pulled in it, in order |
| `WorkerRuns.VerdictsAreWhatHandlersDid` | zizq/src/worker.rs:605-649 | the recorded verdict of a delivery is what the last step of its handler said |
| `WorkerRuns.ReportsAreCounted` | zizq/src/worker.rs:627-647 | a failure is reported once when its handler fails and once after each sleep |
| `WorkerRuns.RequestsAreCounted` | zizq/src/worker.rs:670-690 | a batch is requested once when it closes and once after each sleep |
| `WorkerRuns.AckReplies` | zizq/src/worker.rs:670-690 | a reply of 204 or 422 acks the whole batch, another 4xx rejects it, and anything else keeps it for another try |
| `WorkerRuns.ReportReplies` | zizq/src/worker.rs:627-647 | a 2xx settles a failure report, a 4xx drops it, and anything else sends it again |
| `WorkerRuns.WhyDraining` | zizq/src/worker.rs:287-358 | which dispatcher steps start a session, a backoff or the drain, and with which result: a 2xx opens a session, a 4xx drains as failed, an observed shutdown drains clean, a lost stream or another failed connect reconnects if asked to |
| `WorkerRuns.ResultStays` | zizq/src/worker.rs:239-280 | from the start of the drain the result is the one that will be returned |
| `WorkerTheorems.ShutdownWins` | zizq/src/worker.rs:374-391 | over every run from the moment the shutdown future is ready, the drain begins after at most two dispatcher steps: the other branch of a select already under way, and a connect attempt |
| `WorkerTheorems.NoPollAfterDrainBegins` | zizq/src/worker.rs:261-277 | over every run from the start of a drain the shutdown future is never polled again and nothing is pulled |
| `WorkerTheorems.NoPullAfterShutdown` | zizq/src/worker.rs:371-391 | after the shutdown future is ready some run still pulls a job if and only if a select below capacity has already polled the future and not yet the stream |
| `WorkerTheorems.AtMostOnePull` | zizq/src/worker.rs:385-391 | over every run from the moment the shutdown future is ready at most one job is pulled, and only by such a select |
| `WorkerTheorems.PullSlipsIn` | zizq/src/worker.rs:385-391 | a run from the start that leads there |
| `WorkerTheorems.StreamHeldWhileDraining` | zizq/src/worker.rs:248-277 | a shutdown that ends a session keeps its take stream open until `run` returns |
| `WorkerTheorems.ChannelNeverClosedEarly` | zizq/src/worker.rs:613-620 | no sender meets a closed ack channel, so the warning branch is unreachable |
| `WorkerTheorems.DrainSafety` | zizq/src/worker.rs:261-277 | when the drain completes no task, channel entry or batch is left and every delivery has ended |
| `WorkerTheorems.ReturnedClean` | zizq/src/worker.rs:239-280 | the same of a worker that returned without hitting the deadline |
| `WorkerTheorems.DrainStepDrops` | zizq/src/worker.rs:261-277 | every step of a drain lowers a weighted count of unfinished work, except a transient failure, which raises it by at most one |
| `WorkerTheorems.DrainBound` | zizq/src/worker.rs:605-692 | a drain with n transient failures takes at most its initial weight plus 2n steps |
| `WorkerTheorems.TaskProgress` | zizq/src/worker.rs:377-383 | a task waiting on anything, a full channel included, leaves some useful step enabled |
| `WorkerTheorems.DrainProgress` | zizq/src/worker.rs:261-265 | a drain always has a useful step other than the deadline |
| `WorkerTheorems.NoDeadlock` | zizq/src/worker.rs:239-402 | no reachable state short of returning is stuck: a useful step is enabled, at once or after one poll of a shutdown future that is not ready |
| `WorkerTheorems.DrainCanFinish` | zizq/src/worker.rs:261-280 | from every draining state the worker can return cleanly within its weight in steps, with the result already decided |
| `WorkerInvariant.StepConserves` | zizq/src/worker.rs:605-692 | every step keeps each delivery in exactly one place |
| `WorkerInvariant.StepPipelined` | zizq/src/worker.rs:654-692 | every step keeps the order of sends, the batch replay log and the batch fates |
| `WorkerInvariant.StepTruthful` | zizq/src/worker.rs:605-649 | every step keeps reports, acks and fates in line with what handlers did |
| `WorkerInvariant.RunInv` | zizq/src/worker.rs:239-402 | every run keeps the conjunction of all the invariants |
| `Backoff.NextBackoffStep` | zizq/src/worker.rs:694-696 | one doubling moves the closed form one step on, across the cap too |
| `Backoff.BackoffShape` | zizq/src/worker.rs:40-41 | 500 ms doubled for the first six sleeps, 30 s from then on |
| `Backoff.TotalDelay` | zizq/src/worker.rs:673-690 | k consecutive sleeps take 500 * (2^k - 1) ms up to k = 6 and 31500 + 30000 * (k - 6) ms from there |
| `WorkerLoops.World.Take` | zizq/src/worker.rs:239-402 | an effect of a loop is a step of its own that the step system allows and that it has been offered, and keeps the state reachable |
| `WorkerLoops.World.Advance` | zizq/src/worker.rs:239-402 | a step of any task is one the step system allows |
| `WorkerLoops.World.Await` | zizq/src/worker.rs:239-402 | a loop awaits only with no step of its own due; other tasks take any allowed steps and leave its own part of the state alone |
| `WorkerLoops.DispatchTask.PollShutdown` | zizq/src/worker.rs:374-391 | the first branch of a biased select: it is passed only if the future is not ready, and a future ready before starts the drain |
| `WorkerLoops.DispatchTask.AwaitSlot` | zizq/src/worker.rs:374-383 | blocks while the JoinSet is full; leaves a free slot, or a session ended by shutdown and nothing else; at capacity with shutdown ready it never leaves a slot |
| `WorkerLoops.DispatchTask.AwaitJoin` | zizq/src/worker.rs:374-383 | one select at capacity: a finished task is joined, and an offer it cannot use parks it |
| `WorkerLoops.DispatchTask.TryJoin` | zizq/src/worker.rs:377-383 | joins the offered task exactly when it is one of the JoinSet that has finished |
| `WorkerLoops.DispatchTask.PullOne` | zizq/src/worker.rs:385-399 | one select: a shutdown ready on entry is all that can end it; otherwise the stream is polled |
| `WorkerLoops.DispatchTask.PollStream` | zizq/src/worker.rs:387-399 | an offered job is pulled and nothing else is; the session ends exactly when the stream ends or fails, with the outcome that names it |
| `WorkerLoops.DispatchTask.DispatchSession` | zizq/src/worker.rs:366-402 | a session hands the stream back open after shutdown and ends it otherwise, with `inflight` the JoinSet throughout |
| `WorkerLoops.DispatchTask.SleepOrShutdown` | zizq/src/worker.rs:698-707 | a shutdown ready on entry is never slept through; otherwise the timer wakes the loop for a reconnect |
| `WorkerLoops.DispatchTask.DispatchLoop` | zizq/src/worker.rs:287-358 | the reconnect loop leaves for the drain with its result, says whether the stream is still open, hands an open one back only after shutdown and with a clean result, and otherwise stops only with its script |
| `WorkerLoops.DispatchTask.Serve` | zizq/src/worker.rs:300-352 | one connect reply and the session it may open: what `dispatch_loop` returns, or on to the backoff |
| `WorkerLoops.DispatchTask.JoinTasks` | zizq/src/worker.rs:261-265 | joins every task still running or is stopped by the deadline |
| `WorkerLoops.DispatchTask.AwaitAcks` | zizq/src/worker.rs:261-280 | waits for the ack loop or the deadline; if the ack loop exits first nothing is left and every delivery has ended |
| `WorkerLoops.DispatchTask.Run` | zizq/src/worker.rs:239-280 | `run` from start to return: only reachable states, and a drain that beats the deadline leaves nothing behind and every delivery ended |
| `WorkerLoops.ReportBatch` | zizq/src/worker.rs:670-690 | every request it makes is this batch, one before the first sleep and one after each; the sleeps are the closed form; once settled the batch is the next finished one |
| `WorkerLoops.TryBatch` | zizq/src/worker.rs:672-690 | one turn of that loop: settled by this reply, or slept for this delay and requested once more |
| `WorkerLoops.AckProcessor` | zizq/src/worker.rs:654-692 | finished batches are only added; it stops only with its script, the worker or, once every sender is gone, with everything ever sent gone out in some batch |
| `WorkerLoops.OneBatch` | zizq/src/worker.rs:654-690 | takes from the channel until it is empty or looks empty, and reports what it took as one batch |
| `WorkerLoops.HandleJob` | zizq/src/worker.rs:605-649 | a finished handler task has sent its id if the handler returned Ok, has its failure report settled if Err, and is recorded as panicked otherwise |
| `WorkerLoops.SendAckTo` | zizq/src/worker.rs:608-621 | waits for room and sends the id; the arm for a closed channel is asserted unreachable |
| `WorkerLoops.ReportFailure` | zizq/src/worker.rs:627-647 | the failure report ends only when a reply has settled it, after sleeps in closed form, each followed by exactly one more report |
| `WorkerLoops.ReportRound` | zizq/src/worker.rs:629-646 | one turn of that loop: settled by this reply, or slept for this delay and reported once more |
| `JqPath.Walk` | zizq/src/jq_path.rs:33-50 | the cursor loop finds what the step-by-step specification finds, or nothing |
| `JqPath.Remove` | zizq/src/jq_path.rs:52-85 | the in-place removal through a moving cursor leaves the recursive removal |
| `JqPath.SetPath` | zizq/src/jq_path.rs:115-158 | the in-place write through a moving cursor, containers and padding included, leaves the recursive write, and is abandoned exactly on a shape mismatch |
| `JqPath.FitsExact` | zizq/src/jq_path.rs:115-158 | a write is abandoned if and only if something already there on its way is neither the container the next step asks for nor a null that holds an array slot open; an object entry holding null is in the way |
| `JqPath.WriteThenRead` | zizq/src/jq_path.rs:115-158 | a write that is not abandoned is read back at its path, and an abandoned one changes nothing |
| `JqPath.Pad` | zizq/src/jq_path.rs:133-155 | padding with null up to the index |
| `PathSelection.Pick` | zizq/src/jq_path.rs:95-110 | the `set_path` loop computes the structural projection of the source onto the set of matching paths, so order and duplicates do not matter; no write is ever abandoned |
| `PathSelection.Grow` | zizq/src/jq_path.rs:115-158 | one write adds one path to the projection and meets no mismatch |
| `PathSelection.SelectionAt` | zizq/src/jq_path.rs:95-110 | a selected path reads in the pick what it reads in the source, a miss included |
| `PathSelection.ProjectedAgree` | zizq/src/jq_path.rs:95-110 | the pick is a function of the selected parts alone |
| `PathSelection.SelectionExact` | zizq/src/jq_path.rs:95-110 | two payloads pick the same value if and only if every selected path reads the same in both, root path and no match included |
| `PathSelection.PaddingBounded` | zizq/src/jq_path.rs:133-155 | no array of a pick is longer than the source array |
| `PathSelection.SelectionComplete` | zizq/src/jq_path.rs:95-110 | every reading of the pick: the whole source under the root path, an empty object when nothing matches, the source at and below a selected path, the container kinds of the source on the way to one, and elsewhere nothing or a null that pads an array |
| `PathSelection.NoTrailingPadding` | zizq/src/jq_path.rs:133-155 | the last element of an array on the way to a selected path leads to a selected path, so padding never ends one |
| `JqPath.AtLast` | zizq/src/jq_path.rs:33-50 | what one more step of a path reads: the named entry of an object or the element of an array |
| `PathRemoval.RemovalFrame` | zizq/src/jq_path.rs:52-85 | every reading after a removal in terms of readings before it |
| `PathRemoval.RemovalOfNothing` | zizq/src/jq_path.rs:52-85 | an unmatched path removes nothing |
| `PathRemoval.RemovedFieldIsGone` | zizq/src/jq_path.rs:70-76 | after removing a field every path through it gives nothing |
| `PathRemoval.RemovedElementShifts` | zizq/src/jq_path.rs:77-84 | after removing element i, siblings below stay and sibling j >= i reads as j + 1 did |
| `PathRemoval.RemovedElsewhere` | zizq/src/jq_path.rs:52-85 | paths off the removed one read as before |
| `PathRemoval.ExclusionExact` | zizq/src/hashable.rs:38-45 | for every exclusion list and payload, the value at a path has no influence on the result if and only if the list alone tracks that path away |
| `PathRemoval.FieldListHides` | zizq/src/hashable.rs:38-45 | in a list of field paths every listed path is hidden |
| `PathRemoval.BatchPathHidden` | zizq-derive/src/lib.rs:433-459 | the batch path, listed first, is hidden whatever it ends in |
| `PathRemoval.IndexListLeaks` | zizq/src/hashable.rs:38-45 | two listed elements of one array: the second stays visible, since the first removal shifts it |
| `Hashable.PayloadExcept` | zizq/src/hashable.rs:38-45 | removes the paths in list order |
| `Hashable.PayloadOnly` | zizq/src/hashable.rs:58-62 | the projection onto the set of paths |
| `Hashable.ExceptIsWithout` | zizq/src/hashable.rs:38-45 | removing field paths one by one deletes the set of them at once |
| `Hashable.ExceptIgnoresOrder` | zizq/src/hashable.rs:38-45 | field path lists with the same members, in any order and number, give the same result |
| `Hashable.IndexOrderMatters` | zizq/src/hashable.rs:38-45 | two index paths whose order changes the result |
| `ExclusionLaws.OrderExact` | zizq/src/hashable.rs:38-45 | two exclusion lists, whatever they hold, give the same result for every payload if and only if the lists alone leave every path in the same place |
| `ExclusionLaws.SwapExact` | zizq/src/hashable.rs:38-45 | two removals commute on every value if and only if neither path ends at an index that the other goes on from, later in the same array or below it |
| `ExclusionLaws.AnyOrder` | zizq/src/hashable.rs:38-45 | a list with no such pair gives the same result in any order, index paths included |
| `ExclusionLaws.ExceptExact` | zizq/src/hashable.rs:38-45 | any two payloads give the same result under an exclusion list, whatever it holds, if and only if they have the same outline at every path the list leaves in place |
| `UniqueKey.WriteCanonical` | zizq/src/unique_key.rs:147-183 | the streaming writer feeds the hasher the canonical encoding of the value the document denotes |
| `UniqueKey.WriteArray` | zizq/src/unique_key.rs:166-176 | array items in order, separated by commas |
| `UniqueKey.WriteObject` | zizq/src/unique_key.rs:149-165 | object entries under sorted keys |
| `UniqueKey.WriteFields` | zizq/src/unique_key.rs:153-164 | the entry loop, from any point of the key list |
| `UniqueKey.SortedUnique` | zizq/src/unique_key.rs:150-151 | a set of keys has one strictly ascending listing, so the unstable sort is determined |
| `UniqueKey.LeIsByteOrder` | zizq/src/unique_key.rs:150-151 | the code point order used here is the order of the UTF-8 bytes, which is what `sort_unstable` compares |
| `UniqueKey.KeysSorted` | zizq/src/unique_key.rs:150-151 | sorting the entry keys gives the ascending listing of the key set, whatever order the entries had |
| `UniqueKey.HashHex` | zizq/src/unique_key.rs:123-139 | 64 lower-case hex digits of the digest of the canonical encoding |
| `UniqueKey.TaggedHashOf` | zizq/src/unique_key.rs:116-118 | tag, colon, hex digest |
| `CanonicalReads.CanonicalParses` | zizq/src/unique_key.rs:147-183 | a reader of JSON texts, written byte by byte after RFC 8259, reads the canonical encoding of every value back to that value |
| `CanonicalReads.ValueRead` | zizq/src/unique_key.rs:147-183 | the same of an encoding followed by what may follow a value, with exactly that left over |
| `CanonicalReads.EscapesLiterally` | zizq/src/unique_key.rs:157-159 | each escape of a string token in full: the quote, the backslash, the five short escapes, \u00xx in lower case for the other control characters, and every other character as itself |
| `UniqueKeyLaws.HexDigits` | zizq/src/unique_key.rs:131-138 | each byte of a digest is two lower-case hex digits, the high one first |
| `UniqueKeyLaws.TokenUnique` | zizq/src/unique_key.rs:157-159 | an escaped string token followed by anything is read in one way |
| `UniqueKeyLaws.NumberUnique` | zizq/src/unique_key.rs:178-181 | a number token followed by what may follow a value is read in one way |
| `UniqueKeyLaws.ValueUnique` | zizq/src/unique_key.rs:147-183 | an encoded value followed by what may follow a value is read in one way, through nested objects and arrays |
| `UniqueKeyLaws.CanonicalInjective` | zizq/src/unique_key.rs:147-183 | two values have the same canonical encoding if and only if they are equal |
| `UniqueKeyLaws.PreimagesAgree` | zizq/src/unique_key.rs:141-146 | two documents stream the same bytes if and only if they differ in entry order at most |
| `UniqueKeyLaws.HexInjective` | zizq/src/unique_key.rs:131-138 | hex digests determine digests |
| `UniqueKeyLaws.TaggedKeysSeparate` | zizq/src/unique_key.rs:98-118 | tagged keys agree if and only if tags and digests do, whatever the tags contain |
| `UniqueKeyLaws.SelectedPreimagesExact` | zizq/src/hashable.rs:58-62 | under `payload_only` the hashed bytes coincide if and only if every selected path reads the same |
| `UniqueKeyLaws.SelectedKeysExact` | zizq/src/unique_key.rs:116-118 | unless SHA-256 collides on the two inputs, tagged keys agree if and only if tags and selected parts do |
| `UniqueKeyLaws.ExcludedPreimagesExact` | zizq/src/hashable.rs:38-45 | under `payload_except` the hashed bytes coincide if and only if the payloads agree at every path the list leaves in place |
| `UniqueKeyLaws.ExcludedKeysExact` | zizq/src/unique_key.rs:116-118 | unless SHA-256 collides on the two inputs, so do the tagged keys, given equal tags |
| `Take.StreamDecoder.DecodeNdjson` | zizq/src/take.rs:287-311 | the line loop yields the next record of the specification and leaves its buffer |
| `Take.StreamDecoder.DecodeMsgpack` | zizq/src/take.rs:313-339 | the length-prefixed loop yields the next record of the specification and leaves its buffer |
| `Take.StreamDecoder.Finalize` | zizq/src/take.rs:273-284 | leftover bytes are one incomplete-frame error, once |
| `Take.TakeStream.PollNext` | zizq/src/take.rs:180-218 | the poll loop is the poll specification on the whole stream state |
| `TakeLaws.NextStable` | zizq/src/take.rs:263-339 | bytes that arrive later never change a record already complete |
| `TakeLaws.DrainedIsOneShot` | zizq/src/take.rs:180-218 | polling to the end yields what decoding all delivered bytes at once yields |
| `TakeLaws.ChunkingIndependent` | zizq/src/take.rs:180-218 | two ways of cutting the same bytes into chunks, empty chunks and pending polls included, yield the same items, in both framings |
| `TakeLaws.OneShot` | zizq/src/take.rs:180-218 | jobs in order, then at most one error |
| `TakeLaws.NoneForever` | zizq/src/take.rs:184-187 | after the first None or error every poll gives None |
| `TakeLaws.FrameRoundTrip` | zizq/src/take.rs:287-339 | payloads framed with heartbeats anywhere, LF or CRLF, decode to exactly those payloads, and a frame cut short after them is an error only if the bytes end; which lines are jobs and which heartbeats is stated by byte values |
| `PathParser.Parse` | zizq-derive/src/jq_path.rs:52-154 | the index-walking parser over bytes returns what the character-level grammar gives, error kind and position included |
| `PathParser.ReadQuoted` | zizq-derive/src/jq_path.rs:78-90 | the quoted-key loop, escapes and the slice that may panic included |
| `PathParser.ParseQuoted` | zizq-derive/src/jq_path.rs:76-105 | a bracketed key |
| `PathParser.ParseNumber` | zizq-derive/src/jq_path.rs:106-130 | a bracketed index |
| `PathParserLaws.ParseInvertsPrint` | zizq-derive/src/jq_path.rs:52-154 | every list of steps, with any names and indices that fit usize, printed dotted or quoted, parses back to itself |
| `PathGrammar.ParsedExact` | zizq-derive/src/jq_path.rs:52-154 | the parser returns a path if and only if the input is a dot and then whole steps (dots, names, bracketed indices and quoted keys) to its end that spell this path |
| `PathGrammar.FailedExact` | zizq-derive/src/jq_path.rs:52-154 | it reports this error at this byte position if and only if, after whole steps, the grammar is stuck there with that error |
| `PathGrammar.PanicExact` | zizq-derive/src/jq_path.rs:81-90 | it panics if and only if, after a dot and whole steps, a quoted key opens in which a backslash stands before a character of more than one byte |
| `PathGrammar.ErrorPositionInRange` | zizq-derive/src/jq_path.rs:52-154 | error positions lie within the input or at its end |
| `PathGrammar.DigitRefused` | zizq-derive/src/jq_path.rs:143-148 | a field that starts with a digit is an unexpected character at that place |
| `PathGrammar.PanicExample` | zizq-derive/src/jq_path.rs:81-90 | such an input |
| `MergePatch.MergeActsPerMember` | zizq/src/job_patch.rs:29-69 | merging a patch object changes each member by its own state alone: kept, removed, or merged into |
| `MergePatch.MemberMerges` | zizq/src/job_patch.rs:29-69 | section 2 of RFC 7396 for one member: absent keeps, null removes, a value replaces, and an object is merged into what is stored |
| `MergePatch.EmptyPatchKeeps` | zizq/src/job_patch.rs:123-126 | a fresh patch changes nothing |
| `Budget.MillisExact` | zizq/src/budget.rs:144-151 | whole milliseconds below 2^64 survive `as_millis() as u64`, and no other duration does |
| `Budget.WireRoundTrip` | zizq/src/budget.rs:124-164 | a strategy is read back as written if and only if its duration is representable and it is not an unknown one named `while_in_flight` |
| `Budget.WireWrites` | zizq/src/budget.rs:107-164 | the wire document in full, by member name: the kind, the whole milliseconds modulo 2^64, and the burst if there is one |
| `Budget.RequestWrites` | zizq/src/budget.rs:396-424 | the request in full, by member name: kept members are absent, cleared ones null, set ones have their value |
| `Budget.BudgetPatch.constructor` | zizq/src/budget.rs:427-430 | a patch that changes nothing |
| `Budget.BudgetPatch.Allocation` | zizq/src/budget.rs:432-436 | sets the allocation and nothing else |
| `Budget.BudgetPatch.Strategy` | zizq/src/budget.rs:438-469 | replaces the whole strategy patch with everything the strategy states |
| `Budget.BudgetPatch.Duration` | zizq/src/budget.rs:471-476 | sets the period inside the strategy patch |
| `Budget.BudgetPatch.Burst` | zizq/src/budget.rs:478-483 | caps the burst inside the strategy patch |
| `Budget.BudgetPatch.ClearBurst` | zizq/src/budget.rs:485-489 | clears the burst inside the strategy patch |
| `Budget.BudgetPatch.StrategyMut` | zizq/src/budget.rs:491-502 | promotes keep to set on first use; the strategy is never cleared, so the unreachable arm is unreachable |
| `Budget.Chain` | zizq/src/budget.rs:396-412 | no chain of setters clears the strategy or the allocation |
| `Budget.MergeWrites` | zizq/src/budget.rs:400-424 | merging a serialised patch into any stored budget writes exactly the members its fields say |
| `Budget.ChainExact` | zizq/src/budget.rs:426-503 | a chained patch does to every stored budget what its setters do one by one, if and only if the last strategy set is not named `time_based` with an earlier duration or burst dropped |
| `Budget.ChainForgetsPeriod` | zizq/src/budget.rs:446-476 | a period and then an unknown strategy `time_based`: over a stored period of 5 ms the chain leaves 5 ms and separate patches 1 ms |
| `Budget.ForgetfulExample` | zizq/src/budget.rs:446-476 | a stored budget on which the two differ |
| `Budget.DurationsCut` | zizq/src/budget.rs:446-453 | 1.5 ms is stored as 1 ms and 2^64 ms as nothing, whatever was there |
| `Budget.KnownChainsFaithful` | zizq/src/budget.rs:446-469 | chains that name no unknown strategy `time_based` satisfy that condition |
| `Budget.StrategyReplaces` | zizq/src/budget.rs:438-469 | `strategy(s)` leaves exactly s over any stored budget, if and only if s can be said on the wire and an unknown `time_based` finds no stored duration |
| `Budget.FieldSettersAdjust` | zizq/src/budget.rs:471-489 | each other setter changes its own field of the decoded policy and nothing else |
| `JobPatches.JobPatch.SetQueue` | zizq/src/job_patch.rs:123-237 | each method of the class puts one field in the state its argument says (set, cleared or kept) and leaves the other fields alone; queue and priority are never cleared |
| `JobPatches.RetentionPatch.SetCompletedMs` | zizq/src/job_patch.rs:270-311 | the same for the two sub-fields of a retention patch |
| `JobPatches.ChainMeaning` | zizq/src/job_patch.rs:10-24 | each member of the request is as its last setter left it (absent, null or a value), and every member of a stored job changes by that alone |
| `JobPatches.RequestWrites` | zizq/src/job_patch.rs:92-120 | the request in full, by member name: a kept field is absent, a cleared one null, a set one its text or number, with the members of backoff and retention each under its own name |
| `JobPatches.RetentionMerges` | zizq/src/job_patch.rs:240-268 | the retention member is itself merged sub-field by sub-field |
| `JobPatches.PatchesTellApart` | zizq/src/job_patch.rs:51-69 | different patches are different requests, so keep, clear and set are never confused |
| `JobPatches.RetentionReplaced` | zizq/src/job_patch.rs:220-224 | a second `retention(..)` replaces the first; that equals sending both in turn if and only if the second covers every sub-field the first touches |
| `Paging.JobStream.constructor` | zizq/src/list_jobs.rs:154-170 | an explicitly empty filter starts at the end, anything else at the first page |
| `Paging.JobStream.PollNext` | zizq/src/list_jobs.rs:171-191 | the stream loop is the poll specification on the whole stream state |
| `Paging.PollFollows` | zizq/src/list_jobs.rs:171-191 | a poll hands out the next item of the listing and makes the next requests of it, nothing skipped, repeated or fetched twice |
| `Paging.RunFollows` | zizq/src/list_jobs.rs:154-191 | after any number of polls what was handed out and requested is a prefix of the listing, and the rest is still to come |
| `Paging.EndedHasAll` | zizq/src/list_jobs.rs:154-191 | an ended stream has handed out the concatenation of the pages in order and stays ended |
| `Paging.ListingEnds` | zizq/src/list_jobs.rs:154-191 | a listing that ends is handed out whole after finitely many polls |
| `Paging.ListingOfChain` | zizq/src/list_jobs.rs:171-191 | the listing of a chain of pages given as data: the jobs of its pages in order up to the first page without a next link, and one request for each, the first URL and then the resolved link of the page before; a failed request or refused link ends it with an error |
| `Paging.ChainHandedOut` | zizq/src/list_jobs.rs:154-191 | and so polled: a chain with a last page is handed out whole and requested page by page |
| `Paging.EmptyFilterAsksNothing` | zizq/src/list_jobs.rs:155-159 | an explicitly empty filter yields nothing and makes no request |
| `Paging.ErrorIsLast` | zizq/src/list_jobs.rs:125-128 | an error is the last item |
| `Paging.FetchesLazily` | zizq/src/list_jobs.rs:120-128 | a request is in flight only when every job received before it has been handed out, and one request is made per page |

## Left out

- What happens after `run` passes its deadline: handlers are aborted and the ack loop is detached, and nothing is claimed about acks that arrive later.
- Real time: delays and the deadline are steps that may happen, not clock readings. A handler that never returns is a run in which its step never comes.
- A `prefetch` of 0: `mpsc::channel` panics on a zero capacity, so the step system asks for at least 1.
- HTTP transport, TLS, timeouts, URL building and content negotiation: only the reply classes the worker branches on are kept.
- `serde`: a payload arrives as a JSON value. A budget decoded from a JSON array, which derived structs also accept, is not modelled.
- `0.0` and `-0.0` are equal as floats and distinct as number tokens; the canonical encoding tells them apart, and so does the model.
- The order in which `sort_unstable` compares keys: modelled by its result, which is unique for distinct keys.
- `JsonReader` reads the compact texts the canonical encoding is compared with: no space between tokens, no surrogate pairs, and numbers as their characters.
- SHA-256 and the decoding of one frame into a job: parameters. Key separation is stated up to a collision of the hash on the two inputs at hand.
- `usize` is 64 bits wide, as on the targets the client is built for.
- Proc-macro token emission and attribute parsing: only the order of the emitted path list is used.
- `zizq/src/list_errors.rs` runs the same loop as `zizq/src/list_jobs.rs`.
- Awaiting a list builder for a single page, query building, enqueue, cron, count, delete, router dispatch and the resource structs: field defaults and delegation.
- Server behaviour (batch folding, budget accounting, redelivery): not in this repository.
