# OxideSwarm in Dafny

A Dafny model of the parts of OxideSwarm where several actors meet, with proofs of what they keep.

* **The Agent Mesh hub** (`Protocol`, `Hub*`). A transition system of any number of sockets that
  register node ids, relay envelopes, are kicked, die and are replaced. A step is one critical
  section of a handler, so a connection can be dead while its entry is still there, and its successor
  can take the id before the cleanup. `HubInv` states the invariant, `HubStable`, `HubGrows`,
  `HubConns`, `HubHistory`, `HubRegistry`, `HubBalance` and `HubProofs` keep it. `HubEffects` says
  what a step leaves alone; on it rest the counters (`HubCounts`, `HubTraffic`), the choice of frames
  (`HubRouting`), their order (`HubOrder`) and broadcasts (`HubFan`). `HubTheorems` draws the
  conclusions for every run. `HubSpec` writes down, in the envelopes the peers see and without the
  handler's functions, what every frame is to lead to; `HubService` proves that every undisturbed run
  of a handler does that. `HubCell` has the critical sections on mutable fields, with the bounded
  queue underneath.
* **The bounded outbox** (`Outbox*`, `Sums`). The same `push` and write pump at the granularity of
  their atomic operations, with pushers stopped anywhere. `HubTheorems.QueueMeetsHub` ties the two
  granularities together.
* **The native client** (`Client*`). One client that follows the code, on a hub whose other
  connections may send anything: who answers its calls (`ClientProofs`), and what it sends to whom
  (`ClientTraffic`).
* **The event watchers** (`Watch*`, `ClaimStore`). Any number of processes that scan, claim, deliver
  and prune, one file operation at a time.
* **Content-addressed inputs** (`Paths`, `Tree*`, `Scan*`, `Inputs`, `InputScan`, `Master`, `Upload`,
  `Submission`). The stack scan of a directory tree under limits, the index of blobs, and the upload
  of what the master lacks with transfers taking turns in any order, while other clients fill and
  empty the store.
* **Sequential code with a sharp specification** (`Destination`, `CommandLine`, `Separated`,
  `Chunks`, `Descendants`, `Capped`).

State machines are values: a state datatype, step labels, a guard and an effect for each step, and
runs as sequences of steps. Objects whose methods update fields are classes whose methods are proved
equal to a function on the abstract state.

Where code and comments differ, the code is modelled:

* The retention of claim files (scripts/agent_bridge.py:726-735) tests a file's age and removes the
  file in two operations. An event can then be delivered twice within the retention period;
  `WatchProofs.RacingPrunesDeliverTwice` is such a run, and `WatchProofs.RemovalIsSafeExactlyIf` says
  which removals are harmless.
* `prepare_destination` takes a last look at the target that fails, for whatever reason, for a free
  name; `Destination.TargetIsPlainExactlyIf` says exactly when the target is known to be no link.
* A connection whose own queue overflows by its own command is kicked before its NACK is pushed, so
  the NACK is lost (crates/agent_mesh/src/hub.rs:1017-1029); `HubService.PassedOnOutcome` has this case.

## Model

| member | source | states |
|---|---|---|
| `Protocol.ValidIdIsNotReserved` | crates/agent_mesh/src/protocol.rs:26-47 | no id that passes validation equals a reserved one, in whatever mix of ASCII cases |
| `Protocol.ValidIdExactlyIf` | crates/agent_mesh/src/protocol.rs:30-47 | an id passes validation if and only if it has 1 to 128 bytes, no control character, and in ASCII lower case is none of the four reserved ids |
| `Protocol.EchoIsReadable` | crates/agent_mesh/src/hub.rs:593-609 | the id a refusal is addressed to has no control character, agrees with the claimed id character by character up to replaced ones, and is that id exactly if that is printable and short; every valid id is echoed as it is |
| `OutboxProofs.StepKeepsInv` | crates/agent_mesh/src/hub.rs:186-211 | every atomic operation of any pusher or of the pump, the pump's last subtraction and its end being two, keeps conservation, the bound, the order, and the truth of what pushes returned |
| `OutboxProofs.CounterIsConserved` | crates/agent_mesh/src/hub.rs:186-211 | in every run, while the pump lives, the byte counter is the bytes of the frames in the channel, in the pump's hand, and of the pushes that have neither handed over nor taken back |
| `OutboxProofs.CounterNeverUnderflows` | crates/agent_mesh/src/hub.rs:1137-1147 | every subtraction, by the pump or by a refused pusher, finds at least that much in the counter |
| `OutboxProofs.MemoryIsBounded` | crates/agent_mesh/src/hub.rs:186-211 | the bytes accepted and not yet sent stay within the budget, or are all those of one single frame; the channel stays within its capacity |
| `OutboxProofs.PumpIsFifo` | crates/agent_mesh/src/hub.rs:1137-1147 | what was written, what is in hand and what is in the channel make up what was accepted, in order, and nothing follows a Close frame |
| `OutboxProofs.OkMeansAccepted` | crates/agent_mesh/src/hub.rs:186-211 | the messages whose push returned Ok are exactly the accepted ones, as often |
| `OutboxProofs.FullIsFinal` | crates/agent_mesh/src/hub.rs:186-216 | once a push has returned Full, every push that starts later returns Closed |
| `OutboxProofs.PushIsAtomic` | crates/agent_mesh/src/hub.rs:186-211 | the step that ends a push has the whole effect the hub model gives it, however the operations were interleaved |
| `OutboxCell.PushAloneOutcome` | crates/agent_mesh/src/hub.rs:186-211 | what an undisturbed push returns and leaves behind, in terms of the state before it |
| `OutboxCell.EmptyQueueTakesAnything` | crates/agent_mesh/src/hub.rs:193-195 | in every reachable state, a live queue with nothing in it and no push under way takes a message of any size |
| `OutboxCell.Cell.Push` | crates/agent_mesh/src/hub.rs:186-211 | the program text equals its atomic steps run one after the other |
| `HubProofs.StepKeepsInv` | crates/agent_mesh/src/hub.rs:646-1119 | every step of every connection keeps the hub invariant: who holds which id, where each frame in hand may go, what each verdict and each reply rests on |
| `HubTheorems.OneLiveHolder` | crates/agent_mesh/src/hub.rs:803-847 | in every run an id owned by a running connection with a live outbox maps to that connection, and no second live connection owns it |
| `HubTheorems.SixteenIdsPerSocket` | crates/agent_mesh/src/hub.rs:793-801 | a connection owns at most 16 ids, all different, and at most 16 entries name it |
| `HubTheorems.CleanupKeepsSuccessors` | crates/agent_mesh/src/hub.rs:319-335 | a cleanup removes exactly the entries of its connection and none that a newer connection took over |
| `HubTheorems.RemovedForGood` | crates/agent_mesh/src/hub.rs:1216-1217 | after a connection's cleanup no entry ever names it again |
| `HubTheorems.RelaysAreGenuine` | crates/agent_mesh/src/hub.rs:646-775 | every relayed message in any queue is a frame received unmodified at one step of the run; at that step its connection owned the sender's id, was the registered holder if live, and had shown the token; the sender is no reserved id |
| `HubTheorems.ReservedSendersAreGenuine` | crates/agent_mesh/src/hub.rs:888-1119 | a queued envelope signed with a reserved id was made by the hub or the bridge |
| `HubTheorems.OneOutcome` | crates/agent_mesh/src/hub.rs:923-1043 | a command, response, data payload, ACK or NACK from a registered sender is queued once, handed to the bridge with at most one response, or refused and never queued; the queue belongs to a connection that registered the addressee, the response goes to the requester or to such a connection; the outcome never changes |
| `HubRouting.StepKeepsRouted` | crates/agent_mesh/src/hub.rs:888-1119 | every step keeps the frames taken on for routing exactly those from a registered sender that are to be passed on |
| `HubTraffic.TakenOnExactlyIf` | crates/agent_mesh/src/hub.rs:646-730 | in every run a received frame is taken on if and only if its connection owned the sender's id when it came in and it is a command, a response, data, or an ACK or NACK not for the hub |
| `HubTraffic.TrafficIsCounted` | crates/agent_mesh/src/hub.rs:1045-1060 | in every state the response and data counters are the numbers of response and data frames received from registered senders |
| `HubTheorems.RepliesAreTrue` | crates/agent_mesh/src/hub.rs:1003-1041 | a forwarded ACK goes only to the sender of a frame that was forwarded, and a refused frame is never queued afterwards |
| `HubTheorems.CommandsBalance` | crates/agent_mesh/src/hub.rs:629-632 | in every state the counters are the sizes of sets read off the history: commands received from registered senders, forwarded ones that asked for an ACK, refused ones; together with forwards that asked for none and commands still in a handler's hand they add up |
| `HubCounts.StepKeepsCounted` | crates/agent_mesh/src/hub.rs:888-1043 | every step keeps the counters equal to what the history of frames and verdicts says |
| `HubOrder.StepKeepsOrder` | crates/agent_mesh/src/hub.rs:646-775 | every step keeps what a connection's handler has queued in the order of the frames that caused it, the frame in hand being the newest |
| `HubTheorems.SenderOrderIsKept` | crates/agent_mesh/src/hub.rs:646-775 | what one connection's handler puts into queues, relayed frames and hub replies alike, comes in the order its frames were received, and no frame but a broadcast is relayed twice |
| `HubTheorems.BroadcastReachesAll` | crates/agent_mesh/src/hub.rs:1096-1115 | whatever else happens meanwhile, a finished broadcast has tried every node registered when it came in, but its sender, exactly once, and its copies lie exactly in the queues that accepted |
| `HubTheorems.RunGrows` | crates/agent_mesh/src/hub.rs:646-1119 | no run takes back history: frames, queued messages, verdicts and death stay |
| `HubTheorems.QueueMeetsHub` | crates/agent_mesh/src/hub.rs:866-885 | a push as the hub model sees it is what the outbox does at its last atomic operation |
| `HubService.PassedOnOutcome` | crates/agent_mesh/src/hub.rs:888-1094 | every undisturbed run of the handler of a frame that is passed on: which queue gets it unmodified, the exact envelope the sender is told (target_forwarded, NodeUnavailable, NodeNotFound, BridgeNotConfigured or nothing), all five counters, the pruned entry, the kicked connections and the bridge job, with the target's queue open, full or dead and the sender itself dead, full or its own target |
| `HubService.FrameOutcome` | crates/agent_mesh/src/hub.rs:646-1119 | every undisturbed run on every frame has exactly the effect the specification gives it: passed on, answered with a catalogue or a heartbeat ACK, refused as unregistered or as a foreign sender, registered, broadcast, ignored, or the connection dropped for an oversized or malformed first frame |
| `HubService.ResponseOutcome` | crates/agent_mesh/src/hub.rs:943-990 | every undisturbed run of a bridge job: the response with the command's correlation id, from the grid and to its sender, is queued at the requester, or at the registered holder of the id if the requester's queue does not take it |
| `HubService.NoHandlerStuck` | crates/agent_mesh/src/hub.rs:888-1119 | in every run, a handler in the middle of its work has a step of its own to take, with the push result the queue would give |
| `HubService.HandlerRunIsShort` | crates/agent_mesh/src/hub.rs:888-1119 | an undisturbed handler ends within a number of its own steps that its state bounds |
| `HubService.RegistrationOutcome` | crates/agent_mesh/src/hub.rs:732-864 | in every undisturbed run a registration takes its id and is acknowledged if and only if token, id, count and holder allow it; otherwise the sender is told which of them was wrong, nothing is taken, and a first one ends the connection; a dead or full own queue gets no reply |
| `HubCell.Cell.Insert` | crates/agent_mesh/src/hub.rs:803-843 | the registration's critical section is the model's step, and refuses exactly an id held by another live connection |
| `HubCell.Cell.Adopt` | crates/agent_mesh/src/hub.rs:845-863 | remembering the id, once, and accepting is the model's step |
| `HubCell.Cell.LookUp` | crates/agent_mesh/src/hub.rs:938-949 | choosing bridge, outbox or refusal is the model's step |
| `HubCell.Cell.PushTo` | crates/agent_mesh/src/hub.rs:866-885 | a push on one connection's bounded queue changes only that queue, returns what the queue's state says, and kicks exactly on overflow |
| `HubCell.Cell.Deliver` | crates/agent_mesh/src/hub.rs:866-885 | the push of a delivery on the target's bounded queue is the model's step: queued, target kicked, or found dead, as the queue's state has it |
| `HubCell.Cell.Settle` | crates/agent_mesh/src/hub.rs:1003-1041 | counting the outcome and choosing the reply is the model's step |
| `HubCell.Cell.PruneDead` | crates/agent_mesh/src/hub.rs:343-349 | pruning is the model's step |
| `HubCell.Cell.RemoveConnection` | crates/agent_mesh/src/hub.rs:319-335 | the cleanup loop is the model's step |
| `ClientProofs.WStepInv` | crates/agent_mesh/src/client.rs:200-331 | every step of client and hub together keeps the client's invariant |
| `ClientProofs.AnsweredOnceByItsOwn` | crates/agent_mesh/src/client.rs:200-331 | a waiter is resolved at most once, by an envelope with its own correlation id, and never by the intermediate forwarded ACK |
| `ClientProofs.HubRefusalMeansNotQueued` | crates/agent_mesh/src/client.rs:369-402 | a hub NACK as the answer to a command means that no queue ever got the frame with its correlation id and no bridge response exists |
| `ClientProofs.AnswerIsHandedOver` | crates/agent_mesh/src/client.rs:200-331 | in every run of client and hub, a final envelope read while its call waits is addressed to the client (unless the hub had to shorten its id) and resolves exactly that call, at once and for good |
| `ClientTraffic.SendsWhatItOwes` | crates/agent_mesh/src/client.rs:200-402 | each step of the client sends exactly the envelope it owes: the registration, the command with its target and correlation id, the query, the data, the heartbeat, the response of a finished job to its requester, the receipt of a data payload to its sender |
| `ClientTraffic.CommandGoesToTarget` | crates/agent_mesh/src/client.rs:369-402 | in every run `send_command` sends exactly the given command to the given node with a correlation id of its own, and any queue that holds it belongs to a connection that registered the target |
| `ClientTraffic.RefusedCommandWentNowhere` | crates/agent_mesh/src/client.rs:369-402 | in every run, if the hub's NACK is the answer to `send_command`, the hub got exactly that command, no queue did, and there is no bridge response to it |
| `ClientTraffic.RequestsAreAnsweredOnce` | crates/agent_mesh/src/client.rs:221-295 | in every run, the commands read are exactly those being executed plus those answered, each once, to its sender and with its correlation id; each data payload read has its receipt, in order, ACK if intact and NACK if not |
| `ClientTraffic.AnswerIsGenuine` | crates/agent_mesh/src/client.rs:306-331 | in every run, the answer of a call was queued for the client, is of a kind that ends a call, and came from whom it names: the hub about the client's own frame, the bridge, or a peer registered under that name when it sent it |
| `ClientCell.Cell.ResolvePending` | crates/agent_mesh/src/client.rs:306-331 | taking the pending entry and waking its waiter is the model's function |
| `ClientCell.Cell.HandleEnvelope` | crates/agent_mesh/src/client.rs:200-331 | the reader loop's body is the model's function |
| `WatchProofs.StepKeepsInv` | scripts/agent_bridge.py:712-735 | every operation of every watcher keeps the claim invariant, if removals are harmless |
| `WatchProofs.HarmlessRunsAreSpaced` | scripts/agent_bridge.py:726-735 | if every removal is timely, or every removal harmless, two deliveries of a key have claims more than thirty days apart |
| `WatchProofs.AtomicPruneIsTimely` | scripts/agent_bridge.py:726-735 | a removal right after its age test is timely |
| `WatchProofs.DeliveredAtMostOnce` | scripts/agent_bridge.py:712-723 | without removals each key is delivered at most once |
| `WatchProofs.PassClaimsItsEvents` | scripts/agent_bridge.py:1029-1047 | when a pass ends, in any run, every event it scanned has been claimed, and its claim is on disk unless a step of the run removed it; with timely removals, on disk or expired |
| `WatchProofs.SeenEventsAreClaimed` | scripts/agent_bridge.py:1029-1047 | in every run, an event a scan looked at has been claimed by someone when that pass is through, unless the watcher ended |
| `WatchProofs.WonClaimIsDelivered` | scripts/agent_bridge.py:1029-1047 | whatever the others do, a watcher that claims an unclaimed key and does not end has delivered it once it is done with it |
| `WatchProofs.RemovalIsSafeExactlyIf` | scripts/agent_bridge.py:726-735 | a removal leaves all continuations spaced if and only if the file removed is still older than the retention period or its claim has led and can lead to no delivery |
| `WatchProofs.RacingPrunesDeliverTwice` | scripts/agent_bridge.py:726-735 | a run in which two prunes race and a key is delivered twice at once |
| `ClaimStore.Claims.ClaimEvent` | scripts/agent_bridge.py:712-723 | a claim is won exactly if no file was there |
| `ClaimStore.Claims.Prune` | scripts/agent_bridge.py:726-735 | an undisturbed prune removes exactly the files older than thirty days |
| `ClaimStore.Claims.ClaimAll` | scripts/agent_bridge.py:1029-1047 | a pass delivers, once each, exactly the events not claimed before, and all are claimed after |
| `Paths.PrefixIsValid` | crates/core/src/blob.rs:228-265 | every directory on the way to a valid path has a valid path |
| `Paths.ValidPathExactlyIf` | crates/core/src/blob.rs:228-265 | a path is valid if and only if following it leads straight down, one directory per name and never back, and lengths and characters are within bounds |
| `Paths.NormalizeExactly` | crates/cli/src/blobs.rs:211-228 | a destination turns into its segments other than the empty one and ".", in order, or the root for a directory if none is left; it is refused exactly if none is left for a file or the rest is no valid path |
| `Paths.NormalIsCanonical` | crates/cli/src/blobs.rs:211-228 | a normalized destination is a valid path, or the root for a directory, and normalizing it again changes nothing |
| `Tree.OrderVisitsTree` | crates/cli/src/blobs.rs:408-459 | the stack traversal ends and visits what the recursion over the tree visits, as often |
| `Tree.ReadableExactlyIf` | crates/cli/src/blobs.rs:415-418 | the traversal finds every directory readable if and only if every directory it goes into opens |
| `TreeProofs.WalkVisitsReached` | crates/cli/src/blobs.rs:408-459 | it visits exactly the entries of directories reached through valid paths, except the directories gone into |
| `TreeProofs.WalkOnce` | crates/cli/src/blobs.rs:408-459 | no name of a directory is visited twice |
| `ScanProofs.ScanSendsExactly` | crates/cli/src/blobs.rs:408-459 | a file is sent if and only if it is a regular file found along names that make a valid relative path, with its content's id, size and mode |
| `ScanProofs.ScanPathsDistinct` | crates/cli/src/blobs.rs:408-459 | all sent files have different paths |
| `ScanProofs.ScanSkipsExactly` | crates/cli/src/blobs.rs:408-459 | exactly the other entries are recorded as skipped, each once and with its reason: not UTF-8, not a valid path, a link, or no regular file; a badly named directory stands for its whole subtree |
| `ScanProofs.ScanMakesManifest` | crates/core/src/blob.rs:370-396 | the files of a scan pass manifest validation if and only if there are at most 500000 of them |
| `Inputs.PreparedInputs.AddFile` | crates/cli/src/blobs.rs:339-405 | a file is counted and indexed whole, or refused with nothing changed; within the limits it is taken if and only if it opens and neither its announced nor its actual length goes beyond them; limits hold afterwards even if it grew while it was hashed |
| `Inputs.PreparedInputs.TakeEntry` | crates/cli/src/blobs.rs:418-455 | one entry is sent, skipped with its reason, or fails the scan, and exactly when |
| `Inputs.PreparedInputs.ReadDirectory` | crates/cli/src/blobs.rs:415-456 | reading one directory equals taking its entries in order and pushing its subdirectories |
| `Inputs.PreparedInputs.ScanDirectory` | crates/cli/src/blobs.rs:408-459 | the loop ends, fails exactly if a directory cannot be read or an entry fails, and otherwise sends the files of the walk |
| `InputScan.RunCounts` | crates/cli/src/blobs.rs:396-404 | the counters grow by the number and total size of the files sent, the skip list by the skipped entries |
| `InputScan.RunIndexes` | crates/cli/src/blobs.rs:396-404 | the index grows by exactly the ids of the files sent |
| `InputScan.FitsExactlyIf` | crates/cli/src/blobs.rs:339-405 | for files that do not change size while they are read, the visits of a tree pass if and only if every entry to be sent can be read and typed and the totals fit the limits, whatever the order |
| `InputScan.LimitsHold` | crates/cli/src/blobs.rs:339-405 | the totals of a scan are within its limits, however long files turn out to be |
| `InputScan.TakeSpec` | crates/cli/src/blobs.rs:270-325 | one input is added as the model's function says, or fails the scan; what that makes of it is in `InputScan.ScanGives` |
| `InputScan.ScanGives` | crates/cli/src/blobs.rs:270-325 | every input of a scan is a readable regular file or directory, under limits the local path itself and without limits what it leads to, with the destination given for it, the id and size of its own content or manifest, and its executable bit |
| `InputScan.SameLookSameScan` | crates/cli/src/blobs.rs:270-288 | under limits the result does not depend on what links lead to, and without limits it depends on nothing else |
| `InputScan.ScanSucceedsExactlyIf` | crates/cli/src/blobs.rs:270-405 | for files that do not change size while they are read, a scan succeeds if and only if every input has a usable destination and is a file that opens or a tree of at most 500000 files in which everything opens, and all together fit the limits |
| `InputScan.ScanInputs` | crates/cli/src/blobs.rs:270-325 | the scan of all inputs: its exact success condition, each produced input field by field, at most 1024 of them with different destinations, and the limits in every outcome |
| `InputScan.ScanIsClosed` | crates/cli/src/blobs.rs:270-325 | files and bytes are the sums over the inputs, and the index holds exactly the ids named by an input or inside a manifest |
| `Master.WriteChunkKeeps` | crates/master/src/blob_store.rs:456-710 | whatever chunk arrives, held blobs stay, only the named blob can be added, under the hash of its content, and a complete reply means it is held |
| `Master.ChunkAcceptedExactlyIf` | crates/master/src/blob_store.rs:456-710 | a chunk of a blob not held is accepted if and only if it goes on where the upload stands, has an allowed size, and, if last, completes content with the right hash; then the upload stands behind it or the blob is held |
| `Master.Store.Write` | crates/master/src/blob_store.rs:456-563 | a write keeps names true, loses only blobs the script evicts at its time, leaves other uploads alone, fails if refused and otherwise does what the chunk logic says with the store it finds |
| `Master.LackingIs` | crates/master/src/blob_store.rs:396-406 | the reply to a query is the ids asked for that are not held, without repeats |
| `Master.LackingInOrder` | crates/master/src/blob_store.rs:396-406 | the reply to a query keeps the order in which the ids were asked for |
| `Upload.ChunkLands` | crates/core/src/blob_transfer.rs:169-215 | where one more chunk leads at a master that is left alone, and what the master then has |
| `Upload.SendChunk` | crates/core/src/blob_transfer.rs:169-215 | one turn of an upload: finished only if the blob is held, otherwise strictly further |
| `Upload.UploadAll` | crates/core/src/blob_transfer.rs:281-290 | uploads taking turns in any order end; success means each blob is held or was evicted during the call; they succeed if nothing is refused and the sources are unchanged; a master left alone gets exactly the right content, if and only if every source still yields it |
| `Upload.MissingBlobs` | crates/core/src/blob_transfer.rs:148-165 | batches together report each lacking id once, every other id is held, and what is reported was lacking at the start, all short of evictions during the call; it succeeds if nothing is refused |
| `Upload.UploadInputs` | crates/cli/src/blobs.rs:510-557 | after success the master holds every indexed blob, and only blobs it lacked were sent, short of evictions during the call; success if nothing is refused and the sources are unchanged; exact success condition at a master left alone |
| `Upload.UploadTwice` | crates/cli/src/blobs.rs:510-557 | a repeated upload sends only blobs evicted during the two calls; if there were none, it sends no blob and no byte, whatever other clients add meanwhile |
| `Submission.ScanIsGood` | crates/cli/src/blobs.rs:339-405 | as long as the scanned files are unchanged, every indexed blob can be read back as scanned |
| `Submission.UploadReadsNoLinks` | crates/cli/src/blobs.rs:519-543 | after a scan under limits, the upload reads a file only if a regular file of the length and stamp scanned is at the path itself |
| `Submission.Submit` | crates/cli/src/blobs.rs:270-557 | after a successful submission the master holds, short of evictions during the call, every blob needed to rebuild every input; with unchanged files and no refusal it succeeds |
| `Destination.EnsureDir` | crates/cli/src/blobs.rs:571-595 | the retry loop ends, and success means a real directory |
| `Destination.PrepareDestination` | crates/cli/src/blobs.rs:561-613 | with others creating directories and any call failing, all proper ancestors of the result are real directories and nothing but directories was added; the target is plain if the last look was answered; exact success condition without interference |
| `Destination.TargetIsPlainExactlyIf` | crates/cli/src/blobs.rs:598-612 | the target is known to be neither link nor directory, whatever is there, if and only if the last look at it is answered |
| `CommandLine.Split` | crates/cli/src/cli_app.rs:3507-3566 | for every text, the character loop returns what the text means as a command line, however it is read; it reports an unclosed quote if and only if the text ends inside a quote |
| `CommandLine.SplitUndoesQuoting` | crates/cli/src/cli_app.rs:3507-3566 | a line of tokens made of bare characters, escapes, backslashes that escape nothing, double and single quotes, with any white space between, splits into exactly the texts of its tokens; it is refused exactly if a quote stays open or the first token is empty |
| `CommandLine.EveryTextIsALine` | crates/cli/src/cli_app.rs:3507-3566 | every text whatsoever is such a line, perhaps with an open quote at its end, so the above covers all inputs |
| `CommandLine.ArgumentsComeBack` | crates/cli/src/cli_app.rs:3507-3566 | any program and arguments, quoted and split, come back |
| `Separated.SplitUndoesJoin` | crates/cli/src/cli_app.rs:3608-3633 | joined parts come apart again at their separators |
| `Chunks.ChunkLines` | crates/cli/src/cli_app.rs:3608-3633 | the chunks are all lines in order, at most k of them, none empty, each of at most ceil(n/k) lines and all but the last of exactly that many |
| `Chunks.LinesOfText` | crates/cli/src/cli_app.rs:3614-3616 | the lines of any text: one per newline and one for what follows the last, together the text without carriage returns before newlines and without a final newline |
| `Chunks.LinesAreUnique` | crates/cli/src/cli_app.rs:3614-3616 | no other list of lines is like that |
| `Chunks.ChunkFile` | crates/cli/src/cli_app.rs:3608-3633 | the joined chunks, cut at newlines, are as many lines as the file has and together its text without carriage returns before newlines and without a final newline; at most k chunks of ceil(n/k) lines |
| `Chunks.ContentIsKeptExactlyIf` | crates/cli/src/cli_app.rs:3614-3623 | the lines the chunks are cut from, joined again, are the file's content if and only if it has no carriage return before a newline and no newline at its end |
| `Descendants.CollectLifo` | crates/agent_mesh/src/executor.rs:419-435 | the worklist ends on every process table, cyclic ones included, with exactly the transitive children, each once |
| `Descendants.CollectFifo` | scripts/agent_node.py:105-113 | the first-in-first-out worklist over the parent map does the same |
| `Descendants.SameUpToOrder` | scripts/agent_node.py:105-113 | the two results differ in order only |
| `Capped.ReadCapped` | crates/agent_mesh/src/executor.rs:466-488 | however the stream is split into reads, the first min(cap, total) bytes are kept and truncation is reported exactly if there was more |
| `Capped.ReadCappedStream` | scripts/agent_node.py:179-200 | the Python reader meets the same specification |

## Left out

- The bridge's request handlers and everything behind them: a bridge job is a step that offers one response with the request's correlation id.
- WebSocket, HTTP and REST handling, the Origin and Host checks, timers and ping scheduling: a timeout or idle drop is a loop exit that may happen at any time.
- JSON: a frame is its raw text together with what it parses to, if anything.
- Node catalogue contents, platform strings, timestamps and heartbeat times.
- `HubState::remove_node`, which no connection uses.
- Machine integers: counters are unbounded; that the byte counter cannot wrap below zero is proved.
- Connection ids count from 0 instead of 1.
- The client's reconnecting daemon loop; a fresh connection is a fresh client. Correlation ids are fresh.
- One clock for all watchers, which never goes back; claim files get the time of their creation.
- Watch: what an event is and how notifications are shown; a scan finds any events in any order.
- `default_destination` and the parsing of `LOCAL[:SANDBOX]`: the derived destination is a given.
- The bytes of a manifest: the encoding is any function of the files listed, which determine the sorted list. Hashing is any function of the content; nothing needs it to be injective.
- The place of a bridge response among later messages: it comes from a job of its own.
- Which blobs the master evicts, and its space accounting: evictions and refusals come from a script nobody controls.
- Downloads of outputs, apart from preparing the destination.
- Windows path rules and reparse points.
- The master's scheduler, task states, cluster authentication, wire codecs; the worker; 3D, rigging and desktop code.
- Capped.ReadCappedStream: does not model cancellation or the final decoding of the bytes to text.
- Destination.PrepareDestination: the state of the target is that of the moment of the last look.
