# A verified model of holler-server's concurrent state

holler-server is a hub: clients connect over WebSocket, authenticate with a token, advertise named
sessions, and operators prompt those sessions from a command line. Its state is a handful of shared
tables stepped by any number of connection tasks and processes. This project models those tables and
the protocols over them in Dafny, and proves what holds over every run and every interleaving.

| module | models |
|---|---|
| `RegistryTable`, `RegistryCalls`, `RegistryProtocol` | the live-connection table, one correlated call cut at its critical sections, and the transition system of connections and calls |
| `RegistryInvariants`, `RegistryTheorems`, `RegistryAnswers`, `RegistryWitnesses` | what every step keeps; what follows for whole runs; runs one would not expect |
| `PromptLoop` | the receive loop of a prompt, and what its outcome means |
| `Hex`, `TokenStore`, `TokenRuns`, `TokenLock` | the durable token store, the life of a token, and many processes behind one file lock |
| `Roster`, `RosterRuns` | session names, ownership, heartbeats, marked-gone rows and the prune sweep |
| `Lockout` | the pruned window of failed authentications against a count over the full history |
| `TalkLog`, `Exchange`, `SayLog`, `SayLogGap`, `SayLogOverlap` | the talk log, what it tells of one exchange, and a `say` stepped together with the registry and the log |
| `Admission` | the cap on unauthenticated connections |
| `Hub`, `HubGap` | the token store, the registry and the roster stepped together: revocation and routing |
| `Json`, `Codec`, `CodecTheorems`, `CodecFormat` | protocol v1 envelopes at the level of JSON trees, and the format key by key |
| `Redaction` | the scrubbing of `hlr_` secrets out of log text |

The objects that the program mutates are classes (`RegistryTable.Registry`, `TokenStore.Store`,
`Roster.Board`, `Lockout.Tracker`, `TalkLog.Log`, `Admission.Slots`), its loops are loops, and each of
their methods is tied to a function of the old state; the run theorems are about those functions.
Step boundaries are the mutex critical sections and await points. Clocks are integers read by each
operation, randomly drawn ids and secrets are inputs, and the keyed hash is any function.

Where the program and its own comments part ways, the model follows the program:

* A connection task's cleanup removes its token's entry whoever owns it, so a superseded task can
  unregister its successor (`RegistryTheorems.RegisteredUntilUnseated`, with a whole run in
  `RegistryWitnesses.NewestConnectionCanBeUnregistered`), and mark its successor's rows gone
  (`Hub.ReachedIff`, with a run in `HubGap.MarkedByPredecessor`).
* A delete and a revoke that fall between a connection's verification and its registration leave a session
  of a dead token (`Hub.DeletedAndRevoked`, `HubGap.DeadTokenRegistered`).
* A talk-log file that cannot be read is taken for empty, so a prompt that can still write it erases it
  (`TalkLog.PromptsAreKept`, `TalkLog.FailedReadErases`).
* Superseding a connection closes its channel only once no call holds a clone of its sender
  (`RegistryTheorems.ClosedExactlyWhenUnreferenced`, `RegistryWitnesses.SupersededConnectionCanStayOpen`).
* The sweep is "memory hygiene" only when rows are kept at least until they are gone, which the
  configuration reader does not check (`RosterRuns.SweepInvisibleIff`, and `RosterRuns.OwnershipIff` for
  the ownership of names), and a ping can revive a row that the sweep would have dropped
  (`RosterRuns.SweepsUnnoticedIff`, `RosterRuns.PingAfterSweepShows`).
* An expired lock takes the whole entry with it, failures recorded since included
  (`Lockout.CheckTracks`, `Lockout.FirstDiscardShows`; `Lockout.AgreementIff` says for which parameters).
* An end of an exchange that reaches a prompt's queue before its frame is out is lost if the connection
  ends in between (`RegistryTheorems.QueuedEndIsDelivered` says exactly when,
  `RegistryWitnesses.QueuedEndCanBeLost` is a run).
* A reply is logged under the session it names itself, so a `say` can return text that its own entry
  lacks (`SayLog.SayAgreesWithLog` says exactly when; `SayLogGap.ReturnedButNotLogged` is a run), and two
  connections of one token may record in one order and resolve in another (`SayLogOverlap.OverlapDisagrees`).
* The version of a frame is compared after a cast to 32 bits (`CodecTheorems.VersionIsTruncated`),
  bodies are read from arrays as well as objects (`CodecTheorems.ArrayBodiesAreRead`), and `from_hex`
  takes capitals and a plus sign (`Hex.RoundTripBack`).

## Model

| member | source | states |
|---|---|---|
| RegistryTable.Registry.Insert | src/wire/registry.rs:264-299 | The token's entry becomes a fresh one with nothing pending, and the displaced entry is handed back whole; every other token's entry stays. |
| RegistryTable.Registry.Remove | src/wire/registry.rs:316-319 | Whatever entry the token has goes, whichever connection owns it. |
| RegistryTable.Registry.SetHostname | src/wire/registry.rs:301-306 | Only the hostname of a registered entry changes, and nothing pending in it is lost. |
| RegistryTable.Registry.Forget | src/wire/registry.rs:728-737 | The slot is pending no more on that token; every other slot and token stays. |
| RegistryTable.Registry.Register | src/wire/registry.rs:627-637 | A waiter is filed under kind and id in the entry registered at that moment, or nothing changes and the call is told so. |
| RegistryTable.Registry.Resolve | src/wire/registry.rs:744-775 | Who receives a frame: the waiter of its slot on its token; a one-shot sender is taken out, a prompt's stays. |
| RegistryTable.Registry.CancelPendingPromptsForSession | src/wire/registry.rs:907-920 | The loop over the pending prompts wakes exactly those of the session, and leaves the table as it was. |
| RegistryTable.WaitingExactly | src/wire/registry.rs:907-920 | Who is woken: exactly the calls filed under a prompt slot of the token for that session. |
| PromptLoop.Run | src/wire/registry.rs:658-725 | The outcome is the verdict of the event queue, defined without a loop: the first terminal event decides, `Done` carries the text and chunks of every reply up to it in order, and only a queue with no terminal event is a disconnect. |
| PromptLoop.DoneText | src/wire/registry.rs:672-697 | For any queue that ends with a final reply: the returned text is the concatenation, in order, of each reply's text (or nothing) followed by its chunks. |
| PromptLoop.OneReply | src/wire/registry.rs:681-697 | A single final reply returns its text followed by its chunks, and its exit code. |
| PromptLoop.PiecesSpell | src/wire/registry.rs:681-684 | The pieces the loop collects from a reply spell its text and then its chunks. |
| PromptLoop.VerdictUnique | src/wire/registry.rs:658-725 | Order of arrival alone fixes the outcome. |
| PromptLoop.AbsorbJudges | src/wire/registry.rs:672-712 | One turn of the loop stops exactly on a terminal event, and then with the verdict of the whole queue, read or not. |
| RegistryCalls.DoKeepsCall | src/wire/registry.rs:348-414 | Every step of every kind of call keeps this: what it received was handled on its token after its waiter was filed, and what it decided follows from that. |
| RegistryCalls.QueueGrows | src/wire/registry.rs:744-775 | Events queued behind the one a prompt stopped at change nothing about its outcome. |
| RegistryInvariants.InvStep | src/wire/registry.rs:185-319 | The registry invariant (ownership of entries, distinct ids, waiters of unresolved calls only, justified outcomes, sender counts, clones of known connections) survives every action. |
| RegistryInvariants.InvRun | src/wire/registry.rs:185-319 | So it holds in every state of every interleaving of connects, supersedes, removes, frames and calls. |
| RegistryTheorems.PendingOnce | src/wire/registry.rs:185-220 | An id is pending in at most one of the five maps of at most one entry. |
| RegistryTheorems.FanOutReachesOneCall | src/wire/connection.rs:557-579 | Offering an `error` to three maps, or an `ack` to two, reaches at most one call, and the same one at any two moments of a run. |
| RegistryTheorems.OutcomeIsFinal | src/wire/registry.rs:789-899 | A call that has returned keeps the outcome it returned. |
| RegistryTheorems.NeverStuck | src/wire/registry.rs:348-414 | In every reachable state a call that has not returned has a step it can take. |
| RegistryTheorems.TurnsAreBounded | src/wire/registry.rs:658-725 | A call takes at most six steps of its own and one for each event queued, so with `NeverStuck` it returns, once, with one outcome. |
| RegistryTheorems.NothingLeftPending | src/wire/registry.rs:728-737 | Once a call has returned, its id is in no pending map of any registered entry. |
| RegistryTheorems.SuccessWasAnswered | src/wire/registry.rs:348-414 | A successful ping, query, interrupt or answer rests on a frame with its id and of a matching type, handled on its token after its waiter was filed. |
| RegistryAnswers.AnswerIsReported | src/wire/registry.rs:384-414 | An answer that reached a ping, query, interrupt or answer is the outcome it reports (connected, the body, the failure, acked) if and only if the call had not given up by then and no later send finds the connection's task ended; otherwise it reports a disconnect or a timeout. |
| RegistryAnswers.DisconnectedIffUnanswered | src/wire/registry.rs:490-558 | A ping or query reports a disconnect if and only if no answer reached it while it waited. |
| RegistryAnswers.AckedInterruptWoke | src/wire/registry.rs:828-843 | An interrupt reports success only after the step that wakes the prompts of its session. |
| RegistryAnswers.HangupIff | src/wire/registry.rs:844-865 | A waiting call with nothing to receive sees its channel closed if and only if the entry that took its waiter is registered no more and dropped. |
| RegistryTheorems.FrameReachesItsCall | src/wire/registry.rs:744-775 | A frame reaches a call exactly if it comes on a connection of the call's token, carries its id, is offered to its kind and finds its waiter filed; then replies and errors join a prompt's queue, in order, and an answer fills a one-shot channel; no other call notices. |
| RegistryTheorems.FilingCounts | src/wire/registry.rs:627-637 | A call files its waiter in whatever entry is registered at that moment, or gives up as disconnected when there is none. |
| RegistryTheorems.GreetingNamesItsEntry | src/wire/registry.rs:301-306 | A greeting sets the hostname of its token's entry, if there is one, and changes nothing else. |
| RegistryTheorems.FramesOffered | src/wire/connection.rs:533-684 | Which calls each type of frame is offered to. |
| RegistryTheorems.RequestGoesOut | src/wire/registry.rs:637-656 | A send puts the call's request at the end of the queue of the connection it looked up, or finds its task ended and gives up. |
| RegistryTheorems.PromptToldTheTruth | src/wire/registry.rs:658-725 | A prompt that did not report a disconnect stopped at the first terminal event of its queue with the text up to there, and each reply or error up to there was sent to its id on its token. |
| RegistryTheorems.QueuedEndIsDelivered | src/wire/registry.rs:637-725 | A final reply, error or cancellation that is in the queue is lost to a disconnect if and only if the call had given up by then, or its frame is still to be sent and the send finds the connection's task ended. |
| RegistryTheorems.SettledForGood | src/wire/registry.rs:658-725 | One that is in the queue while the call listens is delivered whatever then happens to entry, connection or timer. |
| RegistryWitnesses.QueuedEndCanBeLost | src/wire/registry.rs:637-656 | A run in which an acked interrupt cancels a prompt between the filing of its waiter and the sending of its frame, the connection ends, and the prompt reports a disconnect. |
| RegistryTheorems.LostOrLate | src/wire/registry.rs:789-899 | At the very step at which an interrupt or answer returns: `TimedOut` if and only if it was at its check and the token was registered then; `Disconnected` only if the token was unregistered at lookup, filing or check, the entry absent or replaced while it waited, or the task ended at the send. |
| RegistryTheorems.CancelledByItsSession | src/wire/registry.rs:828-843 | A prompt ends cancelled only if an interrupt of its token and session, acked by the client, woke it at a step at which its waiter was filed, and that interrupt reported success. |
| RegistryTheorems.InterruptIsolation | src/wire/registry.rs:907-939 | An acked interrupt adds one event, a cancellation, to each prompt whose waiter is filed for its session in its token's entry, and none to any other call. |
| RegistryTheorems.SenderAccounting | src/wire/registry.rs:264-319 | Live senders of a connection's channel are one for its own entry plus one per call in flight that cloned it. |
| RegistryTheorems.ClosedExactlyWhenUnreferenced | src/wire/connection.rs:367-377 | A drained session loop sees its channel closed if and only if its entry is gone and no call holds a clone. |
| RegistryTheorems.NoEntryOutlivesItsTask | src/wire/connection.rs:391-394 | A registered entry's task has not yet cleaned up. |
| RegistryTheorems.RegisteredUntilUnseated | src/wire/connection.rs:294-316 | Over runs: a connection that was made is registered if and only if, since then, its token was not revoked, no other connection of the token was made, and no connection of the token cleaned up. |
| RegistryTheorems.RegisteredIffSeated | src/wire/registry.rs:264-319 | A token is registered if and only if some connection of it was made and nothing of the kind happened since. |
| RegistryWitnesses.NewestConnectionCanBeUnregistered | src/wire/connection.rs:391 | A run in which the newest connection is alive and unregistered, by the cleanup of the one it superseded. |
| RegistryWitnesses.SupersededConnectionCanStayOpen | src/wire/registry.rs:618-637 | A run in which a superseded connection has read its notice and its channel stays open, because a call looked up the old sender and filed with the new entry. |
| Hex.ToHex | src/token/mod.rs:710-716 | The loop writes the encoding of the bytes. |
| Hex.OddIsRejected | src/token/mod.rs:718-726 | A text of odd length is no byte string. |
| Hex.DigitCodes | src/token/mod.rs:710-726 | What each digit is worth and how it is written, by its code. |
| Hex.PairsRead | src/token/mod.rs:718-726 | Which pairs of characters are read, and as what: two digits, high one first, or a plus sign and one digit. |
| Hex.ReadPairByPair | src/token/mod.rs:718-726 | A text is read as its pairs, in order, from its start. |
| Hex.ReadIfPairsAre | src/token/mod.rs:718-726 | A text of even length all of whose pairs are read is read. |
| Hex.RoundTrip | src/token/mod.rs:710-726 | Reading what was written gives the bytes back, for every byte string. |
| Hex.EncodedInjective | src/token/mod.rs:710-716 | Distinct byte strings are written differently. |
| Hex.RoundTripBack | src/token/mod.rs:718-726 | What is accepted is written back unchanged if and only if it has lower-case digits throughout. |
| TokenStore.VerifyMatches | src/token/mod.rs:730-749 | A stored hash accepts exactly the secrets that hash alike. |
| TokenStore.MintCases | src/token/mod.rs:436-473 | The new record field by field, or the refusal without a pepper. |
| TokenStore.DeleteCases | src/token/mod.rs:493-514 | A bound token becomes revoked and loses its credential, any other becomes invalidated, each told as such; an unknown one is refused. |
| TokenStore.RedeemCases | src/token/mod.rs:538-585 | Each refusal for its own reason, expiry included at its very instant, and the bound record field by field. |
| TokenStore.VerifyCases | src/token/mod.rs:612-658 | Each refusal for its own reason, and what a success changes and reports. |
| TokenStore.Store.Find | src/token/mod.rs:493-514 | The search loop finds the first record with the id, or none. |
| TokenStore.Store.MintToken | src/token/mod.rs:424-473 | One new unused record at the end, or a refusal and nothing. |
| TokenStore.Store.DeleteToken | src/token/mod.rs:493-514 | Bound becomes revoked and loses its credential; anything else, revoked included, becomes invalidated. |
| TokenStore.Store.RedeemToken | src/token/mod.rs:523-585 | The first record of the id, if unused, unexpired and with that secret, is bound; each other case has its own refusal and changes nothing. |
| TokenStore.Store.VerifyCredential | src/token/mod.rs:598-658 | Only a bound record with that credential verifies, and only its last-seen time changes. |
| TokenRuns.StoreExtends | src/token/mod.rs:403-416 | Over any operations no record is removed, reordered, renamed or made younger: invalidated and revoked are never left. |
| TokenRuns.OneRecordPerMint | src/token/mod.rs:463-467 | There are exactly as many records as successful mints. |
| TokenRuns.CredentialIffBound | src/token/mod.rs:493-584 | A credential is on file if and only if the token is bound, and then with its client and machine. |
| TokenRuns.RedeemedOnce | src/token/mod.rs:538-584 | Of all redeems of a token over a run at most one succeeds. |
| TokenRuns.DeletedForGood | src/token/mod.rs:493-514 | After a delete no redeem or verify of the token succeeds. |
| TokenRuns.DeleteMarks | src/token/mod.rs:493-514 | Over runs: a delete writes and tells revoked for a token that was bound and invalidated for any other, its credential is gone, and nothing else changes. |
| TokenRuns.RefusedAfterDelete | src/token/mod.rs:545-630 | Every later redeem or verify with a pepper and a working disk is refused, as revoked or invalidated according to the last delete. |
| TokenRuns.FailedTurn | src/token/mod.rs:365-388 | A turn whose file could not be read or written changes nothing and says so. |
| TokenRuns.RecordsAreMinted | src/token/mod.rs:436-473 | Every record was written by the mint that answered for it, and still has its secret hash and expiry. |
| TokenRuns.MintedStays | src/token/mod.rs:436-473 | What a successful mint wrote is on file at its own place ever after. |
| TokenRuns.RedeemedInTime | src/token/mod.rs:224-234 | A redeem succeeds only for a minted token, with a secret that hashes like the minted one, strictly before the minted expiry. |
| TokenRuns.BoundWasRedeemed | src/token/mod.rs:538-584 | A bound record was bound by one earlier successful redeem, and carries that redeem's credential hash, client and machine. |
| TokenRuns.VerifiedAfterRedeem | src/token/mod.rs:612-658 | A successful verify rests on an earlier successful redeem of the token with a credential that hashes alike, reports that redeem's client and machine, and has no delete of the token before it. |
| TokenRuns.OnlyTheCredentialVerifies | src/token/mod.rs:730-749 | With one pepper and a hash without collisions, only the credential that was handed out verifies. |
| TokenLock.SerialStep | src/token/mod.rs:403-416 | Lock, load, work, save and unlock, each as a step of any process, keep the store equal to the sequential run of the completed operations. |
| TokenLock.Serializable | src/token/mod.rs:403-416 | In every interleaving the file is the result of the completed operations one by one in lock order, and each process holds the answer that run gives it. |
| TokenLock.Progress | src/token/mod.rs:403-416 | A process inside can always go on, and comes out letting go of the lock. |
| TokenLock.LockFreeWhenEmpty | src/token/mod.rs:403-416 | The lock is granted if and only if nobody is inside. |
| TokenLock.NoMintLost | src/token/mod.rs:463-467 | As many records are on file as processes were told their mint succeeded. |
| TokenLock.OneRedeemWins | src/token/mod.rs:545-583 | Of any number of processes racing to redeem a token at most one is told it succeeded. |
| Roster.Board.AdvertiseWithMode | src/wire/roster.rs:285-323 | A name held by another client's row that is not gone is refused and nothing changes; otherwise the row is replaced whole, unblocked and unmarked. |
| Roster.Board.TouchClient | src/wire/roster.rs:343-350 | Every row of the client, and no other, is refreshed. |
| Roster.Board.SetBlockedFlag | src/wire/roster.rs:359-364 | Only the named row's flag changes; an unknown name changes nothing. |
| Roster.Board.ResolveSession | src/wire/roster.rs:396-406 | The owner of the name's row unless that row is missing or gone. |
| Roster.Board.MarkClientGone | src/wire/roster.rs:381-388 | Every row of the client, and no other, is marked. |
| Roster.Board.PruneRows | src/wire/roster.rs:448-452 | Exactly the rows younger than the prune threshold stay. |
| Roster.Board.LiveCount | src/wire/roster.rs:413-421 | The number of names whose row is not gone. |
| Roster.Board.Snapshot | src/wire/roster.rs:424-442 | The table's rows, one for each name, in strict order of name. |
| Roster.StateOnTheClock | src/wire/roster.rs:181-193 | Gone if and only if marked or the gone threshold has passed since the row was seen; reconnecting if and only if unmarked and between the two thresholds; connected otherwise. |
| Roster.ConflictOnTheClock | src/wire/roster.rs:285-310 | An advertisement is refused if and only if another client's row under the name is unmarked and was seen less than the gone threshold ago, and names that client. |
| Roster.RowByRow | src/wire/roster.rs:285-452 | What each operation does to each row, field by field; rows come only by an advertisement and go only by a sweep, at the prune threshold. |
| Roster.LessAtFirstDifference | src/wire/roster.rs:440 | Names are ordered as in a dictionary: the first difference decides, and a prefix comes first. |
| Roster.SnapshotShows | src/wire/roster.rs:424-442 | A snapshot shows every row, field by field. |
| Roster.SnapshotUnique | src/wire/roster.rs:424-442 | That determines the snapshot, whatever order the rows are collected in. |
| Roster.CountAgrees | src/wire/roster.rs:413-442 | The live count is the number of snapshot rows not shown as gone. |
| Roster.ResolveAgrees | src/wire/roster.rs:396-442 | A name resolves if and only if its snapshot row is not gone. |
| RosterRuns.RowNamesLastAdvertiser | src/wire/roster.rs:396-406 | A resolved session is the last client whose advertisement of the name went through. |
| RosterRuns.NameChangesHandsWhenGone | src/wire/roster.rs:285-323 | With the prune threshold no shorter than the gone threshold, a name leaves its owner only after a step at which the owner's row was gone. |
| RosterRuns.ShortPruneLosesName | src/wire/roster.rs:122-138 | Under every configuration with a prune threshold shorter than the gone threshold, a run in which a live row loses its name to another client. |
| RosterRuns.OwnershipIff | src/wire/roster.rs:285-323 | Over all runs names change hands only over gone rows, if and only if the prune threshold is no shorter than the gone threshold. |
| RosterRuns.StateOnlyAdvances | src/wire/roster.rs:181-193 | Between two moments of a run with no ping of the owner and no advertisement of the name, under any mix of marks, flags, sweeps and other clients' operations, a row's state only moves forward, for every configuration. |
| RosterRuns.SilentOwnerIsShown | src/wire/roster.rs:181-193 | An unmarked owner silent since its last beat is shown by every snapshot as connected, then reconnecting, then gone, at exactly the two thresholds after the beat, whatever else happens. |
| RosterRuns.HeartbeatKeepsRow | src/wire/roster.rs:343-350 | A row whose owner pings faster than all three thresholds is neither taken over nor pruned, whatever else happens. |
| RosterRuns.HeartbeatKeepsConnected | src/wire/connection.rs:540-553 | And it is connected, and resolves to its owner, at every instant within those thresholds of the last ping. |
| RosterRuns.BeatingResolvesIff | src/wire/roster.rs:381-406 | A session whose owner keeps beating resolves to it if and only if its rows were not marked since its last successful advertisement of the name. |
| RosterRuns.MarkedStaysGone | src/wire/roster.rs:381-388 | A marked row stays gone through any mix of operations until its name is advertised again. |
| RosterRuns.MarkedNeverResolves | src/wire/connection.rs:391-394 | From a certain close to the next advertisement the session resolves to nobody, at any clock. |
| RosterRuns.PruneIsNeutral | src/wire/roster.rs:448-452 | A run with sweeps at any times has the same table as the run without, but for rows that are gone, under three stated conditions. |
| RosterRuns.HiddenRowsDoNotShow | src/wire/roster.rs:396-452 | A table with gone rows missing answers every resolution, conflict and count, and shows every remaining row, as the full one does. |
| RosterRuns.PruneUnobservable | src/wire/roster.rs:396-452 | So resolution, live counts, conflicts and the remaining snapshot rows are the same at every clock from the last sweep on. |
| RosterRuns.SweepInvisibleIff | src/wire/roster.rs:122-138 | A sweep can never be noticed if and only if the prune threshold is no shorter than the gone threshold. |
| RosterRuns.TouchRevealsOrphans | src/wire/roster.rs:343-350 | A ping makes the two runs differ if and only if its owner has a dropped row that was not marked gone. |
| RosterRuns.PingAfterSweepShows | src/wire/roster.rs:343-350 | Under every configuration in which rows can be live, a run from an empty roster (advertise, sweep, ping by the owner) that a sweep changes. |
| RosterRuns.SweepsShowIff | src/wire/roster.rs:448-452 | Without the condition on pings, sweeps go unnoticed over all runs if and only if no row is ever live. |
| RosterRuns.SweepsUnnoticedIff | src/wire/roster.rs:343-452 | For one run, with rows kept until they are gone and clocks in order: sweeps go unnoticed after every prefix if and only if no owner of a dropped, unmarked row pings. |
| Lockout.Tracker.IsLockedOut | src/wire/lockout.rs:119-132 | Whether the address is locked, an expired lock taking its whole entry with it; other addresses untouched. |
| Lockout.Tracker.RecordFailure | src/wire/lockout.rs:140-161 | Failures outside the window go, the new one is counted, and a lock starts if and only if none reaches beyond now and the failures less than a window old on the clock are enough; other addresses untouched. |
| Lockout.PruningEarly | src/wire/lockout.rs:148-150 | What has left the window does not come back, so pruning early changes no later count. |
| Lockout.Tracker.Retain | src/wire/lockout.rs:148-149 | The retain loop keeps exactly the failures less than a window old on the clock, in order. |
| Lockout.RecordTracks | src/wire/lockout.rs:140-161 | A failure triggers in the tracker if and only if the count over the full history says so, and leaves a faithful entry. |
| Lockout.FailureTriggersIff | src/wire/lockout.rs:140-161 | Over every ordered history a failure locks the address if and only if no lock reaches beyond it and it makes, with the failures `t` on file for which now < t + window, enough. |
| Lockout.PolicyTriggersIff | src/wire/lockout.rs:140-161 | The count over the full history triggers by the same arithmetic over all the failures counted since the last lock. |
| Lockout.CountsForAWindow | src/wire/lockout.rs:148 | A failure counts until just before it is a window old. |
| Lockout.CheckTracks | src/wire/lockout.rs:119-132 | A check answers as the full history does, and leaves a faithful entry if and only if it discards no failure that still counts. |
| Lockout.TrackerFollowsPolicy | src/wire/lockout.rs:119-161 | Over every history without such a check, every failure triggers and every check locks exactly when the full history says so. |
| Lockout.PromptCheckDiscardsNothing | src/wire/lockout.rs:119-132 | If every failure after the end of a lock has a check before it that came after that end too, no check ever discards a failure that counts. |
| Lockout.PromptChecksAgree | src/wire/lockout.rs:119-161 | Over every such ordered history the tracker answers every event as the full history does. |
| Lockout.FirstDiscardShows | src/wire/lockout.rs:124-127 | The first check of a history that does discard is noticed: some further failures at that instant lock under the policy and not under the tracker. |
| Lockout.LockAndFailDiscards | src/wire/connection.rs:165-185 | A history from an empty tracker in which that happens, for every threshold of two or more and every window, and in which every failure's own connection was checked: arrivals, a lock, one more failure as it ends, and a newcomer's check. |
| Lockout.AgreementIff | src/wire/lockout.rs:119-161 | The tracker and the full history disagree over some ordered history, and over one in which each failure's connection was checked first, if and only if the threshold is at least two and the window is not empty. |
| Lockout.LockIsNeverExtended | src/wire/lockout.rs:140-147 | A lock lasts exactly its duration, and nothing during it is counted. |
| Lockout.AddressesAreIndependent | src/wire/lockout.rs:119-161 | What the shared map holds for an address depends on that address's own events alone. |
| TalkLog.StaysInDirectory | src/wire/talklog.rs:87-104 | No session name makes a file name with a separator, or one of the two directory names. |
| TalkLog.SafeCodes | src/wire/talklog.rs:93-104 | The characters a file name keeps, by their codes. |
| TalkLog.FileNameIs | src/wire/talklog.rs:93-104 | The file name character by character, and its ending. |
| TalkLog.SharedFileIff | src/wire/talklog.rs:93-104 | Two sessions share a file if and only if they have equal length and differ only where both are underscores or unsafe. |
| TalkLog.SafeNamesKeepApart | src/wire/talklog.rs:93-104 | Names made of safe characters never share one. |
| TalkLog.Log.RecordPrompt | src/wire/talklog.rs:110-138 | A new entry without replies after what could be loaded of its session's file, if the save succeeds; a failed load is taken for an empty file. Other files untouched. |
| TalkLog.Log.RecordReply | src/wire/talklog.rs:144-160 | The reply joins the first entry of its id in the file of the session it names; with no such entry nothing changes. |
| TalkLog.FindEntry | src/wire/talklog.rs:147 | The search loop finds the first entry with the id, or none. |
| TalkLog.FilesAreIndependent | src/wire/talklog.rs:106-180 | What a session's file holds is settled by the appends saved to it, in order, and by what each could load: failed saves and other files leave no trace. |
| TalkLog.StrayRepliesAreDropped | src/wire/talklog.rs:140-149 | An id never prompted in a file has no entry there, however many replies name it. |
| TalkLog.EntryIsHistory | src/wire/talklog.rs:110-160 | After any appends to any files, a saved prompt's entry is there if and only if no later prompt rewrote the file unable to load it, and then holds exactly the replies to its id loaded and saved in its file since, in order. |
| TalkLog.OneExchange | src/wire/talklog.rs:125-160 | A prompt and one reply leave one entry with one reply, field by field, times included. |
| TalkLog.FailedReadErases | src/wire/talklog.rs:110-138 | Two prompts of one file, the second of which cannot load it and can save it: the first one's entry is gone. |
| TalkLog.PromptsAreKept | src/wire/talklog.rs:110-180 | A file lists what it had and then its saved prompts, oldest first, none lost, reordered or rewritten, if and only if no prompt unable to load it rewrote it while it held something. |
| SayLog.LinkedOther | src/wire/connection.rs:657-668 | Every registry step keeps the link between a prompt's queue and the replies recorded for it: a prefix, and all but the one in hand while the waiter is filed. |
| SayLog.LinkedNote | src/wire/connection.rs:665-666 | Recording a reply keeps it one ahead of the queue until its own connection resolves it. |
| SayLog.InLogNote | src/wire/talklog.rs:144-160 | Recording a reply adds it to its prompt's entry if it names a session of the same file, loaded and saved, and otherwise leaves that entry alone. |
| SayLog.JoinedRun | src/wire/connection.rs:634-668 | From the moment a prompt is asked, its queue is a prefix of the replies recorded for it, if those come on its token, after it is filed, and one at a time, over however many connections. |
| SayLog.LoggedRun | src/wire/control.rs:493-525 | In every run, with no hypothesis: a prompt has an entry if and only if its own save succeeded and no later prompt rewrote its file unable to load it, and the entry holds exactly the replies recorded since that landed in its file. |
| SayLog.SaidWasRecorded | src/wire/connection.rs:665-668 | In every run, with no hypothesis: no reply reaches a prompt's queue that was not recorded first. |
| Exchange.TellsIff | src/wire/talklog.rs:144-160 | An entry that holds the replies that landed tells the whole exchange if the final reply and every reply with text landed, and, without a second final reply, only if. |
| SayLog.SayHeard | src/wire/registry.rs:610-726 | A returned text is the concatenation of the recorded replies up to the first final one. |
| SayLog.SayAgreesWithLog | src/wire/control.rs:493-525 | The entry has a prefix of replies ending at a first final one that spells the returned text, if and (as long as no second final reply is recorded) only if the prompt was saved, its file not wiped since, and the final reply and every reply with text loaded and saved in it. |
| SayLogGap.ReturnedButNotLogged | src/wire/connection.rs:665-668 | A run that meets every other hypothesis, in which `say` returns a text and its entry has no reply. |
| SayLogOverlap.OverlapDisagrees | src/wire/connection.rs:634-668 | A run in which all is saved to the prompt's file on the prompt's token, two connections handle replies at the same time, and the returned text is not what the entry tells. |
| Admission.Slots.HandleConnection | src/wire/connection.rs:159-291 | On every exit path the connection's one permit is back, and a session is reached only by a verified `auth`. |
| Admission.Slots.TryAcquire | src/wire/mod.rs:264-282 | A permit is granted exactly when one is free, and permits are conserved. |
| Admission.Slots.HandleFirst | src/wire/connection.rs:165-291 | Every exit before the session still owns the permit; only a verified `auth` has dropped it. |
| Admission.InvStep | src/wire/mod.rs:264-290 | Every step of every task keeps the books: free slots plus owned permits are the cap, and owners are the connections not yet authenticated. |
| Admission.PermitsConserved | src/wire/mod.rs:264-290 | So at every moment of every run. |
| Admission.HeldUntilAuthenticated | src/wire/connection.rs:159-291 | A permit is held if and only if the connection is accepted and neither authenticated nor gone. |
| Admission.CapHolds | src/wire/mod.rs:264-290 | Unauthenticated connections never exceed the cap, and a socket is turned away if and only if they have reached it. |
| Admission.GivenBackForGood | src/wire/connection.rs:286-291 | A permit given back is never held again by that connection. |
| Admission.LiveWasVerified | src/wire/connection.rs:254-291 | A session is live only if its own credential was verified earlier in the run. |
| Admission.GoneForItsReason | src/wire/connection.rs:159-291 | Over every run each way out has its one cause, in both directions: the cap, the lockout, the handshake, the first frame, a join, a bad or refused credential, the greeting, or the end of the session. |
| Admission.LockedOutGetsNowhere | src/wire/connection.rs:165-173 | A connection whose address is locked out is gone from then on, with its permit back. |
| Admission.LiveCameThrough | src/wire/connection.rs:159-291 | A live session went through acceptance, the lockout check, the handshake, an `auth` frame, its verification and the release of its permit, in that order. |
| Admission.JoinCameThrough | src/wire/connection.rs:159-240 | A join is answered only after the same way in, up to a `join` frame. |
| Hub.HubRun | src/wire/connection.rs:250-394 | In every interleaving of token store, registry and roster: every registered connection verified its token's credential at an earlier turn of the store, and every mark on the roster has its cause in a cleanup of a connection of the token or a revoke. |
| Hub.DeletedAndRevoked | src/wire/control.rs:573-582 | After a delete and a revoke of a token, none of its connections is ever registered again if and only if none registers after the revoke; and any that does verified its credential before the delete. |
| HubGap.DeadTokenRegistered | src/wire/connection.rs:250-300 | A run in which a token is deleted and revoked between a connection's verification and its registration, and the session of the dead token is registered and runs. |
| Hub.ReachedIff | src/wire/connection.rs:391-394 | A session whose client keeps beating is reached on a given connection if and only if nothing unseated that connection and no mark hit the token's rows since the name was last advertised; and every mark comes from a cleanup of the token's connections or a revoke. |
| HubGap.MarkedByPredecessor | src/wire/connection.rs:391-394 | A run in which the newest connection is alive, registered and has just advertised, and its session resolves to nobody at any clock, because its predecessor's close marked the token's rows. |
| Codec.WireNames | src/proto/mod.rs:546-595 | The type names are a bijection. |
| CodecFormat.TypeNames | src/proto/mod.rs:570-590 | The sixteen names, spelt out. |
| CodecFormat.FieldTypes | src/proto/mod.rs:177-356 | What each type of field accepts and as what, absent and null included. |
| CodecFormat.NumberRanges | src/proto/mod.rs:497-498 | The ranges of the numbers, and the cast of the version. |
| CodecFormat.TextLists | src/proto/mod.rs:201-242 | Lists of texts are read all or nothing, and a missing one is empty. |
| CodecFormat.Roles | src/proto/mod.rs:48-56 | The two roles, by name. |
| CodecFormat.EnvelopeWritten | src/proto/mod.rs:122-137 | An envelope is six keys, with these values. |
| CodecFormat.FlattenedWritten | src/proto/mod.rs:253-257 | A `query_ok` body is its fields beside `cmd`, which they override; nothing but an object or null can be there. |
| CodecFormat.JoinRead | src/proto/mod.rs:177-180 | What is read of a `join` body, key by key, with its defaults and its failures. |
| CodecFormat.JoinWritten | src/proto/mod.rs:177-180 | What is written of a `join` body, key by key. |
| CodecFormat.JoinOkRead | src/proto/mod.rs:185-188 | What is read of a `join_ok` body, key by key, with its defaults and its failures. |
| CodecFormat.JoinOkWritten | src/proto/mod.rs:185-188 | What is written of a `join_ok` body, key by key. |
| CodecFormat.InterruptRead | src/proto/mod.rs:284-286 | What is read of a `interrupt` body, key by key, with its defaults and its failures. |
| CodecFormat.InterruptWritten | src/proto/mod.rs:284-286 | What is written of a `interrupt` body, key by key. |
| CodecFormat.AnswerRead | src/proto/mod.rs:297-300 | What is read of a `answer` body, key by key, with its defaults and its failures. |
| CodecFormat.AnswerWritten | src/proto/mod.rs:297-300 | What is written of a `answer` body, key by key. |
| CodecFormat.PingRead | src/proto/mod.rs:323-326 | What is read of a `ping` body, key by key, with its defaults and its failures. |
| CodecFormat.PingWritten | src/proto/mod.rs:323-326 | What is written of a `ping` body, key by key. |
| CodecFormat.PongRead | src/proto/mod.rs:330-333 | What is read of a `pong` body, key by key, with its defaults and its failures. |
| CodecFormat.PongWritten | src/proto/mod.rs:330-333 | What is written of a `pong` body, key by key. |
| CodecFormat.AckRead | src/proto/mod.rs:343-346 | What is read of a `ack` body, key by key, with its defaults and its failures. |
| CodecFormat.AckWritten | src/proto/mod.rs:343-346 | What is written of a `ack` body, key by key. |
| CodecFormat.ErrorRead | src/proto/mod.rs:350-356 | What is read of a `error` body, key by key, with its defaults and its failures. |
| CodecFormat.ErrorWritten | src/proto/mod.rs:350-356 | What is written of a `error` body, key by key. |
| CodecFormat.AuthRead | src/proto/mod.rs:194-196 | What is read of a `auth` body, key by key, with its defaults and its failures. |
| CodecFormat.AuthWritten | src/proto/mod.rs:194-196 | What is written of a `auth` body, key by key. |
| CodecFormat.PresenceRead | src/proto/mod.rs:306-308 | What is read of a `presence` body, key by key, with its defaults and its failures. |
| CodecFormat.PresenceWritten | src/proto/mod.rs:306-308 | What is written of a `presence` body, key by key. |
| CodecFormat.SessionBlockedRead | src/proto/mod.rs:316-319 | What is read of a `session_blocked` body, key by key, with its defaults and its failures. |
| CodecFormat.SessionBlockedWritten | src/proto/mod.rs:316-319 | What is written of a `session_blocked` body, key by key. |
| CodecFormat.PromptRead | src/proto/mod.rs:261-266 | What is read of a `prompt` body, key by key, with its defaults and its failures. |
| CodecFormat.PromptWritten | src/proto/mod.rs:261-266 | What is written of a `prompt` body, key by key. |
| CodecFormat.QueryRead | src/proto/mod.rs:238-242 | What is read of a `query` body, key by key, with its defaults and its failures. |
| CodecFormat.QueryWritten | src/proto/mod.rs:238-242 | What is written of a `query` body, key by key. |
| CodecFormat.QueryOkRead | src/proto/mod.rs:253-257 | What is read of a `query_ok` body, key by key, with its defaults and its failures. |
| CodecFormat.ReplyRead | src/proto/mod.rs:270-280 | What is read of a `reply` body, key by key, with its defaults and its failures. |
| CodecFormat.ReplyWritten | src/proto/mod.rs:270-280 | What is written of a `reply` body, key by key. |
| CodecFormat.HelloRead | src/proto/mod.rs:201-225 | What is read of a `hello` body, key by key. |
| CodecFormat.HelloAccepted | src/proto/mod.rs:201-225 | And exactly what it takes to be one. |
| CodecFormat.HelloWritten | src/proto/mod.rs:201-225 | What is written of a `hello` body, key by key. |
| CodecFormat.SessionRead | src/proto/mod.rs:229-232 | A session in a greeting is a name and a harness. |
| CodecFormat.ArraysRead | src/proto/mod.rs:632-685 | Array bodies give their items to the keys in order. |
| CodecTheorems.DecodeEncoded | src/proto/mod.rs:395-541 | Whatever its version and body, a written envelope's other fields are read back exactly, and the version and body decide the rest. |
| CodecTheorems.BodyRoundTrip | src/proto/mod.rs:604-685 | A body that can be written is read back unchanged if and only if its open parts survive: no `cmd` inside a `query_ok`, no explicit null for an absent `meta`. |
| CodecTheorems.FlattenedRoundTrip | src/proto/mod.rs:252-258 | The same for the flattened `query_ok` body. |
| CodecTheorems.RoundTripIff | src/proto/mod.rs:395-450 | Decoding an encoded envelope gives it back if and only if its version is 1, its type is its body's, and its body is portable. |
| CodecTheorems.DecodeClasses | src/proto/mod.rs:416-541 | Exactly when each class of result arises: unknown type before anything else, version once the envelope is complete, the body last. |
| CodecTheorems.VersionIsTruncated | src/proto/mod.rs:497-498 | Every version that is 1 modulo 2^32 is accepted as 1. |
| CodecTheorems.UnknownKeysIgnored | src/proto/mod.rs:632-685 | A key the type does not know changes nothing. |
| CodecTheorems.ArrayBodiesAreRead | src/proto/mod.rs:632-685 | An array body reads like the object with its items under the field names in order, up to the number of fields. |
| Redaction.RedactHlrTokens | src/debug.rs:593-613 | The loop's result is the text with each maximal run covered by a secret replaced by one mark and everything else kept in order, defined position by position. |
| Redaction.FindPrefix | src/debug.rs:597 | The search finds the first prefix from a position on, or none. |
| Redaction.TokenEnd | src/debug.rs:600-602 | The end of the maximal run of token characters. |
| Redaction.TokenCodes | src/debug.rs:600-602 | The characters of a token, by their codes. |
| Redaction.PrefixIs | src/debug.rs:594 | The prefix, spelt out. |
| Redaction.OneToken | src/debug.rs:593-613 | A text that opens with a token becomes the mark, spelt out, and the rest. |
| Redaction.BarePrefixKept | src/debug.rs:604-606 | A prefix with no token behind it is kept. |
| Redaction.OutputIsClean | src/debug.rs:593-613 | The output holds no secret, not even one put together across the edges of what was cut out. |
| Redaction.UnchangedIffClean | src/debug.rs:593-613 | A text is left alone if and only if it holds no secret. |
| Redaction.Idempotent | src/debug.rs:593-613 | A second pass changes nothing. |

## Left out

- WebSocket handshakes, frame I/O, ping and pong payloads and close handshakes: the model has only the events the session loop matches on.
- JSON text, HMAC and SHA-256 (RFC 2104), the random source and RFC 3339 formatting: JSON trees, an arbitrary keyed hash, ids given as inputs and integer times stand for them.
- Fresh ids: a new call's id differs from every earlier call's, and a new prompt's id is not yet in its talk-log file; both are random draws in the program.
- Torn writes and crash recovery: a save is one step that happens or fails, and a load gives the whole file or fails.
- The connected-hostname and round-trip time that a `ping` reports, and the registry's read-only listings (`snapshot`, `resolve_target`, `hostname_of`, confirmed harnesses): they only read.
- Cancellation of a control task while its call waits: a call runs to its outcome.
- Time inside the registry: a timeout may fire at any moment at which nothing is ready to be received.
- The roster lookup in front of a `say`: `SayLog` takes any token; `Hub.ReachedIff` is about the lookup.
- Panics and mutex poisoning: a task never dies between recording a reply and resolving it.
- Text that `from_hex` would cut inside a multi-byte character, where the program panics: the model reads it as no byte string. Stored hashes are plain ASCII.
- The clock of roster and lockout operations is read before the mutex is taken, so it may step back between operations; the run theorems that need an order state it as a hypothesis.
- The cast of `max_failures` to a machine integer, and the texts of error messages.
- The control socket, the command-line side, argument parsing, `query` and `hello` document builders, and the rest of the logging module: thin wrappers or output only.
- Array bodies inside `query_ok`: a flattened body is read from an object only, and so is modelled.
- RosterRuns.PruneIsNeutral: assumes that no operation reads a clock older than an earlier sweep's, and no ping comes from the owner of a dropped row that was not marked gone; `RosterRuns.SweepsUnnoticedIff` shows the second condition is exact.
- SayLog.JoinedRun: assumes that the replies come on the prompt's token, after its waiter is filed, and one at a time; `SayLogOverlap.OverlapDisagrees` shows what overlapping ones do. `SayLog.LoggedRun` and `SayLog.SaidWasRecorded` need none of this.
- SayLog.SayHeard: the same assumptions.
- SayLog.SayAgreesWithLog: the same assumptions; and the converse assumes that no second final reply is recorded for the id, since a later one could by chance spell the same text.
- The `hello` frame is modelled only by its effect on the recorded hostname.
- Admission.Slots.HandleConnection: runs one connection without interleaving; the interleaved statement is `Admission.InvStep` and what follows from it.
