# Verification of the indexer service

The service creates indexers on demand: it stores an uploaded script, keeps one table row per indexer,
and starts, watches and stops a sink process for it. Three shared stores can drift apart: the `indexers`
table (statuses are text, the process id is nullable), the object store of scripts, and the operating
system's process table. No handler holds a lock across its read, check, act and write. This project models
that protocol, the create-request builder in front of it, and the decoder script that an indexer runs for
the optimistic oracle, and proves what each of them keeps.

`dafny verify dfyconfig.toml` checks everything.

## Layout

- `Hex`, `Decimal`, `Wrappers`: text of numbers, `Option` and `Result`.
- `Domain`: ids and their keys, statuses, rows, errors. `IndexerTypes`: spawned commands, stop outcomes.
- `Request`: the multipart loop. `Repository`: the string-typed table as a class, and its refinement.
- `Protocol`: every handler as a program of atomic steps (`Decide`), each with at most one `Effect`.
- `Interleaved`: any number of handlers in flight, for the same or different ids; any step may fail and any
  handler may be dropped at any point (`End`). A crash of the service is an `End` of every handler in flight.
  Sink processes die, are reaped, and foreign processes appear. `Inv` is the inductive invariant.
- `Guarantees`: what holds of every interleaved run. `Trap`, `Interference` and `Handouts`: exactly when
  overlapping handlers, or pids used again, break what orderly runs keep. `Overlap`: runs from the empty
  service in which they do. `Pids`: the pids of an id while none is used again.
- `Orderly`: runs in which handlers of one id do not overlap and pids are not reused; handlers of different
  ids still interleave. `Accounting`: live processes of an id. `Tightness` and `CauseSequences`: runs that
  meet its bound. `Commutation` and `Reduction`: orderly runs are serial runs.
- `Serial`: a call run to its end (`Complete`). `Replies`: what each call replies and leaves, case by case and
  without the step programs. `Reachable`: calls from the empty service to a row of each
  status. `Boot`: the recovery loop. `Service`: the handlers as methods of a class over the repository,
  store, files and process table, each proved equal to `Complete`.
- `Assertion`: the AssertionMade branch of the decoder script.

So there are four descriptions of a handler. The method in `Service` follows the source statement by
statement; `Complete` runs the step program alone; `Serial.CompleteIsARun` makes that a run of the
interleaved machine; and `Replies` lists the cases of reply and new world for every row and every answer,
which method and program are both proved to meet. The invariants are proved about the steps, and hold for all.

## Findings

- `FailedStopping` is a trap, and the only one, as long as handlers of one id do not overlap. An overlapping
  start that read `Running` leaves it again (`Overlap.OverlapEscapesTheTrap`). Exactly: the row never changes
  again if and only if no handler of its id in flight carries a row, apart from those whose only write is to
  `FailedStopping` (`Trap.TrappedExactly`).
- A delete can remove a `Running` row if a start overlaps it; the live process is then recorded nowhere
  (`Overlap.OverlapDeletesRunningRow`). Exactly: a delete that goes through removes a row that is not
  `Stopped` any more if and only if another handler wrote it between the delete's read and its write, and the
  last such write left another status (`Interference.DeletesUnstoppedExactly`).
- Two overlapping starts of one id share one script file. Creating it empties it before it is written, so the
  first start can launch its sink on an empty or shortened script (`Overlap.OverlapSpawnsEmptyScript`).
  Exactly: the file is whole at a spawn if and only if some start wrote it whole and none has created it anew
  since (`Interference.SpawnsWholeScriptExactly`). Without overlap it always is (`Orderly.SpawnsRunTheScript`).
- A liveness check whose `ps` pipeline itself fails reads as "not running". A start of a healthy `Running`
  indexer then launches a second process (`Serial.MisreadStartsTwice`), and a stop marks `Stopped` without
  having signalled a process that runs on (`Serial.StopMisreads`), both if and only if the check failed. So
  does a state update (`Serial.UpdateMisreads`), but nothing in the service calls `_update_indexer_state`.
- A liveness check and a stop act on whatever process now has the recorded pid. A stop can signal a stranger
  (`Overlap.ReusedPidIsSignalled`). Exactly: the pid was handed to a sink of the id, and the process under it
  is not one now if and only if the pid was handed out again and went to another one last
  (`Handouts.StopSignalsStrangersExactly`, `Handouts.ChecksSeeStrangersExactly`).
- At boot a row is skipped when its stale pid now belongs to another process, including one the same loop has
  just spawned for an earlier row. The condition is exact (`Boot.RecoveredSmoothly`),
  also when steps fail (`Boot.RecoveredExactly`). A second run does not help (`Boot.SecondRecoveryIsIdle`).
- A successful stop marks the row `Stopped` (src/handlers/indexers/stop_indexer.rs:27), although the
  repository's README.md:47 says `FailedStopping`; the model follows the code.
- The port found by `set_random_port` never reaches the table: the insert sends no port, so each row gets the
  column default 1234.
- No multipart field sets the connection string, so it is never present in a row.
- A creation replies with the row as inserted: status `Created` and no process id, also when it now runs.
- The stored claim of an assertion is ambiguous exactly when the pending word fills all 64 digits, or is zero
  behind a word that does.

## Model

| member | source | states |
|---|---|---|
| Request.BuildCreateIndexerRequest | src/handlers/indexers/create_indexer.rs:88-135 | the loop builds what `Builds` says, and so what `BuildsFromFields` proves of it: the last-wins record with port and default id, the first rejected field's error, or the readiness error |
| Request.BuildsFromFields | src/handlers/indexers/create_indexer.rs:56-135 | success if and only if every part is acceptable, the last script is not empty, and the last kind is Postgres with a table_name or else there is a target_url; each member comes from the last field of its own name, with the defaults; otherwise the error is that of the first part refused, or the readiness error |
| Request.BuildsExactly | src/handlers/indexers/create_indexer.rs:54-135 | success if and only if every name is known, every typed field parses and the last-wins record is ready; the result has the shape the protocol relies on |
| Request.OrderDoesNotMatter | src/handlers/indexers/create_indexer.rs:90-121 | with pairwise distinct names a permutation of the fields changes neither success nor the result |
| Decimal.ParseOfText | src/handlers/indexers/create_indexer.rs:109-114 | parsing a printed integer gives it back, and parsing never leaves the i64 range |
| Decimal.OnlyNumbersParse | src/handlers/indexers/create_indexer.rs:109-114 | what parses: an optional sign and at least one decimal digit, of a number in the i64 range |
| Decimal.SignedForms | src/handlers/indexers/create_indexer.rs:109-114 | a plus sign is accepted and changes nothing, a minus sign negates, down to the least i64 and no further |
| Decimal.ZeroPrefixed | src/handlers/indexers/create_indexer.rs:109-114 | leading zeros are accepted and change nothing |
| Decimal.PrintsDigits | src/handlers/indexers/indexer_types/mod.rs:51 | printing puts the decimal digit of the remainder by ten behind the text of the quotient |
| Decimal.ReadsDigits | src/handlers/indexers/create_indexer.rs:109-114 | a decimal digit read adds its value to ten times the rest |
| Decimal.NatTextCanonical | src/handlers/indexers/indexer_types/mod.rs:51 | the printed decimal has no superfluous leading zero |
| Domain.UuidTextShape | src/handlers/indexers/utils.rs:8-14 | the text of an id is 36 characters in groups of 8, 4, 4, 4 and 12 hexadecimal digits, which are its number |
| Domain.KeyShapes | src/handlers/indexers/utils.rs:8-14 | the script is `apibara-scripts/<id>.js` in the store and `<id>.js` in the temporary directory |
| Domain.UuidTextInjective | src/handlers/indexers/utils.rs:8-14 | the hyphenated text determines the id |
| Domain.KeysInjective | src/handlers/indexers/utils.rs:8-14 | two ids never share a script key or a temporary file |
| Domain.StatusRoundTrip | src/domain/models/indexer.rs:14-22 | status text parses to a status if and only if it is that status's text, which is the variant's name |
| Domain.TypeRoundTrip | src/domain/models/indexer.rs:24-29 | the same for indexer types |
| IndexerTypes.CommandRunsRow | src/handlers/indexers/indexer_types/postgres.rs:11-23 | the command of a row is the binary of its kind, and every option has its value: script, token, redis, sink id, status address, and the connection and table of a Postgres row or the target of a Webhook row, and no other; STARTING_BLOCK is the row's block or 1 |
| IndexerTypes.CommandsRunOwnScripts | src/handlers/indexers/indexer_types/mod.rs:23-54 | the script arguments of two spawned commands agree if and only if the ids do |
| IndexerTypes.CommandIgnoresUpdates | src/handlers/indexers/indexer_types/mod.rs:23-54 | a later start runs the same command, whatever status and pid became |
| IndexerTypes.SubstringTestIsExact | src/handlers/indexers/stop_indexer.rs:29-34 | of all InternalServerError texts, for every id, the substring test accepts exactly the "not running" one |
| Repository.TryFromInvertsToDb | src/infra/repositories/indexer_repository.rs:238-255 | a stored row converts to a model if and only if it is the text of that model |
| Repository.ConversionKeepsColumns | src/infra/repositories/indexer_repository.rs:238-255 | a row converts if and only if its texts are names of a status and a type, and every column keeps its name |
| Repository.InsertKeepsColumns | src/infra/repositories/indexer_repository.rs:123-134 | an insert keeps every column under its name, with no pid and the default port 1234 |
| Repository.TableRefinesModel | src/infra/repositories/indexer_repository.rs:123-216 | over any sequence of operations with status texts the handlers write, every row converts and the text table stands for the typed map |
| Repository.IndexerRepository.InsertRow | src/infra/repositories/indexer_repository.rs:123-134 | inserts with no pid and the default port, and fails on a duplicate id |
| Repository.IndexerRepository.Get | src/infra/repositories/indexer_repository.rs:136-147 | the converted row, or NotFound |
| Repository.IndexerRepository.GetByTableName | src/infra/repositories/indexer_repository.rs:156-167 | some row with that table name; NotFound only if there is none |
| Repository.IndexerRepository.GetAll | src/infra/repositories/indexer_repository.rs:169-184 | each row with the filtered status text exactly once; an error only if such a row does not convert |
| Repository.IndexerRepository.Delete | src/infra/repositories/indexer_repository.rs:149-154 | removes the row; succeeds on absent ids |
| Repository.IndexerRepository.UpdateStatus | src/infra/repositories/indexer_repository.rs:186-200 | changes the status and nothing else; NotFound on absent ids |
| Repository.IndexerRepository.UpdateStatusAndProcessId | src/infra/repositories/indexer_repository.rs:202-216 | changes status and pid and nothing else; NotFound on absent ids |
| Service.IndexerService.Start | src/handlers/indexers/indexer_types/mod.rs:23-100 | spawns a sink of the id whose command runs the row as `IndexerTypes.CommandRunsRow` says, or changes nothing |
| Service.IndexerService.WriteAll | src/handlers/indexers/start_indexer.rs:61-62 | the file just created ends with a beginning of the script, as long as what was written: the whole script exactly when the write works |
| Service.IndexerService.Stop | src/handlers/indexers/indexer_types/mod.rs:103-136 | the error cases, and the signal a successful kill sends |
| Service.IndexerService.StartIndexer | src/handlers/indexers/start_indexer.rs:20-76 | result and new world are those of the start program, and one of the cases of `Replies.StartMeets` |
| Service.IndexerService.StopIndexer | src/handlers/indexers/stop_indexer.rs:11-47 | result and new world are those of the stop program, and one of the cases of `Replies.StopMeets` |
| Service.IndexerService.UpdateIndexerState | src/handlers/indexers/stop_indexer.rs:54-97 | result and new world are those of the update program, and one of the cases of `Replies.UpdateMeets` |
| Service.IndexerService.FailIndexer | src/handlers/indexers/fail_indexer.rs:7-21 | result and new world are those of the fail program, and one of the cases of `Replies.FailMeets` |
| Service.IndexerService.DeleteIndexer | src/handlers/indexers/delete_indexer.rs:9-23 | result and new world are those of the delete program, and one of the cases of `Replies.DeleteMeets` |
| Service.IndexerService.CreateIndexer | src/handlers/indexers/create_indexer.rs:137-196 | builds the request, then result and new world are those of the create program, and the case of `Replies.FormMeets` for the form |
| Service.IndexerService.StartAllIndexers | src/handlers/indexers/start_indexer.rs:85-99 | starts exactly the Running rows, each once, in some order, ignoring failures |
| Interleaved.RunKeepsInv | src/handlers/indexers/start_indexer.rs:20-76 | every interleaved run, with files created and written in separate steps and writes that fail half-way, keeps the invariant: rows complete, pids in range, snapshots real, open files a beginning of the script, creators alone |
| Guarantees.VisibleRowsAreComplete | src/handlers/indexers/create_indexer.rs:141-180 | each visible row has its uploaded script under its own key, each field of its request under its own name, the default port, its kind's field, and a u32 pid once it left Created |
| Guarantees.HandlersNeverLackAPid | src/handlers/indexers/indexer_types/mod.rs:104-145 | the check's "without process id" error, the `expect` calls of the two type-specific starts and the missing port are unreachable, and a handler that checks has a pid; at a spawn the file holds at least a beginning of the uploaded script |
| Guarantees.ProcessesRunTheirRow | src/handlers/indexers/indexer_types/mod.rs:47-54 | every sink process runs its row as `IndexerTypes.CommandRunsRow` says, and its STARTING_BLOCK parses to the row's block, or to 1 |
| Guarantees.StartingBlockFidelity | src/handlers/indexers/create_indexer.rs:109-114 | the block a sink is given is the one the accepted text named |
| Guarantees.RunOnward | src/infra/repositories/indexer_repository.rs:186-216 | from any point of any run: identity fields and scripts stay, a pid is never lost, Created is never re-entered, deletion is final |
| Guarantees.ChangesAreExplained | src/handlers/indexers/start_indexer.rs:66-73 | a row changes only by the commit of its creation or by a write step of a handler for its id, to exactly the written row |
| Guarantees.EveryWriteIsJustified | src/handlers/indexers/delete_indexer.rs:14-20 | under any interleaving, whoever writes or deletes a row found it in its own read step, in a status that permits the write, and has carried it since |
| Trap.TrappedExactly | src/handlers/indexers/start_indexer.rs:26-40 | from any state of the invariant with a free pid, a FailedStopping row never changes again, in any run, if and only if every handler of its id in flight carries no row or can only write FailedStopping |
| Trap.FailedStoppingIsATrap | src/handlers/indexers/start_indexer.rs:39 | after an orderly run that condition holds, so no run from there on changes the row, not even one with overlaps |
| Interference.RowSinceRead | src/infra/repositories/indexer_repository.rs:186-216 | in any interleaved run, what a row is while a handler carries it is what the latest write since that handler's read left |
| Interference.DeletesUnstoppedExactly | src/handlers/indexers/delete_indexer.rs:14-20 | a delete that goes through removes a row that is no longer Stopped if and only if another handler wrote it since the delete's read and the last such write was a start's, a fail's, a delete's, or a stop's or update's to another status |
| Interference.SpawnsWholeScriptExactly | src/handlers/indexers/start_indexer.rs:61-64 | at a spawn, in any interleaved run, the file is the whole uploaded script if and only if some start of the id wrote it whole and none has created it anew since |
| Handouts.StopSignalsStrangersExactly | src/handlers/indexers/indexer_types/mod.rs:118-136 | in any interleaved run, pids used again or not: the process a stop signals has the pid its row recorded, which was handed to a sink of its id; it is another one's if and only if the pid was handed out again and went to another one last |
| Handouts.ChecksSeeStrangersExactly | src/handlers/indexers/indexer_types/mod.rs:137-152 | in any interleaved run a check has a pid that was handed to its id, and answers "running" if and only if its pipeline works and the process under the pid is alive; that process runs the row's command unless the pid was handed out again and went to another one last, and exactly then it is another one's |
| Overlap.OverlapDeletesRunningRow | src/handlers/indexers/delete_indexer.rs:14-20 | from the empty service: a run in which a Running row is deleted and its live process is left unrecorded |
| Overlap.OverlapEscapesTheTrap | src/handlers/indexers/start_indexer.rs:26-73 | from the empty service: a run in which a FailedStopping row becomes Running |
| Overlap.OverlapSpawnsEmptyScript | src/handlers/indexers/start_indexer.rs:61-64 | from the empty service: a run in which a sink is launched while its script file is empty |
| Overlap.ReusedPidIsSignalled | src/handlers/indexers/indexer_types/mod.rs:118-136 | from the empty service, with one handler in flight: a stop signals a stranger that got the recorded pid |
| Orderly.OrderlyEdges | src/handlers/indexers/start_indexer.rs:26-40 | without overlap each event moves a row along an edge, inserts it Created, or deletes it when Stopped |
| Orderly.SpawnsRunTheScript | src/handlers/indexers/start_indexer.rs:53-64 | without overlap the file at a spawn is the script uploaded for the id |
| Serial.EdgeIsTaken | src/handlers/indexers/stop_indexer.rs:16-44 | every edge is taken: the one to FailedRunning by a creation that asks its sink, any other by a whole call of a route |
| Serial.CreationAsksWhenRunning | src/handlers/indexers/create_indexer.rs:182-193 | a creation whose steps all work has a Running row when it asks its sink, and moves it to FailedRunning if and only if the sink does not report 1 |
| Serial.OtherStatusesCanBeDeleted | src/handlers/indexers/delete_indexer.rs:14-20 | from every other status some sequence of calls reaches deletion |
| Accounting.ProcessesAreAccountedFor | src/handlers/indexers/start_indexer.rs:26-73 | at most the one live process the row records plus one per counted event; with none of these events every live process is the recorded one, and a Created or absent id has none |
| Accounting.WorkingChecks | src/handlers/indexers/indexer_types/mod.rs:137-152 | when every check works, no restart from Running abandons a process, and a live process of a Stopped row has been signalled |
| Tightness.EachCauseIsReal | src/handlers/indexers/start_indexer.rs:26-73 | for each cause an orderly run from the empty service with that one cause and no other, at whose end the bound is met |
| CauseSequences.BoundIsMet | src/handlers/indexers/start_indexer.rs:26-73 | for every sequence of causes with a delete at most last, an orderly run from the empty service with exactly these causes, at whose end the bound is met (its calls include a fail on its own, which the handlers allow and only creations make) |
| CauseSequences.DeleteComesLast | src/handlers/indexers/delete_indexer.rs:14-20 | no orderly run has another sequence: after a delete nothing happens to the processes of its id |
| Commutation.Swap | src/handlers/indexers/utils.rs:8-14 | neighbouring events of different ids commute, with the same answers and outcomes |
| Reduction.Reduction | src/handlers/indexers/start_indexer.rs:20-76 | every orderly interleaved run from a quiet state, once the handlers still in flight are ended, has a serial reordering of the same events in which every handler that had ended before another began still does so; it reaches the table, store, files and processes of the original run |
| Replies.StartMeets | src/handlers/indexers/start_indexer.rs:20-76 | for every row and every answer: which error a start replies and that nothing but its file changed, or the no-op of a process seen alive, or the sink it spawned and the pid it recorded, or the sink it could not record |
| Replies.StopMeets | src/handlers/indexers/stop_indexer.rs:11-47 | for every row and every answer: any status but Running is refused with that status; otherwise which status is written and whether the process was signalled |
| Replies.FailMeets | src/handlers/indexers/fail_indexer.rs:7-21 | for every row and every answer: any status but Running is refused with that status and nothing changes; otherwise FailedRunning is written |
| Replies.DeleteMeets | src/handlers/indexers/delete_indexer.rs:9-23 | for every row and every answer: success if and only if the row is Stopped and both steps work; any other status is refused with that status and nothing changes |
| Replies.UpdateMeets | src/handlers/indexers/stop_indexer.rs:54-97 | for every row, target and answer: which error an update replies, with its text, and that nothing changed, or that the target was written |
| Replies.FormMeets | src/handlers/indexers/create_indexer.rs:137-196 | for every form and every answer: why the form is refused; or the row a creation inserts, with each field of the request under its own name, port 1234, Created and without pid, the outcome of its start, and what it replies |
| Serial.CompleteIsARun | src/handlers/indexers/start_indexer.rs:20-76 | a call run alone is an orderly run of the step machine with the same final world |
| Serial.StartFromIdle | src/handlers/indexers/start_indexer.rs:53-75 | a start from Created, Stopped or FailedRunning goes all the way if no step fails, and otherwise leaves table and store alone |
| Serial.StartFromRunning | src/handlers/indexers/start_indexer.rs:30-38 | a start of a Running row, whatever fails: a no-op exactly when its read works and its process is seen alive, and otherwise a restart, all the way or with table and store left alone |
| Serial.MisreadStartsTwice | src/handlers/indexers/indexer_types/mod.rs:148-151 | a start that goes through leaves a second live process beside a healthy one if and only if the check failed to run |
| Serial.CreateOutcome | src/handlers/indexers/create_indexer.rs:157-195 | Ok exactly when no step failed; then the row has its pid and is Running if the sink reported 1, else FailedRunning; Err leaves no row, or one with its script that is Created or Running |
| Serial.StopClassification | src/handlers/indexers/stop_indexer.rs:26-44 | Stopped if and only if the check said not running or the kill succeeded, FailedStopping otherwise |
| Serial.UpdateOutcome | src/handlers/indexers/stop_indexer.rs:59-94 | succeeds exactly on rows Running or already at the target whose process is not seen alive, and writes only the target |
| Serial.StopMisreads | src/handlers/indexers/stop_indexer.rs:26-44 | a stop of a row whose process runs on records Stopped and leaves it unsignalled if and only if the check failed to run |
| Serial.UpdateMisreads | src/handlers/indexers/stop_indexer.rs:80-94 | an update, which nothing in the service calls, writes its target over a live process if and only if the check failed to run |
| Serial.FailOfRunning | src/handlers/indexers/fail_indexer.rs:10-18 | a fail of a Running row writes FailedRunning and touches nothing else |
| Serial.DeleteOfStopped | src/handlers/indexers/delete_indexer.rs:14-20 | a delete of a Stopped row removes it and nothing else |
| Serial.AbsentIdsAreNotFound | src/infra/errors.rs:17-24 | every call on an absent id reports NotFound and changes nothing |
| Boot.ReachableRowsAreRecoverable | src/handlers/indexers/start_indexer.rs:85-96 | in every reachable state the Running rows have what the loop needs |
| Boot.LoopIsARun | src/handlers/indexers/start_indexer.rs:85-99 | the loop is a run of the step machine, one start after the other, and keeps the invariant |
| Boot.RecoveredExactly | src/handlers/indexers/start_indexer.rs:85-99 | whatever fails in the loop, a Running row ends with its own live recorded process if and only if it had one all along, or its own turn, not seeing a live process, spawns one under a free pid that the row records or records already |
| Boot.RecoveredSmoothly | src/handlers/indexers/start_indexer.rs:85-99 | when no step fails: if and only if it had one all along, or its stale pid is neither alive under somebody else nor spawned for an earlier row |
| Boot.OthersUntouched | src/handlers/indexers/start_indexer.rs:88-96 | whatever fails in it, the loop changes no other row, removes no script and kills no process |
| Boot.SecondRecoveryIsIdle | src/handlers/indexers/start_indexer.rs:30-37 | when no step fails the loop changes at most the pid of a Running row, and an immediate second run whose checks work changes nothing at all |
| Hex.DigitsByValue | examples/pragma/testnet/sepolia-script-oo-requests.js:58-65 | the sixteen digits 0 to f stand for 0 to 15 |
| Hex.OrderedByValue | examples/pragma/testnet/sepolia-script-oo-requests.js:58-65 | among texts of one width the smaller number has the lexicographically smaller text |
| Assertion.DecodeAssertionMade | examples/pragma/testnet/sepolia-script-oo-requests.js:74-130 | the branch with its in-place overwrite computes `Decode`, which `RoundTrip`, `EveryDataIsALayout` and `ThrowsExactly` determine on all data |
| Assertion.ThrowsExactly | examples/pragma/testnet/sepolia-script-oo-requests.js:78-130 | on any data: exactly when the branch throws, and which of the two exceptions, by the length, the count word and the date |
| Assertion.EveryDataIsALayout | examples/pragma/testnet/sepolia-script-oo-requests.js:78-103 | data long enough for its count word is the layout of some event |
| Assertion.LayoutParts | examples/pragma/testnet/sepolia-script-oo-requests.js:79-81 | the count word gives the claim's length, and no slice bound of a laid-out event is out of range |
| Assertion.RoundTrip | examples/pragma/testnet/sepolia-script-oo-requests.js:78-129 | decoding a laid-out event gives back exactly its fields; only a date out of range throws |
| Assertion.PendingLengthIsLost | examples/pragma/testnet/sepolia-script-oo-requests.js:80-81 | the record does not depend on the pending length |
| Assertion.ClaimLength | examples/pragma/testnet/sepolia-script-oo-requests.js:67-69 | every word takes 64 digits of the stored claim, and the pending word at most as many |
| Assertion.ClaimRecovered | examples/pragma/testnet/sepolia-script-oo-requests.js:80-84 | cutting the stored claim gives the words and the pending digits |
| Assertion.ClaimIsUniquelyDecodable | examples/pragma/testnet/sepolia-script-oo-requests.js:67-69 | below 64 significant pending digits the text determines words and pending value |
| Assertion.AmbiguousExactly | examples/pragma/testnet/sepolia-script-oo-requests.js:47-69 | the exact condition under which another claim is stored as the same text |
| Assertion.CombineRecoversHalves | examples/pragma/testnet/sepolia-script-oo-requests.js:58-65 | the combination is 256 bits wide and both halves come back by division and remainder |
| Assertion.CombinedTextInjective | examples/pragma/testnet/sepolia-script-oo-requests.js:105-109 | the decimal texts of two combinations agree if and only if both halves do |
| Assertion.TrimmingIsIdempotent | examples/pragma/testnet/sepolia-script-oo-requests.js:47-56 | for every text, trimming twice is trimming once |
| Assertion.TrimmingIsCanonical | examples/pragma/testnet/sepolia-script-oo-requests.js:47-56 | for every digit text, with or without the prefix, trimming keeps the value and leaves the shortest text of that value |

## Left out

- HTTP routing, extractors, CORS, error responses and the health check have no state of their own.
- Configuration, TLS, connection pools, the object-store and gRPC clients: each call is one atomic step that
  works or fails without effect. A statement that fails after it took effect is not modelled.
- The kind of a database error other than "not found" and "parse": all are `DbFailure`.
- Ids are assumed fresh; `ps`, `grep` and `kill` are reduced to what they observe of the process table, and a
  pid the system answers a spawn with while it is taken counts as a failed spawn.
- The log-forwarding task of a spawned process, and what a sink that reads its script file late finds there.
- The panics on the operating system's own answers: a child without id or pipes, a `wait` that fails.
- The read-only endpoints (`get_indexers`, `get_indexer` and the two status queries), beyond the repository
  reads they make.
- UTF-8 decoding of multipart text: a field carries its bytes and its text.
- Interleaved.RunKeepsInv: `_update_indexer_state` is called with Stopped or FailedStopping only, as its doc comment says.
- The AssertionDisputed and AssertionSettled branches, the ISO rendering of the date, and rounding of numbers
  above 2^53 in the claim length, which no array can reach.
- The spot, future, checkpoint and VRF scripts rename fields only.
