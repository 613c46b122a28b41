# TorBoxarr: a verified model

TorBoxarr takes torrent and NZB submissions through an *arr-compatible HTTP API, hands them to a
remote service, waits until the service has fetched them, downloads the files with resumable range
requests, and moves the finished directory into place. Five worker loops (submit, poll, download,
finalize, remove), the API and a start-up pass share one table of jobs.

This project models that pipeline and proves what it keeps. `dafny verify dfyconfig.toml` checks all
of it.

| file | models |
|---|---|
| Jobs.dfy | job rows, states, row writes with their events, a worker's hold on one job |
| Submit.dfy, Poll.dfy | the submit and poll handlers, method by method, against the writes they make |
| Content.dfy | one job's row, parts and disk as a transition system whose acts are the atomic changes a crash can separate; safety and progress of downloads |
| Session.dfy | the operations of one pass over one job, each checked to be a legal act of Content |
| Download.dfy | the range downloader and the download handler, in loops and callbacks as in the source |
| Finalize.dfy, Remove.dfy, Startup.dfy | verification and promotion; removal; start-up reconciliation |
| Store.dfy, Api.dfy | the jobs table with its partial unique index; enqueue and delete |
| LocalPhase.dfy | any number of download and finalize passes over one job, each started on what the last one left |
| Neighbours.dfy | many jobs on one disk: what is done to one leaves the places of the others alone |
| Protocol.dfy | workers, API, crashes and start-up interleaved statement by statement; what every step keeps |
| Outcomes.dfy | what follows for every run: who has a job in hand, what event logs tell, what a delete comes to |
| Exclusion.dfy | who can have the same job in hand whatever delete requests do |
| Interference.dfy | runs that lead into the awkward interleavings, and exactly when a delete survives |
| Paths.dfy, Layout.dfy, Assets.dfy | Go's lexical path rules; staging and completed paths; part keys and link refresh |
| TimeText.dfy, InfoHash.dfy, Limiter.dfy | stored times compared as text; info hashes; the token bucket |
| Text.dfy, Wrappers.dfy | byte strings; Option |

Conventions. A Go string is a Dafny string with one character per byte. A path that the service
keeps is the sequence of its cleaned components, so that "below" is "has as a prefix";
`Paths.GuardExact`, `Layout.StagingPathShape` and `Layout.CompletedPathShape` tie this to path
strings. Handlers take what the remote service, the server and the disk answer as parameters, so
that what they do is decided by them; an answer of the server or a listing outside the stated assumptions
counts as none (`Download.Ask`, `Download.Heeded`, `Download.HeededFor`). Times are nanoseconds since the
start of year 0.

How the parts fit together. The handlers in Submit, Poll, Download, Finalize and Remove are methods
proved to make exactly the row writes of a trace function or relation. `Protocol` interleaves those
writes one at a time with everything else; `Protocol.HandlersPlan` is where the two meet. For the
disk, every operation of `Session.Pass` is proved legal in `Content`, and `Content.CompletedMeansDelivered`
holds of every legal run; `Content.LegalRunsJoin` puts the runs of passes together, whatever stopped
each of them, and `LocalPhase.LocalJob.RunPasses` does so for a whole local phase;
`Neighbours.AllDelivered` puts the runs of all jobs together on one disk.

Delete requests. A delete request reads the row of a job in one statement and writes it back in another
(internal/api/router.go:193-210), however long after. The write is in time (`Protocol.Timely`) when the
row is still as it was read and nobody has the job in hand; a job is undisturbed in a run
(`Outcomes.Undisturbed`) when every delete request that wrote it back was in time. What Outcomes says of
one job holds of undisturbed jobs, whatever delete requests do to other jobs; open keys are unique and
workers keep apart (`Outcomes.OpenKeysUnique`, `Exclusion.NeverTwoAtWork`) in every run.

Findings. Some properties a reader might expect are not quite what the code does:

- The order of stored times as text is not the order of times within one second, because the
  fraction is written without trailing zeros. `TimeText.TextDisagreesExactly` says exactly when. A due
  test is off by less than a second (`TimeText.DueWithinASecond`), and a worker with room for one job
  may take the younger of two (`Store.OlderLosesExactly`, `Store.OlderLoses`).
- A row and its event are written in two statements. With the event that is still to be logged, the log of
  a job tells its states until exactly one of these happens: the row is written, with an event, while
  another event of the job is still to be logged; the event of a change of state is lost, by itself or in a
  crash; the write that makes a download visible fails, the handler goes on, and the job was not in
  local_downloading already; or a delete request writes the job back in another state than it read it in
  (`Outcomes.ToldExactly`, `Outcomes.SkipBreaksChain`, `Outcomes.DeleteContinuesLog`). Runs from the first
  start: two workers log out of turn though nothing fails and nobody deletes (`Interference.EventsOutOfTurn`),
  a write fails (`Interference.AChainBreaks`), a delete comes late (`Interference.ALateDelete`). A log that
  is no chain never is one again (`Outcomes.BrokenForGood`).
- A delete request loses what was written to the row since it read it, and nothing exactly if the row is
  as read (`Outcomes.DeleteLosesNothing`). In the run of `Interference.ALateDelete` the completed path is
  forgotten although nobody has the job in hand as the request writes it; in that of
  `Interference.ARemovedJobComesBack` a removed job is to be removed once more.
- A delete of a job undisturbed so far is final if and only if nobody but the remover has the job in hand
  when it is written (`Interference.DeletesOfRuns`). That nobody had when it was read is not enough
  (`Interference.ADeleteIsUndone`).
- A body that ends cleanly short of the file makes the part completed exactly when neither the answer nor
  an earlier one or the listing tells of a larger size (`Download.ShortEndCompletes`).
- A base32 info hash with a line break, a dotless i or a long s in it normalises to less than 40
  characters, and not to a normal form (`InfoHash.NormalFormFixed`, `InfoHash.LineBreakShortens`).
- The callback ends a run of 5xx answers on new bytes only when more is staged than is on record of the part;
  the bytes of the attempt itself are on record before it is called (`Download.Transfer.Begin`,
  `Download.Transfer.Receive`). What follows an attempt resets the count anyway unless it was a 5xx answer.
- Without file ids, a refreshed link goes to the right file if and only if the file has not moved back
  in the listing (`Assets.PositionsDecide`).

In addition, the branch of the downloader that refuses a path outside the staging root
(internal/worker/download.go:88-101) can never be taken (`Paths.SafePathStaysBelow`), nor, for an
undisturbed job, the branch of the start-up that promotes it by its completed path
(internal/worker/orchestrator.go:122-130, `Protocol.NothingToPromote`).

## Model

| member | source | states |
|---|---|---|
| `Outcomes.InHandOfOne` | internal/worker/orchestrator.go:64-94 | in every run with any interleaving of workers, API, crashes and start-ups, and any deletes of other jobs but only timely ones of this, a job in hand of a worker is stored in that worker's claim set and is in hand of nobody else, whatever the claim column holds |
| `Exclusion.NeverTwoAtWork` | internal/store/store.go:372-447 | in every run whatever, late deletes included: of the workers other than the remover no two have one job in hand, nor has one before its submission is through, and such a job is stored in its worker's claim set unless it is on its way out |
| `Outcomes.NoLostUpdate` | internal/store/store.go:176-242 | in every run, for a job that only timely deletes hit: the job is stored as it was fetched further on in a batch, and as the worker about to write it has it in memory, unless the statement before was the failed "download started" write, after which one write to local_downloading is left; the unique index never refuses the write |
| `Outcomes.WriteDropsClaim` | internal/store/store.go:207-208 | after the first of two writes a job is still in hand though its claim is gone |
| `Outcomes.ReleaseWipesClaim` | internal/store/store.go:450-455 | a finishing worker wipes the claim of the worker that has the job by then |
| `Interference.ASubmissionIsTakenUp` | internal/api/router.go:119-191 | look-up, insert, queueing and claim are a run of the system that ends with the job in the submitter's hand |
| `Outcomes.OpenKeysUnique` | internal/store/migrations/0003_queue_tracking.sql:10-24 | at most one open job per submission key in every state of every run, with interleaved enqueues and deletes that re-open closed jobs or write back rows read long before |
| `Protocol.UntimelyKeeps` | internal/api/router.go:193-210 | whatever a late delete writes back, the invariant holds of all other jobs, of batches and requests, and open keys stay unique |
| `Outcomes.LogsReplay` | internal/store/store.go:244-269 | in every run in which no step leaves the log of an undisturbed job behind, its events, with the one that may be still to be logged, form a chain from "no state" and replay to its stored state |
| `Outcomes.ToldExactly` | internal/store/store.go:244-269 | after each step the log of a job, with the one event that may be still to be logged, goes on telling its states, except exactly: a row write with an event while another is still to be logged, an event lost with a change of state, the write after a failed "download started" of a job not yet local_downloading, and a delete of a job read in another state |
| `Interference.OutOfTurn` | internal/store/store.go:244-269 | two events of a chain logged the other way round make none, if the first changes the state |
| `Interference.EventsOutOfTurn` | internal/store/store.go:244-252 | a run from the first start, without failures and deletes, in which the poller logs its event before the submitter does, and the log is no chain though every event is logged |
| `Outcomes.DeleteContinuesLog` | internal/api/router.go:193-210 | a delete and its event go on with a job's log exactly when the state is as read; otherwise the log is no chain from then on |
| `Outcomes.DeleteLosesNothing` | internal/api/router.go:193-210 | a delete leaves the row and the event to be logged that one reading the row only now would leave exactly when the row is as read, whoever has it in hand |
| `Outcomes.BrokenForGood` | internal/store/store.go:254-269 | a log that is no chain is none after any further events |
| `Outcomes.SkipBreaksChain` | internal/worker/download.go:154-167 | after a failed "download started" write the next write goes through, and the log is a chain if and only if the job was already local_downloading |
| `Outcomes.QueuedCanBeFollowed` | internal/worker/submit.go:77-112 | in every run an undisturbed remote_queued job has a task id, queued id, auth id or hash |
| `Outcomes.CameThroughKeepsId` | internal/worker/poll.go:179-240 | if active statuses carry an id, an undisturbed job whose log shows local_download_pending keeps a task id and has no queued id ever after |
| `Outcomes.RemovalStep` | internal/worker/remove.go:29-64 | from remove_pending only a remover write leads away, to removed or failed; removed is left only by pruning, failed only by another delete; all of an undisturbed job and steps that leave it so |
| `Outcomes.DeleteIsFinal` | internal/api/router.go:193-210 | after a delete of an undisturbed job that nobody but the remover has in hand as it is written, however old the row, in every state of every later run the job carries the delete request and is being removed, removed or refused by the remover, or it is gone and its id never used again |
| `Outcomes.DeleteInHandIsLost` | internal/store/store.go:182-210 | a delete landing on a job a worker other than the remover is about to write is undone by that write, which the index lets pass |
| `Interference.DeletesOfRuns` | internal/api/router.go:193-210 | in every run: the delete of an undisturbed job, written by whatever request that read it before, survives every run that follows if and only if nobody but the remover has the job in hand as it is written |
| `Interference.DeleteSurvivesExactly` | internal/store/store.go:182-210 | the same from any state of the invariant, with claimed, fetched, running and releasing workers and accepted requests |
| `Interference.UndoneByWorker` | internal/store/store.go:466-482 | whatever phase the worker is in that has the job in hand, some run undoes the delete |
| `Interference.UndoneByApi` | internal/api/router.go:184-191 | so does the queueing of a request that was accepted before |
| `Interference.ADeleteIsUndone` | internal/api/router.go:193-210 | a run from the first start in which a delete request reads a job nobody has in hand, and its write is undone |
| `Interference.ALateDelete` | internal/api/router.go:193-210 | a run from the first start in which a delete request reads a job about to be completed and writes it back afterwards, with nobody having it in hand and no event lost: the log breaks and the completed path is forgotten |
| `Interference.ARemovedJobComesBack` | internal/api/router.go:198-209 | a run from the first start in which the second of two deletes takes a job from removed back to remove_pending |
| `Interference.AChainBreaks` | internal/worker/download.go:154-167 | a run from the first start in which a job's log stops being a chain after a failed write |
| `Interference.AClaimIsWiped` | internal/worker/helpers.go:126-130 | a run from the first start that ends where the downloader is about to wipe the finalizer's claim |
| `Interference.AboutToAppear` | internal/worker/download.go:154-167 | any new job gets to a downloader that is about to make its download visible |
| `Outcomes.LocalStartsAfresh` | internal/worker/submit.go:85-88 | in every run an undisturbed local_download_pending job has no retries counted |
| `Protocol.HandlersPlan` | internal/worker/poll.go:29-57 | every write of every handler starts from the state the one before it left (so a write without event never changes the state), and only the last leaves the worker's claim set |
| `Protocol.SubmitPlans` | internal/worker/submit.go:31-135 | what the submitter writes, failures included, is linked and leaves its claim set only at the end |
| `Protocol.ApplyPlans` | internal/worker/poll.go:179-255 | applying a status never changes a state without an event, and hands over only with the identifiers it must have |
| `Protocol.RemovePlans` | internal/worker/remove.go:29-93 | the remover, refusals included, writes once, to removed or failed |
| `Protocol.RecoverPlans` | internal/worker/poll.go:132-177 | the silent assignment of remote_active after a recovered status never changes the stored state |
| `Protocol.NothingToPromote` | internal/worker/orchestrator.go:115-130 | on the rows of undisturbed jobs start-up reconciliation never moves a job to completed |
| `Protocol.StepKeeps` | internal/store/store.go:372-463 | every step of every actor keeps the invariant of rows, logs, batches and requests |
| `Protocol.RunKeeps` | internal/worker/orchestrator.go:39-94 | so does every run |
| `Content.CompletedMeansDelivered` | internal/worker/finalize.go:41-75 | whatever a job went through since it left the poller: whenever it is Completed, every registered part lies under its completed path at its relative path with exactly the remote bytes |
| `Content.StagedIsPrefix` | internal/files/downloader.go:54-150 | between any two atomic changes, what is staged of a part is a prefix of the remote file, and all of it if the part is marked completed |
| `Content.LegalRunsJoin` | internal/worker/download.go:50-315 | a run may stop anywhere and be taken up by another |
| `Content.RunKeeps` | internal/worker/download.go:134-314 | every legal run keeps the content invariant |
| `Content.ActKeeps` | internal/files/downloader.go:94-150 | every single act does, with the disk of other jobs changing in between |
| `Content.PromoteKeeps` | internal/files/layout.go:107-118 | the promoting rename carries every part to its place byte for byte |
| `Content.MissingBalance` | internal/worker/download.go:134-314 | over any stretch of downloading: missing before plus thrown away equals missing after plus received |
| `Neighbours.AllDelivered` | internal/files/layout.go:46-71 | in every run of any number of jobs on one disk, removals, payloads and start-up clean-ups included, a Completed job has every registered part under its completed path byte for byte |
| `Neighbours.SeenIsLegal` | internal/files/layout.go:46-71 | what one job sees of such a run is a legal run of it, with the others as `Other` |
| `Neighbours.MoveIsOther` | internal/files/layout.go:107-128 | every act of another job, and what the API and the remover do to its directories, is a legal `Other` |
| `Neighbours.ActIsConfined` | internal/files/downloader.go:50-150 | an act of a pass changes nothing outside the job's places and the directories above |
| `Neighbours.RemovalIsConfined` | internal/worker/remove.go:29-64 | nor does a removal, finished or not |
| `Neighbours.HomesApart` | internal/files/layout.go:46-71 | staging, payload and completed paths of two jobs are neither equal nor nested |
| `Neighbours.CompletedPathIsHome` | internal/files/layout.go:58-71 | the completed path as the layout computes it is such a place of its job |
| `Neighbours.HandlersInPlace` | internal/worker/finalize.go:61-62 | the directories and the target that the handlers use are places of their job or above |
| `Content.NothingMissing` | internal/worker/download.go:282-295 | missing bytes are never negative, and zero exactly when every part is whole on disk |
| `Session.Pass.WriteState` | internal/store/store.go:244-252 | a row write by a pass is a legal act and leaves exactly its row and event |
| `Session.Pass.WritePart` | internal/store/store.go:493-527 | a part write by a pass is a legal act and replaces the row of its key |
| `Session.Pass.RegisterPart` | internal/worker/download.go:109-124 | so is a part row that is new |
| `Session.Pass.MakeDirs` | internal/files/downloader.go:50-52 | MkdirAll is a legal act and fails exactly when a file is in the way |
| `Content.FitsExactly` | internal/files/downloader.go:50-52 | a directory and its parents can be made exactly when none of them is a file |
| `Content.DirsExactly` | internal/files/layout.go:111-113 | then all of them are there, and nothing else has changed |
| `Session.Pass.TruncateFile` | internal/files/downloader.go:94-100 | starting a file over is a legal act and is counted as bytes thrown away |
| `Session.Pass.AppendFile` | internal/files/downloader.go:125-128 | appending is a legal act only if the file stays a prefix of the remote file |
| `Session.Pass.Rename` | internal/files/layout.go:114-116 | the rename is a legal act only if every part looks complete |
| `Content.RenamedExactly` | internal/files/layout.go:114-116 | nothing is left in the directory, all of it is at the target, and everything else stays |
| `Session.Pass.Balance` | internal/files/downloader.go:115-150 | the balance of bytes since the parts were listed |
| `Session.Pass.AllWasMissing` | internal/worker/download.go:84-125 | for a pass that listed them itself, every byte was missing then |
| `Session.Pass.SameSizes` | internal/worker/download.go:134-314 | a pass does not change what all parts together come to |
| `Download.Transfer.ProcessDownloadJob` | internal/worker/download.go:50-315 | a pass is decided by the listing and by what the attempt at each row meets: every row not completed is attempted once, in order, up to the first failure, each from the disk as it was when the parts were listed (`PassOf`); bytes received and thrown away are those of the bodies taken; it ends as gone, as repeated 5xx (at the third in a row over passes) or to be retried exactly after a failed attempt, in local_verify exactly when all attempts got all bytes known of, and without links, assets or directory in exactly these cases; each ending leaves its row; two writes are made exactly if the download began to show; missing plus wasted is conserved |
| `Download.ShortEndCompletes` | internal/files/downloader.go:102-150 | a body that ends cleanly short of the file is taken for complete exactly when the answer gives no total and no larger size is known from before |
| `LocalPhase.LocalJob.RunPasses` | internal/worker/download.go:194-282 | over any number of passes from the handover, each the one its state calls for, decided by what it meets: the stored retry count is the trailing run of 5xx attempts over all parts and passes, the job fails for 5xx exactly at the third in a row, one legal run leads here, a completed job is delivered, the bytes of the bodies taken plus missing ones are the sizes of all parts plus what was thrown away, and a strict server sends each byte of a completed job once |
| `LocalPhase.LocalJob.DownloadPass` | internal/worker/download.go:33-48 | claim, one download pass and release keep all that; the pass ends and leaves its row as the listing and the disk decide, and attempts something exactly when a part is left |
| `LocalPhase.LocalJob.FinalizePass` | internal/worker/finalize.go:12-27 | so do claim, one finalize pass and release; the row is that of the verdict |
| `LocalPhase.StillNotBefore` | internal/worker/download.go:251-266 | no earlier attempt had completed three in a row |
| `LocalPhase.LocalJob.VerifiedIsWhole` | internal/worker/finalize.go:41-61 | when no part looks incomplete to the finalizer, no byte is missing |
| `Download.Transfer.AttemptParts` | internal/worker/download.go:136-296 | the loop over the parts attempts every row not completed, in order, and stops at the first failed attempt |
| `Download.AttemptedNext` | internal/worker/download.go:136-296 | an attempt at the next row adds to the account of a pass and leaves that of the rows before as it is |
| `Download.EnoughIsCompleted` | internal/worker/download.go:282-296 | after all rows every part is completed exactly when every attempt got all the bytes known of |
| `Download.Transfer.AttemptPart` | internal/worker/download.go:194-295 | an attempt, from the disk and the row before to those after: the answer is taken whenever the server can be asked, the outcome, the staged bytes, the row, the fresh link, the end and the byte counts shown are decided by it, and no other file changes; the retry count stays the trailing 5xx run |
| `Download.Transfer.Download` | internal/files/downloader.go:48-151 | whether the server is asked and its body taken, and by the answer: the outcome (a clean body or 416, any other status, else an error), the staged bytes (all chunks that came, a cut body's too, behind what was there after a 206 and from the start after a 200), the bytes gained and wasted, what is on record of the part, and what shows of the job; a good end means the whole file or fewer bytes than are known of; no other file changes |
| `Download.Transfer.Heed` | internal/files/downloader.go:78-113 | the same for one answer: 416, other statuses, bodies and no answer |
| `Download.Transfer.ReadBody` | internal/files/downloader.go:115-150 | what comes of a body, read to a clean end or cut short: all its chunks are staged and counted before the error is returned |
| `Download.Transfer.Begin` | internal/files/downloader.go:94-113 | opening and the first report: what is staged then, and that a 5xx run ends only if more is staged than on record |
| `Download.AnnouncesTheSize` | internal/files/downloader.go:153-167 | the length taken from an answer is the size of the whole file, or 0 exactly when neither a length nor a range total is given |
| `Download.Transfer.Open` | internal/files/downloader.go:94-113 | going on after a 206 and starting over otherwise, the body fits the remote file |
| `Download.Transfer.Receive` | internal/files/downloader.go:115-142 | the loop appends exactly the chunks of the body and counts them |
| `Download.Transfer.Conclude` | internal/files/downloader.go:78-84 | a finished attempt reports the size it found |
| `Download.Transfer.Notify` | internal/worker/download.go:147-193 | the callback updates the part, shows the download once with the byte counts of the report, resets the retry count exactly if more is reported than on record, and checkpoints the first and the last report |
| `Download.Transfer.RefreshDownloadPartSourceURL` | internal/worker/download.go:317-357 | a link is refreshed if and only if the code is 404 or 5xx, the job has a task id that is not blank, the service lists links, and the first file that matches has a URL that is neither empty nor the part's; the row then has that URL, that file's id, and its size if none was known |
| `Download.Transfer.NoteFailure` | internal/worker/download.go:205-239 | a 5xx failure raises the retry count by one and any other resets it; the link is refreshed exactly then, and the row is stored |
| `Download.Transfer.HandleError` | internal/worker/download.go:194-280 | a failed attempt ends the pass as gone exactly on a 404 without a fresh link, else as repeated 5xx exactly at the third in a row, else to be retried |
| `Download.Transfer.Complete` | internal/worker/download.go:282-295 | a part is marked completed exactly when its length is unknown or it has as many bytes |
| `Download.Transfer.Register` | internal/worker/download.go:84-125 | registration records exactly the listed files, in order |
| `Download.Transfer.ListParts` | internal/worker/download.go:64-130 | ends without links exactly if none came, without assets exactly if none are listed, else registers every listed file with its key, id, URL, size, relative path and place below the staging directory |
| `Download.Transfer.Finish` | internal/worker/download.go:298-314 | all parts completed leads to local_verify and is due now, else the job stays in download; the byte counts are the sums over the parts |
| `Download.TrailingIsLastRun` | internal/worker/download.go:226-228 | the trailing 5xx count is at least k exactly when the last k attempts were 5xx |
| `Download.NextChunk` | internal/files/downloader.go:122-136 | each next chunk keeps the file a prefix |
| `Download.NextRegistered` | internal/worker/download.go:105-113 | distinct keys and paths register parts that stay apart |
| `Download.SyncJobBytesFromParts` | internal/worker/helpers.go:18-28 | the job gets the sums over its parts |
| `Download.TotalsOf` | internal/worker/helpers.go:18-23 | the totals add up the content lengths and the bytes done, part by part |
| `Download.AllPartsCompleted` | internal/worker/helpers.go:30-40 | true exactly for a non-empty list of completed parts |
| `Finalize.ProcessFinalizeJob` | internal/worker/finalize.go:29-76 | one write with the row of the verdict, for the target of the job; promoted exactly when every part looks complete and nothing is in the way of the rename, and then every part is delivered |
| `Finalize.TargetIsCompletedPath` | internal/worker/finalize.go:61-62 | the target is the path the layout gives for category, display name and id: the sanitised category, then the sanitised name with the id |
| `Finalize.ResultFields` | internal/worker/finalize.go:34-75 | the row of each verdict field by field: state, time, error, completed path, byte counts |
| `Finalize.Promote` | internal/files/layout.go:107-118 | fails exactly without a staging path, with a file in the way, or when the rename is impossible |
| `Finalize.CheckParts` | internal/worker/finalize.go:41-58 | no message exactly when every part is there and, if a length is known, not shorter |
| `Remove.ProcessRemoveJob` | internal/worker/remove.go:29-64 | for a payload reference dir + [name]: done exactly when completed tree, staging tree and dir are each absent or below their root and not stuck, refused at step 0, 1 or 2 exactly when the trees before went and that one is outside its root; done leaves no path at or below the three, a refusal removes exactly the trees before it, and nothing else goes; the row of each ending field by field; stuck leaves the row unchanged |
| `Remove.RerunCompletes` | internal/worker/remove.go:31-57 | a removal stopped anywhere any number of times and then finished leaves the disk as one never stopped |
| `Startup.ReconcileStartup` | internal/worker/orchestrator.go:96-160 | no claim is left, every row is its reconciled row, every orphan directory and nothing else is gone |
| `Startup.RemoveOrphanStagingDirs` | internal/files/layout.go:130-151 | succeeds exactly if the staging root is a directory and no orphan is stuck; then exactly the directories directly below it that no open job is named after are gone |
| `Startup.ReconcileJob` | internal/worker/orchestrator.go:107-157 | the branches for one job, none of whose writes the index refuses |
| `Startup.StateChangesOnly` | internal/worker/orchestrator.go:115-147 | a state changes only to local_verify or completed, under their conditions |
| `Startup.ReconciledFields` | internal/worker/orchestrator.go:107-157 | state, time and staging path after a start-up: a job in one of eight states with no time set is due now, one sent to be verified too, and every other time stays; the staging path is named exactly when the row is written |
| `Startup.ReconciledKeeps` | internal/worker/orchestrator.go:96-160 | nothing else of a row changes, but that its claim is gone |
| `Startup.ReconcileEvents` | internal/worker/orchestrator.go:122-156 | an event is logged exactly for a promotion or a job sent to be verified |
| `Startup.WokenAreClaimed` | internal/worker/helpers.go:71-78 | the states a start-up wakes are those that some worker claims, which are all open ones but accepted and completed, and no two workers claim one |
| `Startup.SecondStartIsQuiet` | internal/worker/orchestrator.go:96-160 | a second start-up changes no state and removes no directory |
| `Startup.SettledStays` | internal/worker/orchestrator.go:111-147 | a start-up leaves a state exactly when the row is settled |
| `Startup.OpenJobKeepsItsDirectory` | internal/files/layout.go:137-148 | the staging tree of an open job is untouched |
| `Startup.OrphansAreElsewhere` | internal/files/layout.go:130-151 | seen from an open job, the clean-up is a legal act |
| `Startup.ReconcileIsLegal` | internal/worker/orchestrator.go:131-156 | so is the row write for a job in download or verification |
| `Store.IndexIsUniqueness` | internal/store/migrations/0003_queue_tracking.sql:11-24 | the index lets a row in exactly when open keys stay unique |
| `Store.OwnKeyAllowed` | internal/store/migrations/0003_queue_tracking.sql:11-24 | writing back an open job under its own key is never refused |
| `Store.ListedIsOpen` | internal/store/model.go:37-44 | the states the index and the look-up list are exactly those that are not remote_failed, removed or failed |
| `Store.JobStore.CreateJob` | internal/store/store.go:127-174 | an insert fails exactly on a known id or an open key |
| `Store.JobStore.UpdateJob` | internal/store/store.go:176-242 | the whole row is stored and its claim cleared, unless the index refuses |
| `Store.JobStore.UpdateJobState` | internal/store/store.go:244-269 | as UpdateJob, with one event from the old to the new state |
| `Store.JobStore.FindActiveBySubmissionKey` | internal/store/store.go:271-286 | finds an open job with the key, if there is one |
| `Store.JobStore.SelectDue` | internal/store/store.go:385-392 | the due unclaimed rows that come first by the text of their creation time, up to the limit |
| `Store.OlderLosesExactly` | internal/store/store.go:390-391 | of two due rows and room for one the older loses exactly when both were created in one second and its fraction digits are a proper prefix of the other's |
| `Store.OlderLoses` | internal/store/store.go:390-391 | a row created on the second loses to one created half a second later |
| `Store.SelectedWithin` | internal/store/store.go:385-392 | due test and order are right up to a second |
| `Store.JobStore.ClaimJobsDue` | internal/store/store.go:372-447 | claims and fetches them; none is claimed a second early, and none that is due by a second is passed over for one created a second later |
| `Store.JobStore.ReleaseJobClaim` | internal/store/store.go:450-455 | clears the claim of a job, whoever holds it |
| `Store.JobStore.ReleaseAllClaims` | internal/store/store.go:459-463 | clears every claim |
| `Api.EnqueueSubmission` | internal/api/router.go:92-191 | a duplicate exactly when an open job has the key, else two events and one new submit_pending row |
| `Api.MarkRemovePending` | internal/api/router.go:193-210 | re-opening by delete succeeds exactly when no other open job has the key; the row then asks for removal, is due now and unclaimed, and is otherwise as read |
| `Submit.ProcessSubmitJob` | internal/worker/submit.go:31-113 | the handler makes exactly the writes of its trace, and the row stored is decided field by field by the answer (`Handed`): each identifier is the trimmed one of that name or none; a failure or a response without identifiers counts a retry or is final; the state, error and time of each case |
| `Submit.LeavesHanded` | internal/worker/submit.go:70-135 | the trace leaves that row |
| `Submit.TakeRemoteName` | internal/worker/helpers.go:135-144 | a non-empty remote name replaces a placeholder and nothing else |
| `Submit.NamedExactly` | internal/worker/helpers.go:135-144 | a name is given exactly to a job without one, or with its info hash or remote hash for one in any letter case |
| `Poll.ProcessPollJob` | internal/worker/poll.go:29-57 | the handler makes exactly the writes of its trace, and the row stored is decided field by field by the answers: which identifier comes from which part of the status and is kept when that is empty, status and byte counts, state, error, queued id and time of each case (`Applied`, `PutOff`, `AfterQueue`) |
| `Poll.ProcessQueuedPollJob` | internal/worker/poll.go:59-130 | so does the part for queued jobs: still queued, promoted and followed, or recovered from the active list |
| `Poll.TryRecoverActiveStatus` | internal/worker/poll.go:132-177 | so does the recovery from the active list, after a status, none, or an error that is final or not |
| `Poll.ApplyActiveStatus` | internal/worker/poll.go:179-255 | so does the application of a status: ready, failed or inactive, still active, or none |
| `Poll.ApplyLeaves` | internal/worker/poll.go:179-255 | the trace of a status leaves its row, field by field |
| `Poll.QueueLeaves` | internal/worker/poll.go:59-130 | so does the trace for a queued job |
| `Poll.RecoverLeaves` | internal/worker/poll.go:132-177 | and that of a recovery |
| `Jobs.WritesCompose` | internal/store/store.go:176-269 | writes in two stages leave what they leave in one |
| `Assets.RefreshFindsTheSameFile` | internal/worker/download.go:373-390 | in any permutation of well-named files the first match is the file the part was registered for |
| `Assets.MatchIsSameFile` | internal/worker/download.go:382-390 | a file matches the part of another exactly if it is the same file |
| `Assets.PositionsDecide` | internal/worker/download.go:373-390 | without file ids, the search stops at the nearer of the part's place and its file's new place, so it is right exactly when the file has not moved back |
| `Assets.MatchByPosition` | internal/worker/helpers.go:42-47 | such a part matches just these two places |
| `Assets.PositionsRedirect` | internal/worker/helpers.go:42-47 | two files that change places redirect the first part |
| `Paths.PaddedInjective` | internal/worker/helpers.go:46-50 | positions give distinct keys and fallback names |
| `Paths.PaddedShape` | internal/worker/helpers.go:46-50 | positions are written in decimal with at least three digits |
| `Assets.FindMatchingDownloadAsset` | internal/worker/download.go:373-380 | the first match, or none |
| `Assets.MatchesByEither` | internal/worker/download.go:382-390 | a part matches a file by key, by an id it has taken over, or by path |
| `Paths.GuardExact` | internal/worker/helpers.go:106-124 | the guard accepts exactly the targets whose cleaned components extend the root's |
| `Paths.SafePathOrdinary` | internal/worker/helpers.go:49-69 | a safe relative path is non-empty and made of ordinary components |
| `Paths.SafePathStaysBelow` | internal/worker/download.go:86-101 | joined to any root it is strictly below, so the guard never rejects it |
| `Paths.SafeNameKeepsPlace` | internal/worker/helpers.go:49-69 | a name that stays inside keeps its place, any other gets the fallback |
| `Paths.SafePathExact` | internal/worker/helpers.go:49-69 | a remote path, trimmed and with slashes for backslashes, keeps its place if it is relative and leads strictly below, and else becomes the numbered fallback |
| `Paths.JoinBelow` | internal/worker/download.go:87-88 | joining appends the components |
| `Paths.RunCleaned` | internal/worker/helpers.go:59-61 | cleaning a relative path first does not change where it leads |
| `Paths.SplitRender` | internal/worker/helpers.go:63-67 | components survive being written and split |
| `Paths.RenderSplit` | internal/worker/helpers.go:63-67 | a path survives being split and written |
| `Layout.CompletedPathShape` | internal/files/layout.go:58-71 | exactly two ordinary components below the root, the sanitised category and the sanitised name with the id, the last at most 255 bytes and ending in the id |
| `Layout.LastComponentExact` | internal/files/layout.go:65-87 | the sanitised name, or its longest valid prefix that leaves room, then a hyphen and the id |
| `Layout.CompletedPathsApart` | internal/files/layout.go:58-71 | no job's completed path is or lies in another's |
| `Layout.StagingPathShape` | internal/files/layout.go:46-48 | a job stages in its own directory directly below the staging root |
| `Layout.TruncationIsTight` | internal/files/layout.go:75-87 | the longest valid UTF-8 prefix that fits, at most 3 bytes shorter than allowed for a valid name |
| `Layout.TruncateName` | internal/files/layout.go:75-87 | the loop computes that prefix |
| `Layout.SanitizedIsOrdinary` | internal/files/layout.go:153-172 | a sanitised name is one ordinary component without reserved characters |
| `Layout.SanitizeExact` | internal/files/layout.go:153-172 | a sanitised name is the text without white space, dots and spaces around it, with each of nine characters replaced and nothing else changed, or `unnamed` exactly when nothing is left |
| `Text.TrimSpaceExact` | internal/worker/helpers.go:51 | trimming takes white space from both ends, all of it and nothing else |
| `TimeText.TextRoundTrip` | internal/store/store.go:804-814 | a stored time parses back to itself |
| `TimeText.TextOrder` | internal/store/store.go:812-814 | text order is time order for times in different seconds |
| `TimeText.TextDisagreesExactly` | internal/store/store.go:812-814 | exactly when the text order of two times is wrong |
| `TimeText.TextOrderWitness` | internal/store/store.go:388 | two times whose text order is wrong |
| `TimeText.DueWithinASecond` | internal/store/store.go:386-392 | a row that passes the due test is due within a second, and one due a second ago passes |
| `TimeText.CivilUnique` | internal/store/store.go:804-814 | a date and time of day is determined by its instant |
| `InfoHash.NormalizesExactly` | internal/api/router.go:289-304 | the normal form is the hash exactly when the trimmed text spells it in hex or base32 |
| `InfoHash.NormalFormFixed` | internal/api/router.go:289-304 | the result is empty or 40 characters, and its own normal form, except exactly for 32-byte texts that decode with a byte dropped |
| `InfoHash.NormalFormLength` | internal/api/router.go:297-302 | how long the result is for those |
| `InfoHash.LettersKept` | internal/api/router.go:298 | base32 characters are lost exactly to line breaks and wide letters |
| `InfoHash.LineBreakShortens` | internal/api/router.go:297-302 | 31 letters with a line break between them give 38 digits whose normal form is empty |
| `InfoHash.HashIsFixed` | internal/api/router.go:292-295 | the hex of a hash is a fixed point |
| `InfoHash.DistinctHashesStayApart` | internal/api/router.go:289-304 | distinct hashes have distinct normal forms |
| `InfoHash.Base32Exact` | internal/api/router.go:297-302 | on whole groups of characters decoding accepts exactly the encoding |
| `InfoHash.HexExact` | internal/api/router.go:292-295 | so does hexadecimal |
| `Limiter.TokenBucket.constructor` | internal/torbox/limiter.go:19-46 | no limit for non-positive arguments, else a full bucket and the tick interval |
| `Limiter.TokenBucket.Refill` | internal/torbox/limiter.go:35-39 | a tick adds a token unless the bucket is full |
| `Limiter.TokenBucket.Wait` | internal/torbox/limiter.go:55-65 | a wait takes a token, or gives up when the context is done |
| `Limiter.TakenPlusHeld` | internal/torbox/limiter.go:19-65 | tokens taken plus held never exceed the first fill plus ticks |
| `Limiter.WaitsInWindow` | internal/torbox/limiter.go:19-65 | at most capacity + T/interval + 1 waits succeed in a window of length T |
| `Limiter.WindowBoundIsTight` | internal/torbox/limiter.go:19-65 | a run that reaches the bound |

## Left out

- The TorBox HTTP client and its parsing: what the service answers is a parameter, with three stated assumptions: a part key always stands for the same content, listings have distinct keys and paths of which none is inside another, and, where `honest` is set, listed sizes are not above the real ones.
- HTTP handlers, sessions, authentication, client-specific projections and progress display: per-state tables and thin request handling.
- SQLite itself: statements are atomic, and the cascade from a pruned job to its events is part of pruning.
- Download.Transfer.Notify: whether 15 seconds have passed since the last checkpoint is left open, so that reports between the first and the last may be checkpointed or not; a row or part write that fails in the callback ends the attempt in the source; database writes in a pass succeed here, and what a failing one does to the event log is in Protocol.dfy (`Fail`, `Skip`, `Lose`).
- Outcomes.RemovalStep: of a job that a late delete has hit, here and in the other results on undisturbed jobs, nothing more is said than `Outcomes.OpenKeysUnique`, `Exclusion.NeverTwoAtWork` and the exact conditions under Findings.
- Download.Ask: a server is assumed never to end a body cleanly and short where `Download.LooksLast` holds; `Download.ShortEndCompletes` says what happens if it does.
- A registration of parts cut short by a crash: the source does not repair it, and the content result is stated for runs in which registration finishes.
- A crash between the promoting rename and the state write, and a part found missing by the finalizer: nothing repairs either, so only safety is claimed; `Completed` on a part is never reset.
- Job ids are taken to be fresh; SHA and random generators do not appear.
- A link from the rows of Protocol.dfy to those of Content.dfy beyond the handlers' writes: the two models are proved separately.
- Other jobs changing the disk during one pass: Content.dfy allows it between acts (`Other`), the methods of Session.dfy do not.
- A body write that fails half-way counts as the body being cut there; fsync, permissions, symbolic links and Windows paths do not appear.
- Start-up assumes what the layout gives: open jobs stage in their own directory, and completed paths lie outside the staging root.
- `updated_at`, ETags, metadata, source URIs and message texts that repeat system errors.
- Api.EnqueueSubmission: the submission key is a field of the row, so that the fingerprint's hash, the saving of payloads and the derived display name do not appear.
- HTML unescaping: remote names are parameters as they come out of trimming and unescaping.
- TimeText.TextRoundTrip: of Go's time parser only what accepts the service's own format is modelled.
- Limiter.WaitsInWindow: ticks are at exact multiples of the interval, which must be positive; a refill time shorter than the capacity in nanoseconds makes Go's ticker panic.
