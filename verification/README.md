# uploadfun, modelled and proved in Dafny

uploadfun sends one batch of files to many FTP, FTPS and SFTP endpoints at once.  Each endpoint has a
worker that reuses one connection, retries each file, trips a circuit breaker on repeated connect
failures, abandons the batch on a permanent error and obeys a context that may be canceled at any
moment.  All workers send events on one unbuffered channel; a single consumer prints them and decides
the exit status.  This project models that engine and the parts around it, and proves what they promise
for every behaviour of the servers, every cancellation and every schedule.

## How the model is laid out

- `Types`, `Paths`: events, endpoints, errors; remote names and the check that no two inputs share one.
- `Worker`: the endpoint worker as a step machine.  One action is one interaction with the outside
  world: a call on the uploader with its outcome, an event sent, a look at the context, a sleep.
  Outcomes and progress callbacks are free, and `Cancel` may come between any two actions.
- `EndpointWorkers` (EndpointWorker.dfy): the worker as the Go code writes it, a class with its fields,
  its loop over files and its loop over attempts, proved to leave a run of the step machine.  It is the
  bridge: each theorem about runs of `Worker` holds of the class.
- `WorkerSafety`, `WorkerBreaker`, `WorkerCancel`, `WorkerGiveUp`, `WorkerLength`, `DeadEndpoint`:
  invariants and theorems over whole runs; `WorkerOptions`: what overwrite mode and no-verify do to its
  calls; `Permissions`: where a permanent error can come from.
- `WorkerGrammar`, `WorkerParse`, `WorkerRealise`: an independent reference, a tree of what happened to
  each file and how it reads as calls, events and retry sleeps, and the proof that the readings of well-formed trees
  are exactly what complete runs show.
- `Stores`, `Delivery`, `DeliveryLimits`: a remote store per endpoint and what a success event is worth.
- `Deletions`: the server's replies to a delete and what the two clients make of them.
- `Jobs`, `System`, `SystemProgress`: upload, dry-run and no-transport jobs; all of them on one
  unbuffered channel with one consumer, under an arbitrary scheduler.
- `JobReadings`: exactly what dry runs and endpoints without a transport do.
- `SharedStores`: endpoints that share a server and a directory.
- `DryRuns`: what a dry run does to the remote store.
- `Command`: the command from parsed configuration and inputs to the exit status.
- `Throttle`, `Printer`, `ProgressReader`, `ProgressRuns`: progress reporting from the reader to the
  printed line, with Go's 64-bit arithmetic written out.
- `Deadlines`, `Diallers` (Dialler.dfy): the handover from the connect deadline to the stall deadline,
  with reads, writes and the clock interleaved freely with the dialling code.
- `Interpolation`, `Config`, `LoadConfigs` (LoadConfig.dfy), `ConfigIssues`: `${VAR}` interpolation,
  configuration loading, and what a rejected configuration is reported for.

Outside the model, and hence inputs to it: what servers answer, when the context is canceled, the clock,
environment variables, local file sizes, the parsed YAML, what time.ParseDuration and home expansion
make of a text, and whether a wrapped error satisfies `errors.Is(err, os.ErrPermission)`.

## Findings

- Done is sent before the deferred disconnect (dispatch.go:88 and 114), although uploadfun.go:184-185
  says the worker has disconnected by then: `WorkerBreaker.DoneBeforeDisconnect` says when it has not.
  "Nothing left open" is therefore stated of the return of `run`.
- A GivenUp event can follow a cancellation, because dispatch.go:106 comes before the next look at the
  context.  It does exactly if the file under way is not the last and has failed for good or still does
  (`WorkerGiveUp.SkipsAfterCancellation`), and it happens in exactly the batches of two files or more that
  may be attempted at all (`WorkerGiveUp.CanGiveUpLateExactly`).
- dispatch.go:197-204 says that the permanent-error test only ever matches SFTP.  It also matches the
  error of opening or stating the local file (transports.go:60-67, internal/transport/conn.go:15-21), so
  one unreadable file makes an FTP endpoint abandon its batch: exactly then, and for nothing an FTP server
  answers (`Permissions.AbandonsExactlyWhenDenied`, `Permissions.CanGiveUpLocallyExactly`).
- dispatch.go:325-328 says that the probe of a dry run is on the server only between its upload and its
  delete.  What a failed upload leaves is never deleted: `DryRuns.AnyDryRunLeavesItsProbeExactly`.
- The delivery guarantee needs both of its conditions: `DeliveryLimits.DeliveryIsGuaranteedExactly`.
- Nothing keeps two endpoints of a configuration from naming the same server and directory.  A FileSuccess
  event then says less than it does for one endpoint (`SharedStores.SuccessCanBeUndone`), but exit status 0
  still says that every file is stored (`SharedStores.ExitZeroMeansDelivered`).
- FTP Delete takes reply 550 for success, which RFC 959 section 4.2.2 also uses for "no access".  So
  Delete breaks the contract of the uploader interface exactly when an FTP server answers 550 about a
  file that is there (`Deletions.DeleteIsHonestExactly`), and that is exactly when a dry run that
  reports success leaves its probe behind (`DryRuns.ProbeStaysExactly`).
- The printed percentage is wrong exactly above MaxInt64 / 100 bytes sent:
  `Throttle.PercentIsFloorExactlyWithoutOverflow`.
- A read or write in flight when the stall deadline takes over goes on without any deadline.  That
  happens exactly if the library reads on goroutines of its own, as an SSH client does; not through FTP,
  whose client has nothing in flight when its login returns: `Deadlines.BareCallsExactlyInBackground`.
- Interpolation is idempotent on exactly the texts without a reference:
  `Interpolation.IdempotentExactlyWithoutReferences`.
- Interpolation leaves the protocol alone, although the repository's README (line 159) says that it works
  in any string field: a protocol with a reference in it is rejected whatever the environment, and those
  are exactly the texts that interpolation would have changed (`LoadConfigs.ProtocolIsReadLiterally`).
- A bad global connect_timeout is reported again for every endpoint that relies on it; no other bad
  global is: `LoadConfigs.PolicyReports`.
- Two different pairs of endpoint and file share a key of the progress map exactly if a NUL in one's
  endpoint name and a NUL in the other's file name match up (`Printer.KeysCollideExactly`).  No path holds
  a NUL, so the keys of the command never collide, whatever endpoints are called.

## Model

| member | source | states |
|---|---|---|
| `EndpointWorkers.EndpointWorker.RunBatch` | dispatch.go:85-117 | The imperative worker's whole batch, for every outside world: its log is a complete run of the step machine and reads as a well-formed tree, no connection is left open, and the last event, Done, counts the FileSuccess events sent and every other file |
| `EndpointWorkers.EndpointWorker.UploadFile` | dispatch.go:150-195 | The attempt loop leaves a file exactly as the machine does: attempts numbered from 1, the breaker and permanent error read where the code reads them, fields in step with the machine |
| `EndpointWorkers.EndpointWorker.Connect` | dispatch.go:217-238 | A failed connect counts only if the context is live when asked again afterwards; a success resets the counter; the three results lead to three different places |
| `EndpointWorkers.EndpointWorker.Transfer` | dispatch.go:253-279 | Delete only under delete-first, then Upload, then Verify unless switched off; the first error is the result, tagged with the call it came from |
| `EndpointWorkers.EndpointWorker.ReportProgress` | dispatch.go:263-267 | Every progress callback becomes one event with the local path, in order |
| `EndpointWorkers.EndpointWorker.Disconnect` | dispatch.go:281-288 | Disconnects if and only if connected, and leaves the worker unconnected |
| `EndpointWorkers.EndpointWorker.SleepBeforeRetry` | dispatch.go:290-296 | Sleeps exactly once if another attempt is left, and not at all otherwise; only a cancellation can come first |
| `EndpointWorkers.EndpointWorker.SkipRemaining` | dispatch.go:126-136 | One Unreachable event with the failure count and exactly the files left, all of them tallied as failed |
| `EndpointWorkers.EndpointWorker.SkipGivenUp` | dispatch.go:138-148 | One GivenUp event with the permanent error and exactly the files after the current one, all tallied as failed |
| `EndpointWorkers.EndpointWorker.Finish` | dispatch.go:88-116 | Done first, then the deferred disconnect |
| `WorkerSafety.InvHolds` | dispatch.go:67-195 | Every reachable state of every run keeps the place, breaker and tally invariants: among them that succeeded plus failed is the number of files dealt with, and that the breaker is closed and its counter 0 while connected |
| `WorkerRealise.GrammarIsExact` | dispatch.go:85-195 | The traces of complete runs, in calls, events and retry sleeps, are exactly the readings of well-formed trees: per-file blocks with attempts numbered from 1, each refused, tripping, aborted or transferred over a fresh or reused connection; one sleep after every attempt but the last permitted one that was refused short of the breaker limit or failed without a permanent error, and none elsewhere; breaker trips exactly at the limit of consecutive refusals; at most one Unreachable or GivenUp with an exact suffix; one Done with exact counts; a final Disconnect iff the last attempt delivered |
| `WorkerParse.CompleteRunReadsAsTree` | dispatch.go:85-195 | Soundness half: every complete run, for every uploader behaviour and cancellation, reads as a well-formed tree |
| `WorkerRealise.EveryTreeHappens` | dispatch.go:85-195 | Completeness half: every well-formed tree, with or without a cancellation, is the reading of some complete run |
| `WorkerBreaker.BreakerCountsTrailingRefusals` | dispatch.go:74-78 | The counter is the length of the trailing run of failed, non-canceled connects, never above the limit M, 0 while connected; refused connects are at most (M - 1) per successful one, plus M |
| `WorkerBreaker.OpenBreakerIsFinal` | dispatch.go:97-124 | Once the counter is at the limit no uploader call follows, in any continuation |
| `WorkerBreaker.ConnectionsAlternate` | dispatch.go:256-288 | On every prefix of every run successful connects and disconnects balance up to the open connection; transfers happen only with one open, connects only without; nothing is open when the worker returns |
| `WorkerBreaker.ConnectionsAreReused` | dispatch.go:173-187 | At most one more connect succeeds than delete, upload and verify calls fail: a connection is kept until a transfer on it fails |
| `WorkerBreaker.DoneBeforeDisconnect` | dispatch.go:88-116 | Done is sent with the connection open exactly if the last FileSuccess or FileError sent is a FileSuccess; the deferred disconnect is then all that is left, and otherwise nothing is |
| `WorkerCancel.AfterCancellation` | dispatch.go:92-117 | After a cancellation at any point of any run: at most one more FileStart, connect, delete, upload, verify and success, at most one event that skips files, at most two failure reports of any kind; no further connect failure counted, and none reported but the one already found genuine and about to be reported; every file accounted for |
| `WorkerGiveUp.SkipsAfterCancellation` | dispatch.go:92-117 | Over a complete run with a cancellation at any point: a GivenUp event follows it if and only if the file under way is not the last and has failed for good by then or does so afterwards; an Unreachable event follows it if and only if the worker was about to send it |
| `WorkerGiveUp.AbandonsExactly` | dispatch.go:106-111 | A worker ends with a permanent error if and only if a delete, upload or verify failed for lack of permission, and reports files as given up if and only if some were then left |
| `WorkerGiveUp.CanGiveUpLateExactly` | dispatch.go:106-111 | A complete run with a GivenUp event after a cancellation exists if and only if the batch has two files or more and attempts and breaker limit allow one attempt |
| `Permissions.AbandonsExactlyWhenDenied` | dispatch.go:197-207 | With every failed call traced to the local file, the server's answer or the exchange: the batch is abandoned if and only if the local file could not be read for lack of permission or, through SFTP, the server denied permission |
| `Permissions.CanGiveUpLocallyExactly` | transports.go:57-71 | For every protocol, FTP included: a complete run that reports files as given up without any denial by the server exists if and only if the batch has two files or more and may be attempted |
| `WorkerCancel.AfterPermanentError` | dispatch.go:176-187 | After a permission error of a delete, upload or verify the only call left is one Disconnect; no further success, and every file without one fails |
| `WorkerOptions.WorkerObeys` | dispatch.go:253-279 | In every run, cancellations aside: no delete unless the mode is delete-first, under which every upload comes right after a delete of its name that went through; no verification if it is switched off, and otherwise every FileSuccess comes right after the passing verification of its file and carries its method |
| `WorkerLength.RunsAreBounded` | dispatch.go:92-194 | In every run at most 2 A n + 2 events beyond progress, and at most (16 A + 1) n + 3 steps of the worker's own, for n files and A attempts |
| `WorkerLength.NeverStuck` | dispatch.go:87-195 | Until it has returned a worker can always take a step, whatever the outside world answers |
| `WorkerLength.DoneAddsUp` | dispatch.go:114-116 | Exactly one Done, last; Succeeded is the number of FileSuccess events and Failed all other files; every event carries the endpoint's name |
| `DeadEndpoint.DeadBatch` | dispatch.go:154-171 | Closed form for an endpoint that refuses every connect: with K = min(M, n A) exactly K connects, K - ceil(K/A) sleeps, K errors and one more iff M <= n A, one Unreachable iff M <= n A and files are left |
| `DeadEndpoint.DeadSkips` | dispatch.go:97-136 | That Unreachable event carries exactly the files after the first ceil(M/A) |
| `Stores.VerifyMeansSameSize` | internal/transport/conn.go:15-30 | A size verification can pass if and only if both sizes are there and equal; it then passes as "size" and changes nothing |
| `Delivery.SuccessMeansDelivered` | dispatch.go:152-279 | With verification on and distinct remote names: at every point of every run each file reported successful is on the endpoint at its local size, whatever happened to other files since; a worker that returns without failures has delivered all |
| `DeliveryLimits.DeliveryIsGuaranteedExactly` | dispatch.go:271-273 | That guarantee holds of a batch for all server behaviours if and only if verification is on and no two inputs share a remote name |
| `Paths.CheckBasenameCollisions` | cmd/uploadfun/main.go:222-236 | Accepts exactly the batches with distinct remote names, and otherwise names the earliest colliding pair |
| `Paths.BaseIsLastElement` | cmd/uploadfun/main.go:229 | The remote name of a path is its last non-empty element; a dot for the empty path and one separator for separators alone |
| `Jobs.UploadRuns` | dispatch.go:61 | An upload job runs exactly as its worker |
| `Jobs.JobVerdict` | dispatch.go:43-62 | A finished upload or no-transport job reports a failure exactly when it sent fewer successes than it has files |
| `JobReadings.DryRunIsExact` | dispatch.go:298-344 | A dry run can do and report exactly this: connect, write the probe file, upload it, delete it, up to the first call that fails; then one DryRun event with the error of that call, or with the number of files if none failed; then disconnect if it connected |
| `JobReadings.NoTransportIsExact` | dispatch.go:43-52 | Without a transport an upload sends one error of attempt 1 for each file, in order, and a Done with all of them failed, and a dry run its one error; nothing is called |
| `DryRuns.DryRunLeavesNoTrace` | dispatch.go:298-344 | A dry run yields one DryRun event and nothing else, balances Connect and Disconnect, touches no name but the probe's; one that succeeds counts all files, and with a free probe name leaves the store as it was if and only if Delete kept its contract; for those that fail see `AnyDryRunLeavesItsProbeExactly` |
| `DryRuns.AnyDryRunLeavesItsProbeExactly` | dispatch.go:329-344 | Any dry run with a free probe name, failed ones included, leaves something under it if and only if the upload left something and no delete removed it; after a failed upload nothing is deleted, so whatever it left stays |
| `Deletions.DeleteIsHonestExactly` | internal/transport/ftp.go:176-217 | With the clients' tests of the server's reply, in any log: a Delete that returns nil means the file is gone if and only if no FTP server answered 550 about a file that was there; through SFTP always |
| `DryRuns.ProbeStaysExactly` | dispatch.go:325-344 | A successful dry run with a free probe name leaves the probe if and only if the FTP server answered 550 to its deletion while it was there |
| `DryRuns.ProbeCanStayExactlyThroughFtp` | internal/transport/sftp.go:171-180 | From any store without the probe, such a dry run exists if and only if the protocol is FTP or FTPS |
| `System.ProjectionRuns` | dispatch.go:31-41 | For every interleaving, what one job does and sees is a run of that job alone |
| `System.ReceivedFromEach` | uploadfun.go:215-231 | For every interleaving, with distinct endpoint names, the received stream restricted to an endpoint is that job's own event sequence |
| `System.NoSendAfterClose` | uploadfun.go:222-231 | The channel closes only when every job has returned, and then nothing is sent any more |
| `System.ExitStatus` | cmd/uploadfun/main.go:276-283 | Outside a dry run the exit status is 0 exactly when the stream held files times endpoints FileSuccess events, and else the partial-failure status |
| `System.DryExitStatus` | cmd/uploadfun/printer.go:64-79 | The exit status of a dry run is 0 exactly when every preflight passed, those of endpoints without a transport included; each job sends exactly its one report |
| `System.SameVerdict` | cmd/uploadfun/printer.go:64-79 | The exit status does not depend on the schedule |
| `System.SuccessesAddUp` | uploadfun.go:222-231 | The consumer counts as many successes as the jobs report |
| `SystemProgress.NoDeadlock` | uploadfun.go:215-231 | Every reachable state short of the consumer's exit has an enabled move that is no cancellation, whatever the outside world answers |
| `SystemProgress.EveryRunEnds` | dispatch.go:31-41 | A measure over all jobs and the consumer bounds every run of the system, up to its progress events and cancellations |
| `SystemProgress.ExitZeroMeansDelivered` | cmd/uploadfun/main.go:255-284 | Exit status 0 with verification on and accepted inputs means every file is on every endpoint at its local size, for every schedule, server behaviour and cancellation |
| `SharedStores.StoredOrPending` | dispatch.go:253-279 | For jobs on one store, with deletes, uploads and verifications of the same names overlapping in any way: at every moment each file is in the store at its local size, or some job using the store has not verified it yet or has failed |
| `SharedStores.ExitZeroMeansDelivered` | cmd/uploadfun/main.go:255-284 | So exit status 0 with verification on means that every file is at its local size in every store that endpoints share, however their jobs interfered |
| `SharedStores.SuccessCanBeUndone` | dispatch.go:253-279 | A witness, for any two jobs on one store: a run in which the success of a verified file has been received and the file is then not stored |
| `Command.Prepare` | cmd/uploadfun/main.go:255-279 | Stops with the usage error exactly on no inputs or colliding remote names, with the config error exactly on an invalid configuration, and otherwise goes on with the configured endpoints, resolved and distinctly named |
| `Command.UploadVerdict` | dispatch.go:31-62 | For the jobs dispatch starts, outside a dry run and for every schedule: the stream restricted to an endpoint's name is its job's, and the exit status is 0 exactly when every file succeeded on every endpoint |
| `Command.OptionsAreObeyed` | dispatch.go:61 | For the jobs dispatch starts, outside a dry run and for every schedule: each endpoint's calls obey its own overwrite mode and the no-verify option as in `WorkerOptions.WorkerObeys`, and every FileSuccess received claims no method with --no-verify and the method of a verification of that file that passed without it |
| `Command.DryRunVerdict` | dispatch.go:43-59 | The same for a dry run: the stream holds exactly one event per endpoint, a DryRun that counts the files if there is no error, and the exit status is 0 exactly when none has one, which no endpoint without a transport allows |
| `Command.ExitZeroMeansDelivered` | cmd/uploadfun/main.go:255-284 | End to end, with verification on: exit status 0 means every protocol has a transport and every file is on every endpoint at its local size |
| `Throttle.PercentIsFloorExactlyWithoutOverflow` | cmd/uploadfun/printer.go:158-161 | The int64 percentage is the true floor if and only if at most MaxInt64 / 100 bytes were sent |
| `Throttle.AttemptIsThrottled` | cmd/uploadfun/printer.go:146-183 | One attempt prints at most ten lines at strictly increasing steps, non-final ones at least a second apart; the step of 100 is printed exactly once, last, and exactly when a final callback arrives |
| `Throttle.AttemptPrintsExactly` | cmd/uploadfun/printer.go:150-183 | One attempt at a file of stable size, on a clock that does not go back, prints a line for a callback if and only if it has reached a tenth of the file or is final, that tenth is not the one of the last line, and it is final, or no line was printed yet, or a second has passed since; with the true percentage.  So after a callback that has reached a tenth, a second or more after the last line, the last line shows that tenth |
| `Printer.Printer.HandleProgress` | cmd/uploadfun/printer.go:150-183 | The early returns and in-place updates amount to one throttle step of that key |
| `Printer.ModesOnlyFilter` | cmd/uploadfun/printer.go:81-132 | For every stream the output of each mode is the verbose output with the lines that mode suppresses left out, and in every mode standard error receives exactly the failure events of the stream, in order |
| `Printer.OutputTellsExactly` | cmd/uploadfun/printer.go:81-132 | For every stream the events told of on standard output are, in order, exactly its FileStart, FileSuccess, Done and error-free DryRun events in verbose mode, all but FileStart in default mode, and none in quiet mode |
| `Printer.EventPrints` | cmd/uploadfun/printer.go:81-183 | Each event adds its own line on its own stream or nothing; a callback adds at most one progress line, with its own numbers, in verbose mode only |
| `Printer.StatesAreDropped` | cmd/uploadfun/printer.go:81-100 | The map holds a state for a file on an endpoint exactly from its first announcement or callback to its success, and none outside verbose mode, as long as no event's key can be mistaken for theirs |
| `Printer.Printer.ProcessEvents` | cmd/uploadfun/printer.go:64-79 | The loop prints the fold of the stream and reports failure exactly when some Done has failures or some DryRun an error |
| `Printer.KeysCollideExactly` | cmd/uploadfun/printer.go:140-144 | Two pairs share a progress key if and only if they are the same pair or one is the other with a NUL shifted from its file name into its endpoint name |
| `Printer.KeysAreInjective` | cmd/uploadfun/printer.go:140-144 | A key determines endpoint and file unless one's endpoint name and the other's file name both hold a NUL |
| `Printer.KeysDoNotInterfere` | cmd/uploadfun/printer.go:81-183 | As long as no event's key can be mistaken for theirs, state and progress lines of one endpoint and file in any interleaved stream are those of a throttle that sees that file's events alone |
| `Printer.NulFreeIsUnambiguous` | cmd/uploadfun/printer.go:140-144 | That condition holds of any stream whose endpoint names are free of NULs, and of any whose file names are |
| `ProgressReader.Reader.Read` | internal/transport/conn.go:105-114 | Bytes and error pass through unchanged; each answer with bytes is reported once with the total so far |
| `ProgressReader.ReportsAreCumulative` | internal/transport/conn.go:98-114 | Over any chunking the reports strictly increase, each is the number of bytes yielded so far, and the last is everything |
| `ProgressReader.StreamToClose` | internal/transport/sftp.go:194-208 | The upload succeeds exactly when every byte was written and the close succeeded; otherwise the error is that of the first write refused, everything before it having been written, else that of the last read, else that of the close |
| `ProgressReader.UnannouncedMarks` | cmd/uploadfun/printer.go:150-156 | Callbacks of a file without a state, never announced or after its success, print what a fresh throttle prints |
| `ProgressReader.UploadPrintsOneFinalLine` | cmd/uploadfun/printer.go:81-183 | Reader to printer, in any interleaved stream and after any earlier attempts: an announced attempt that reads a file of stable size to its end adds a fresh throttle's lines to that file's progress lines, exactly one of them final, the last, or none if the file is empty |
| `ProgressRuns.UploadOfARunPrintsOneFinalLine` | dispatch.go:263-273 | The same derived from runs of the whole system: in the stream a consumer has received from any run, an upload that has gone through and read its file to the end has added, since its attempt was announced, a fresh throttle's lines to those of its file, exactly one of them final, the last, or none if the file is empty |
| `Deadlines.WipedExactlyByClearAfterMark` | internal/transport/sftp.go:65-68 | Some interleaving lets clearDeadline wipe a stall deadline if and only if there is a stall timeout, the library reads or writes on its own goroutines, and a clear follows a mark in the program: for such a library the statement order is what protects it |
| `Deadlines.BothProgramsClearFirst` | internal/transport/sftp.go:65-68 | Both dialling programs clear before they mark and never after; only FTP detaches |
| `Deadlines.ConnectDeadlineCoversTheLogin` | internal/transport/conn.go:40-53 | The first connection has the connect deadline in both directions exactly until it is cleared; no other connection ever has one, and none is left once established |
| `Deadlines.TransferRunsUnderTheStallTimeout` | internal/transport/conn.go:71-94 | A read or write begun after establishment runs under a clock reading since establishment plus the stall timeout, its own reading if calls of a direction do not overlap, and under none if the timeout is 0 |
| `Deadlines.UnguardedExactlyUntilArmed` | internal/transport/conn.go:71-94 | After establishment a direction of a connection has no deadline if and only if no call of it has armed |
| `Deadlines.BareOnlyIfLoadedBefore` | internal/transport/conn.go:89-94 | With a stall timeout a blocked call is without a deadline only if it loaded the flag before establishment, and then exactly until a call of its direction arms |
| `Deadlines.BareCallsExactlyInBackground` | internal/transport/conn.go:71-94 | With a stall timeout and a program that clears before it marks, a call can be blocked without a deadline after establishment if and only if the library reads or writes on goroutines of its own |
| `Deadlines.BareThroughSftpOnly` | internal/transport/sftp.go:44-70 | So that happens through SFTP and not through FTP |
| `Deadlines.LaterDialsAreDetached` | internal/transport/ftp.go:100-123 | Data connections dialled after the handover have no deadline, and are outside the connect context exactly when the program detaches |
| `Diallers.Dialler.Dial` | internal/transport/ftp.go:103-123 | Only the first dial arms the connect deadline and is remembered as the control connection |
| `Diallers.Dialler.DialFtp` | internal/transport/ftp.go:62-87 | With other goroutines' steps let in between the statements: established exactly on success, detached, no connect deadline left anywhere, no stall deadline wiped |
| `Diallers.Dialler.DialSftp` | internal/transport/sftp.go:44-70 | The same for SFTP, which has nothing to detach |
| `Interpolation.ReferenceIsTheMatch` | config.go:45 | The scanner finds a reference exactly where the pattern matches, with the only name that fits |
| `Interpolation.ScanIsFaithful` | config.go:327-337 | The segments concatenate back to the text, and no character kept as itself begins a reference |
| `Interpolation.ScanIsUnique` | config.go:327-337 | There is only one such segmentation |
| `Interpolation.InterpolateEnv` | config.go:324-342 | The one-pass loop computes the substitution and the missing names of that segmentation |
| `Interpolation.FailsExactlyOnUnsetReferences` | config.go:330-341 | Interpolation fails exactly when some reference is to an unset variable, and then returns the text unchanged |
| `Interpolation.MissingInOrder` | config.go:326-341 | Every reference to an unset variable is named in the error, at its own place in the order of the text |
| `Interpolation.OnlyWrittenNamesMatter` | config.go:329-337 | Inserted values are never scanned: only the names written in the text are looked up |
| `Interpolation.InterpolatingOwnSpellings` | config.go:329-337 | Substituting each variable by its own spelling is the identity |
| `Interpolation.FixedExactlyWithoutReferences` | config.go:324-342 | No environment changes or rejects a text if and only if it holds no reference |
| `Interpolation.IdempotentExactlyWithoutReferences` | config.go:324-342 | A second pass returns every successful result unchanged, for all environments, if and only if the text holds no reference |
| `Interpolation.NestedReferenceComesOut` | config.go:324-342 | A witness: for any two names, a value that completes a reference makes one come out as text, and a second pass fails on it |
| `Config.ResolvePolicy` | config.go:100-135 | Overlays the set fields on the base and collects one problem per bad field, in order, a bad duration counting as 0; there is none if and only if every field that is set is good and every unset duration inherits an acceptable one |
| `Config.BuildEndpoint` | config.go:137-197 | One endpoint with every problem it has, in the code's order, and the names in use afterwards; there is none if and only if the endpoint is valid on its own, inherits acceptable durations for those it leaves unset, and its resolved name is not in use; which they are is `ConfigIssues.EndpointIssuesExact` |
| `Config.InterpolateFields` | config.go:217-236 | Six fields interpolated, with one problem for each that refers to unset variables; there is none if and only if all of them resolve |
| `LoadConfigs.NamesAreBlamedExactly` | config.go:238-247 | An endpoint is reported for a missing name exactly if its resolved name is empty, and as a duplicate exactly if that name is not empty and an earlier endpoint has it |
| `ConfigIssues.EndpointIssuesExact` | config.go:137-322 | For each of the 24 issues an endpoint can have, when it is reported, stated on the substituted texts and set fields; each is reported at most once, in one fixed order, under the endpoint's label |
| `ConfigIssues.AllIssuesExact` | config.go:47-78 | What a rejected configuration is reported for is exactly what is wrong with its globals, its number of endpoints and each endpoint, labelled by name or place: nothing is lost and nothing made up |
| `LoadConfigs.LoadConfig` | config.go:47-78 | Succeeds exactly when the globals and all endpoints are individually valid, there is one at least, and resolved names are distinct; then order and length are kept, every text is substituted, an endpoint deletes first if and only if its mode is empty or delete-first and writes directly if and only if it is direct, every policy field is the endpoint's, else the global, else the default, and all engine preconditions hold; otherwise returns every problem |
| `LoadConfigs.AllProblemsExact` | config.go:58-75 | There is no problem to report if and only if the configuration is valid |
| `LoadConfigs.ValidPoliciesLayer` | config.go:80-135 | Valid layers give endpoint-else-global-else-default in every field, and a workable policy |
| `LoadConfigs.BlameForPolicies` | config.go:301-322 | An endpoint reports a policy field exactly when its own value is bad, or the field is connect_timeout, unset, and the global one is bad |
| `LoadConfigs.PolicyReports` | config.go:63-72 | How often each bad policy field is reported in all: once for the global value and once for each endpoint to blame |
| `LoadConfigs.ProtocolIsReadLiterally` | config.go:249-259 | An endpoint whose protocol holds a reference is invalid in every environment; interpolation would have changed exactly such protocols, and could have made one of each variable name valid |
| `LoadConfigs.EveryEndpointCanBeConfigured` | config.go:47-78 | Round trip: for any distinctly named endpoints the engine can work with, whatever their texts hold, the configuration that refers to one variable for each text loads, in the environment that sets them, as exactly those endpoints, under any valid global policy |
| `LoadConfigs.SpelledConfigLoads` | config.go:47-78 | Round trip without an environment: such endpoints whose texts hold no reference and whose key paths home expansion leaves alone load back from the configuration that spells them out |

## Left out

- `EndpointWorkers.EndpointWorker.RunBatch`: its outside world cancels at calls, looks at the context and sleeps; the step machine, and every theorem about it, allows a cancellation between any two actions.
- `WorkerRealise.GrammarIsExact`: looks at the context are not part of a reading; they are steps of the machine the class is proved against.
- `LoadConfigs.LoadConfig`: reading the file and decoding YAML come before it; an endpoint of unknown protocol is never returned, so the protocol of a rejected endpoint is not modelled.
- `Paths.BaseIsLastElement`: slash-separated paths only; Windows separators and volume names are not modelled.
- `ConfigIssues.EndpointIssuesExact`: the wording of the messages is left out.
- `ProgressReader.StreamToClose`: the copy is io.Copy's plain loop; the pipelined writes of the SFTP library and short writes are not modelled.
- `Deadlines.TransferRunsUnderTheStallTimeout`: says which deadline is in force, not when the operating system reports its expiry.
- `SystemProgress.EveryRunEnds`: takes progress callbacks and cancellations to be finitely many.
- Elapsed times, message texts, JSON encoding and the outputs' formatting.
- Real TLS, SSH and FTP exchanges, key loading, known_hosts and TLS settings: foreign code behind the uploader interface.
- `Deadlines.BareThroughSftpOnly`: that the FTP library has nothing in flight when a call on it returns, and that an SSH client reads in the background, are assumptions about libraries that are not part of this model.
- `Permissions.AbandonsExactlyWhenDenied`: an error of a broken exchange is taken never to be a permission error, as the libraries, which are not part of this model, return it.
- `SharedStores.StoredOrPending`: every upload takes effect between its call and its return, failed ones included.
- `Deletions.DeleteIsHonestExactly`: an SFTP server's "no such file" status is taken to mean that there is none.
- Flag parsing, path expansion, the permission warning and the second-signal exit: no property beyond their bodies.
- Removal of the local probe file and the randomness of the probe's remote name, which is a parameter.
- The length of a retry sleep and the connect context's timeout as clock times; connect outcomes are free instead.
