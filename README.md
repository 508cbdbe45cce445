# nd2-converter: a model of the job protocol

nd2-converter converts Nikon ND2 microscopy files to pyramidal OME-TIFF. The
web server (`server/app.js`) accepts an upload and stores every file in an S3
input bucket. It then puts a job message on an SQS queue. The worker
(`server/app-worker.js`) polls that queue one message at a time. For each
input of a job it downloads the object and runs Bio-Formats' `bfconvert`
(`server/convert.js`). It uploads the result and mails the user signed
download links. A failure instead mails the administrator and then the user,
and the message goes to an error queue. The status page
(`client/assets/script.js`) shows file sizes in binary units.

This Dafny project models that protocol together with the string logic
around it:

- `template.dfy` (`Template`): the `readTemplate` substitution of `{name}`
  tokens, as a single left-to-right pass.
- `paths.dfy` (`Paths`): POSIX `basename`, `extname`,
  `basename(p, extname(p))` and `resolve`, on the paths the worker builds.
- `naming.dfy` (`Naming`): the input and output file names, the output key,
  and the local paths of one input.
- `convert.dfy` (`Convert`): the argument vector, executable and environment
  that `convert` passes to `bfconvert`.
- `effects.dfy` (`Effects`): the semantics of awaited calls.
  - Every external call is a `Step` in a log. A call fails exactly when its
    log position is in the set `faults`.
  - `Run` is a sequence of `await`s that stops at the first call that throws.
  - `TryCatch` is a `try`/`catch` statement whose handler is given the call
    that threw.
- `job.dfy` (`Job`): `processMessage` as a specification. `ProcessSpec` gives
  the steps it logs and how its promise settles (true, false or rejected) for
  every pattern of faults.
- `consumer.dfy` (`Consumer`): one iteration of `receiveMessage` as a
  specification. The steps are:
  - receive at most one message;
  - parse it;
  - start the heartbeat;
  - process the job;
  - clear the heartbeat;
  - send to the error queue when the job failed;
  - delete the message;
  - reschedule, always.
- `worker.dfy` (`Worker`): the worker as imperative code. The class `World`
  holds the log, the job queue and the error queue as sequences. Its methods
  (`ProcessMessage`, `ReceiveOnce`, …) await calls one at a time, loop over
  the inputs and push the signed URLs. Each method is proved to do exactly
  what `Job.ProcessSpec` and `Consumer.ReceiveSpec` say.
- `submit.dfy` (`Submit`): the `/submit` handler.
  - The uploads are normalised to a list.
  - The job id is the lowercase base16 encoding (section 8 of RFC 4648, with
    the lowercase alphabet) of 16 random bytes.
  - Every upload is read and put into storage (a map), then the message is
    sent to the queue (a sequence).
  - `Submit.Backend.Submit` is the imperative handler, proved against
    `SubmitSpec`.
- `file_size.dfy` (`FileSize`): the unit chosen by the status table's
  "File Size" column.

Everything the programs cannot compute themselves is a parameter. That covers
the random bytes, the clock and the working directory. Functions the code
only calls are the function-typed fields of `Job.Host`:
- S3's URL signer;
- `toLocaleString`;
- `JSON.stringify` and `JSON.parse`;
- the text of each template file;
- the text of a caught error.

`Submit.Backend.Submit` requires exactly 16 random bytes, because the handler
always asks for 16.

The model follows the code as written, including these behaviours
that a reader of its comments might not expect:

- The heartbeat is not cleared when `processMessage` rejects. It rejects when
  a failure mail throws inside its catch block. The `await` throws past
  `clearInterval` (`Consumer.HeartbeatLeaksOnRejection`).
- The error queue receives `JSON.stringify` of the parsed parameters, not
  the original message body.
- A body that does not parse throws before the heartbeat starts. Such a
  message is neither sent to the error queue nor deleted.
- The user's mails are sent whether or not the job carries an e-mail address
  (`to` is then absent).
- A throw from the success mail itself ends the try block. The failure mails
  follow and the job resolves to false.

## Model

| member | source | states |
|---|---|---|
| Template.FirstBrace | server/app-worker.js:146 | the index of the first `{` or `}` of a string (or its length): no brace comes before it |
| Template.TokenAt | server/app-worker.js:146 | a recognised token is `{`, one or more non-brace characters, then `}`; 0 when none starts here |
| Template.Pieces | server/app-worker.js:145-147 | every placeholder the pass cuts has a non-empty brace-free name |
| Template.PiecesRoundTrip | server/app-worker.js:145-147 | cutting a template into literals and placeholders loses nothing: unparsing gives the template back |
| Template.RenderIsExpand | server/app-worker.js:145-147 | the rewrite equals the reference expansion: every literal copied, every placeholder replaced by its value |
| Template.RenderToken | server/app-worker.js:146-147 | a `{name}` becomes `data[name]`, or nothing when missing or empty, and the pass resumes after the token without rescanning the value |
| Template.TokenAtName | server/app-worker.js:146 | a token at the front is recognised whole |
| Template.RenderEmptyBraces | server/app-worker.js:146 | `{}` is not a token and is copied |
| Template.RenderOpenBeforeClose | server/app-worker.js:146 | a `{` directly before `}` is copied |
| Template.RenderCloseBrace | server/app-worker.js:146 | a lone `}` is copied |
| Template.RenderDoubleOpen | server/app-worker.js:146 | a `{` followed by `{` is copied and matching restarts at the second one |
| Template.RenderWithoutOpen | server/app-worker.js:145-147 | text without `{` is returned unchanged |
| Template.RenderWithoutClose | server/app-worker.js:145-147 | text without `}`, such as an unmatched `{`, is returned unchanged |
| Template.RenderMissingRemoved | server/app-worker.js:147 | `{a}{b}` with `b` missing gives the value of `a` alone |
| Paths.TrimTrailingSlashes | server/app-worker.js:45 | the result is a prefix without a trailing `/`, and only slashes were removed |
| Paths.AfterLastSlash | server/app-worker.js:45 | the index just past the last `/`: no `/` follows it |
| Paths.Basename | server/app-worker.js:45 | a base name holds no `/` |
| Paths.LastDot | server/app-worker.js:46 | the position of the last `.`, none exactly when there is no dot |
| Paths.ExtnameSpec | server/app-worker.js:46 | the extension is empty exactly for no dot, a single leading dot (dotfiles) or `..`; otherwise it is a proper suffix of the base name starting at its last dot |
| Paths.StemSpec | server/app-worker.js:46 | the stem followed by the extension is the base name |
| Paths.Split | server/app-worker.js:48-50 | splitting at `/` gives at least one component and none contains `/` |
| Paths.PathText | server/app-worker.js:62-64 | the text of a resolved path is absolute |
| Paths.JoinSplit | server/app-worker.js:48-50 | joining the components of a split with `/` gives back the string that was split |
| Paths.SplitJoin | server/app-worker.js:48-50 | splitting the join of slash-free components gives back exactly those components |
| Paths.JoinSnoc | server/app-worker.js:62-64 | joining one more component adds `/` and that component at the end |
| Paths.PathTextIsJoin | server/app-worker.js:62-64 | the text of a non-empty path is `/` followed by its components joined by `/` |
| Paths.SplitPathText | server/app-worker.js:62-64 | the text of a path of slash-free components splits into the root's empty component followed by exactly those components |
| Paths.WalkPlainNames | server/app-worker.js:48-50 | resolving plain names one after another descends through each of them in order |
| Paths.ResolvePathText | server/app-worker.js:48-50 | the text of a path of plain names resolves, from any directory, back to exactly that path, so the strings handed to `bfconvert` denote the resolved paths |
| Paths.ResolvePlainName | server/app-worker.js:48-50 | resolving a name without `/` descends one level exactly when it is a plain name, goes up for `..` and stays for `""` and `.` |
| Paths.BasenameOfChild | server/app-worker.js:45 | the base name of `dir/name`, with any number of trailing slashes, is `name` |
| Paths.ExtnameOfName | server/app-worker.js:46 | a base name `stem.ext` with a dot-free `ext` and non-empty `stem` has extension `.ext` and stem `stem` |
| Paths.ExtnameOfChild | server/app-worker.js:46 | `dir/stem.ext` has extension `.ext` and stem `stem` |
| Naming.OutputFileNameReplacesExtension | server/app-worker.js:46 | the output name is the base name with only its last extension replaced by `.ome.tif`, and it is a plain file name |
| Naming.OutputKeyBasename | server/app-worker.js:51 | the output key is `outputPrefix + id + "/" + outputFileName`, whose base name is the output file name |
| Naming.LocalPathsInsideFolder | server/app-worker.js:48-50 | for a plain id the folder is `uploads/id`; the output path is directly inside it, and so is the input path exactly when the input's base name is a plain name |
| Naming.OutputFilePathIsResolved | server/app-worker.js:50 | the output path is `path.resolve(processingFolder, outputFileName)` |
| Naming.OutputFileNameOfChild | server/app-worker.js:46 | `dir/stem.ext` gives `stem.ome.tif` |
| Convert.ExecutableIsResolved | server/convert.js:6-7 | the executable is `path.resolve(__dirname, 'bftools', 'bfconvert' + ext)` |
| Convert.ScriptNameByPlatform | server/convert.js:6 | the script is `bfconvert.bat` on win32 and `bfconvert` elsewhere |
| Convert.ArgvLayout | server/convert.js:8-18 | 13 arguments; `-noflat`, `-overwrite`, `-bigtiff` always present; the input is second to last and the output last |
| Convert.ArgvRoundTrip | server/convert.js:8-18 | every option can be read back from its fixed place in the vector |
| Convert.ArgvOfParsed | server/convert.js:8-18 | a vector of that layout is the vector of the options read from it |
| Convert.ConverterEnv | server/convert.js:19-22 | the environment is the process environment with `BF_MAX_MEM` set to `4g` and every other variable kept |
| Convert.ConvertCallCarries | server/convert.js:5-24 | the invocation runs the resolved `bftools` script with every option in place and the 4g memory ceiling |
| FileSize.UnitOf | client/assets/script.js:63-71 | bytes below 1024, KiB up to 1024², MiB up to 1024³, GiB from there, each exactly on its interval |
| FileSize.Render | client/assets/script.js:60-72 | other render kinds get the raw value; display and filter get the unit of the size and a magnitude that times the unit gives the size |
| FileSize.ShownMagnitudeInRange | client/assets/script.js:65-71 | from 1024 up the magnitude shown is at least 1 and, below GiB, under 1024 |
| FileSize.UnitMonotone | client/assets/script.js:63-71 | a larger size never gets a smaller unit |
| Effects.Calls | server/app-worker.js:38-99 | the calls of a log, one per step in order |
| Effects.Run | server/app-worker.js:38-99 | awaiting a sequence of calls makes at most that many |
| Effects.RunAt | server/app-worker.js:38-99 | the i-th step of a run is the i-th call, failing when its position faults |
| Effects.RunStopsAtFailure | server/app-worker.js:38-99 | every step but the last succeeds, and a run that stops early ends with the failing call |
| Effects.RunFailed | server/app-worker.js:38-99 | a run with a failure ends at that failure and nothing before it failed |
| Effects.RunAppend | server/app-worker.js:38-99 | awaiting `a` then `b` runs `b` after `a` only when `a` completed |
| Effects.CompletesIff | server/app-worker.js:38-99 | a run completes exactly when all its steps succeeded |
| Effects.CompletesIffNoFault | server/app-worker.js:38-99 | a run completes exactly when none of its positions faults |
| Effects.FlattenAppend | server/app-worker.js:43-84 | the loop over `a + b` makes `a`'s calls, then `b`'s |
| Effects.FlattenAt | server/app-worker.js:43-84 | element i's calls come after those of the elements before it and before those after it |
| Effects.TryCatchCompleted | server/app-worker.js:38-133 | the try block completes exactly when its run completes, and then every call succeeded |
| Effects.TryCatchFailed | server/app-worker.js:38-133 | after a throw: the try block's calls up to the failing one, then the handler's for that call |
| Effects.TryCatchThrew | server/app-worker.js:101-133 | a catch block that throws ends the log with a failed step |
| Effects.TryCatchHandled | server/app-worker.js:101-133 | a catch block that completes ends with its last call succeeding |
| Effects.TryCatchEndsWith | server/app-worker.js:38-133 | when only the try block ends with a "good" call, the try block completed exactly when the log ends with a successful good call |
| Effects.FailedRun | server/app-worker.js:38-99 | a run that does not complete is a prefix of the plan ending with the failed call |
| Effects.TryCatchAllOf | server/app-worker.js:38-133 | a try/catch makes only calls of its blocks' kinds |
| Effects.OnlyAfter | server/app-worker.js:172-195 | calls of a kind absent from a prefix all lie after it |
| Job.FileCalls | server/app-worker.js:52-76 | one input makes six calls: mkdir, download, write, convert, read back, upload |
| Job.FilesCallsLength | server/app-worker.js:43-84 | the loop makes six calls per input |
| Job.FilesCallsAt | server/app-worker.js:43-84 | the i-th block of six calls is input i's: inputs are handled in list order |
| Job.FilesCallsSplit | server/app-worker.js:43-84 | the calls before, of, and after input i, in that order |
| Job.SignedUrlsSnoc | server/app-worker.js:78-82 | each input pushes one entry after those of the inputs before it |
| Job.SignedUrlsInOrder | server/app-worker.js:78-82 | `signedUrls` has one entry per input, in input order, with its output name and URL |
| Job.ResultsUrlsAppend | server/app-worker.js:89 | the results list is the list items joined with nothing between them |
| Job.SuccessMeansEverythingDone | server/app-worker.js:38-100 | true only after every input's calls in order and then the success mail, all succeeding |
| Job.TrueIffSuccessMailSent | server/app-worker.js:93-100 | true exactly when the last step is a successful "Conversion Results" mail |
| Job.TryCallsEndWithSuccessMail | server/app-worker.js:94-99 | the try block ends with the success mail |
| Job.CatchNeverEndsWithSuccessMail | server/app-worker.js:116-130 | the catch block never ends with the success mail |
| Job.FailureTakesCatchBlock | server/app-worker.js:101-133 | short of true, the try block stopped at its first failing call (a download, convert, upload or the success mail), and the catch block for that call followed; false exactly when it completed, a rejection otherwise |
| Job.CaughtOutcome | server/app-worker.js:101-133 | a try/catch that did not end true is the try block's run, then the catch run, false exactly when the catch completed |
| Job.CatchOrder | server/app-worker.js:114-130 | the administrator's mail (subject "Conversion Error: " + id) comes before the user's "Conversion Error" mail |
| Job.SingleFileSuccess | server/app-worker.js:43-100 | one input `dir/stem.ext` with no fault gives true after eight steps, the last a mail linking `stem.ome.tif` |
| Job.SingleFileUrls | server/app-worker.js:78-82 | one input `dir/stem.ext` gives the single entry `stem.ome.tif` with its URL |
| Job.SuccessMailLast | server/app-worker.js:92-99 | the try block has 6·n + 2 calls and ends with the mail listing every signed URL |
| Job.ProcessSpecMakesJobCalls | server/app-worker.js:32-134 | `processMessage` touches neither queue nor timers |
| Consumer.WithoutSpec | server/app-worker.js:192-195 | deleting by receipt removes exactly the messages with that receipt |
| Consumer.WithoutAppend | server/app-worker.js:192-195 | deleting by receipt acts on each part of the queue separately, and a single message stays exactly when its receipt differs, so the kept messages keep their order |
| Consumer.Take | server/app-worker.js:161-165 | a receive for at most `max` messages returns a prefix of the queue of that size, or the whole queue |
| Consumer.HeartbeatLeaksOnRejection | server/app-worker.js:179-180 | a rejection leaves the heartbeat started and never stopped, with no error-queue send and no delete |
| Consumer.HeartbeatClearedBeforeSettling | server/app-worker.js:172-195 | the heartbeat stops once, right after `processMessage` returns, before any error-queue send or delete |
| Consumer.SettleKinds | server/app-worker.js:184-195 | settling makes only the error-queue send and the delete |
| Consumer.SettleDeadLetter | server/app-worker.js:184-189 | the error queue gets `JSON.stringify(params)` exactly when the status is false, and holds it when the send succeeded |
| Consumer.SettleDelete | server/app-worker.js:184-195 | the delete is made unless the error-queue send threw, is the last call, and names the receipt |
| Consumer.BeforeSettling | server/app-worker.js:172-180 | up to `clearInterval` no queue call is made |
| Consumer.DeadLetterIffFalse | server/app-worker.js:184-189 | an error-queue send happens exactly when the job resolved to false, always with the re-serialised parameters |
| Consumer.DeleteUnlessThrown | server/app-worker.js:184-195 | the message is deleted exactly when nothing threw before, as the last call and with its own receipt |
| Consumer.ProcessedNeverReschedules | server/app-worker.js:167-196 | handling a message never reschedules |
| Consumer.HandleSteps | server/app-worker.js:167-196 | a body that does not parse makes no call; a delete and an error-queue entry concern that message |
| Consumer.NothingHandledWithoutMessage | server/app-worker.js:161-168 | the iteration is only receive and reschedule exactly when the receive threw, the queue was empty, or the body did not parse |
| Consumer.OnlyFirstMessageHandled | server/app-worker.js:161-169 | one message is asked for, and only `Messages[0]` is deleted or sent to the error queue |
| Consumer.RescheduledOnceAtEnd | server/app-worker.js:197-202 | the next poll is scheduled exactly once, by the last step, whatever threw |
| Worker.World.Await | server/app-worker.js:55-58 | an awaited call is logged at the next position and fails when that position faults |
| Worker.World.Note | server/app-worker.js:172-180 | a call that cannot throw is logged as succeeding |
| Worker.World.AwaitAll | server/app-worker.js:38-99 | consecutive awaits log the run of the calls and return the first that threw |
| Worker.World.TryBlock | server/app-worker.js:38-99 | the loop over `files` then the success mail log exactly the try block's run |
| Worker.World.CatchBlock | server/app-worker.js:101-132 | the two failure mails log exactly the catch block's run |
| Worker.World.ProcessMessage | server/app-worker.js:32-134 | the log grows by `ProcessSpec`'s steps and the outcome is its outcome |
| Worker.World.Receive | server/app-worker.js:161-168 | a successful receive returns the first message of the queue, if any, and removes nothing |
| Worker.World.SendToErrorQueue | server/app-worker.js:184-189 | the body joins the error queue exactly when the send succeeds |
| Worker.World.Delete | server/app-worker.js:192-195 | the message with the receipt leaves the queue exactly when the delete succeeds |
| Worker.World.SettleMessage | server/app-worker.js:182-195 | log, error queue and job queue change as `Settle` says |
| Worker.World.HandleMessage | server/app-worker.js:167-196 | log, error queue and job queue change as `Handle` says |
| Worker.World.Supervise | server/app-worker.js:171-195 | heartbeat, job, stop and settling change the state as `Processed` says |
| Worker.World.FinishJob | server/app-worker.js:180-195 | `clearInterval`, then the settling |
| Worker.World.ReceiveOnce | server/app-worker.js:155-204 | one iteration changes log, error queue and job queue as `ReceiveSpec` says |
| Submit.Hex | server/app.js:67 | the id has two characters per byte |
| Submit.HexDigits | server/app.js:67 | byte i is spelled by characters 2i (high nibble) and 2i + 1 (low nibble) |
| Submit.DigitRoundTrip | server/app.js:67 | each digit decodes to its value |
| Submit.UnhexHex | server/app.js:67 | decoding the id gives the random bytes back |
| Submit.HexInjective | server/app.js:67 | different bytes give different ids |
| Submit.HexLowercase | server/app.js:67 | every character of the id is one of `0-9a-f` |
| Submit.IdLength | server/app.js:67 | 16 bytes give a 32-character id |
| Submit.ListedUploads | server/app.js:60-62 | an array of uploads is used as it is, a single upload becomes a list of one, a missing one `[undefined]` |
| Submit.MessageFields | server/app.js:59-69 | the message has the form's keys plus `id`, `originalTimestamp`, `files`; every other field keeps its text |
| Submit.VisitDone | server/app.js:71-82 | a pass that finished read and put its upload successfully, pushed its entry, and stored its bytes there |
| Submit.StoresSendsNothing | server/app.js:71-82 | the upload loop sends no message |
| Submit.StoresDone | server/app.js:69-82 | a loop that finished read and put every upload in order, all succeeding, one entry per upload at `inputPrefix + id + "/" + name` |
| Submit.StoresFrame | server/app.js:71-82 | storage only gains or changes keys that are upload entries, each holding the bytes of an upload stored there |
| Submit.QueuedIffSubmitted | server/app.js:87-98 | the status is 200 or 500; 200 exactly when one message was queued, by the last and successful call |
| Submit.PutsBeforeSend | server/app.js:71-90 | a send is the last call, and before it every upload was read and put successfully, in order |
| Submit.MessageContents | server/app.js:59-90 | the queued message carries the form fields, the id, the timestamp and one `files` entry per upload in order |
| Submit.SubmittedAllOk | server/app.js:52-93 | a 200 answer means every call succeeded |
| Submit.FaultQueuesNothing | server/app.js:95-98 | any fault answers 500 with the fixed error text and queues nothing |
| Submit.MissingUploadFails | server/app.js:60-75 | without an upload the handler throws before any call and answers 500 |
| Submit.Backend.Await | server/app.js:81 | an awaited call is logged at the next position and fails when that position faults |
| Submit.Backend.PutOne | server/app.js:72-81 | one pass changes log and storage as `Visit` says and returns the entry it pushed |
| Submit.Backend.PutAll | server/app.js:71-82 | the loop changes log and storage as `Stores` says and returns the entries pushed |
| Submit.Backend.Submit | server/app.js:52-99 | the handler changes log, storage and queue as `SubmitSpec` says and answers its status with the matching text |

## Left out

- I/O is modelled only as log steps that succeed or fail: S3, SQS, SES and
  nodemailer, and `fs` (`mkdir`, `readFile`, `writeFile`). Their payloads
  (object bodies, mail delivery) are not modelled. The downloaded object's
  bytes are not carried into the written file.
- Running `bfconvert` is one step that may fail. Exit codes, output and what
  it writes are not modelled.
- Timers and concurrency are not modelled. `setInterval`, `clearInterval` and
  `setTimeout` are logged events that cannot fail. Lease timing and the
  visibility timeout's effect on redelivery are not modelled. Nothing models
  another worker or a second iteration running before this one ends.
- The heartbeat's `changeMessageVisibility` call carries no `.promise()` or
  callback, and whether it is sent depends on the SDK, so the model records
  only the start and stop of the interval.
- `JSON.parse` and `JSON.stringify`, `toLocaleString`, the URL signer, the
  template files' text and `e.toString()` are opaque functions of `Job.Host`.
  A body either parses to the job's fields or fails to parse. Bodies that
  parse into something else are not modelled.
- The submitted message is the map handed to `JSON.stringify`. Its
  serialisation and the key order the text would have are not modelled.
- The logger and `console.log` output are left out.
- formidable's parsing is left out: form fields are taken as strings, and
  each upload as a file already on disk with its name, path and bytes.
- `crypto.randomBytes` and `new Date().getTime()` are inputs.
- `/ping`, the middleware, `listen`, the folders created at start-up, and
  `server/index.js` (a timing script) are left out.
- Template lookups use a map of strings. Properties inherited by JavaScript
  objects (such as `{constructor}`) are not modelled.
- Paths.Stem: the two-argument `basename(p, ext)` is modelled only for
  `ext == extname(p)`, the only way the worker calls it.
- FileSize.Render: the text that `toFixed(2)` produces is not modelled. The
  contract states the unit and the exact magnitude before rounding.
- The jQuery, DataTables, modal and AJAX code of the client is left out.
