/**
 * The job executor, `processMessage`: for every input object in order it
 * creates the job's processing folder, downloads the object, writes it to
 * disk, runs the converter, reads the converted file back, uploads it and
 * signs a download URL for it; then it mails the results to the user and
 * resolves to true. The first call that throws ends the try block: the
 * worker mails the administrator, then the user, and resolves to false; a
 * failure of either of those mails rejects the call instead.
 *
 * This module is the specification of that sequence: which calls are made,
 * in which order, and what is returned, for every pattern of failures.
 */
module Job {
  import opened Common
  import opened Paths
  import opened Effects
  import Template
  import opened Convert
  import opened Naming

  /** The worker's settings (config.json). */
  datatype Config = Config(
    uploadsFolder: string,
    bucket: string,
    outputPrefix: string,
    sender: string,
    admin: string,
    queueUrl: string,
    errorUrl: string,
    visibilityTimeout: int,
    pollInterval: int)

  /** The fields of a parsed job message that the worker reads. */
  datatype JobParams = JobParams(
    id: string,
    email: Option<string>,
    originalTimestamp: int,
    tileSizeX: string,
    tileSizeY: string,
    pyramidResolutions: string,
    pyramidScale: string,
    files: seq<FileRef>)

  /**
   * What the worker's process is given and what it cannot look into: the
   * working and code directories, the platform and environment, S3's URL
   * signer, `Date.prototype.toLocaleString`, `JSON.stringify`, the text of
   * each template file and the message of the error a failed call throws.
   */
  datatype Host = Host(
    cwd: Path,
    dirname: Path,
    platform: string,
    env: Env,
    signedUrl: (string, string) -> string,
    localeTime: int -> string,
    stringify: JobParams -> string,
    pretty: JobParams -> string,
    parse: string -> Option<JobParams>,
    templateText: Path -> string,
    errorText: Call -> string)

  /** The worker's external calls. */
  datatype Call =
    | Mkdir(dir: Path)
    | GetObject(bucket: string, key: string)
    | WriteFile(path: Path)
    | RunConverter(invocation: Invocation)
    | ReadFile(path: Path)
    | PutObject(bucket: string, key: string)
    | ReadTemplate(path: Path)
    | SendMail(sender: string, to: Option<string>, subject: string, html: string)
    | ReceiveMessage(queueUrl: string, visibilityTimeout: int, maxMessages: nat)
    | StartHeartbeat(receipt: string)
    | StopHeartbeat(receipt: string)
    | SendMessage(queueUrl: string, body: string)
    | DeleteMessage(queueUrl: string, receipt: string)
    | ScheduleReceive(delay: int)

  const SuccessTemplate := "user-success-email.html"
  const AdminFailureTemplate := "admin-failure-email.html"
  const UserFailureTemplate := "user-failure-email.html"
  const SuccessSubject := "Conversion Results"
  const UserFailureSubject := "Conversion Error"

  /** The administrator's failure subject, searchable by job id. */
  function AdminFailureSubject(id: string): string {
    "Conversion Error: " + id
  }

  /** `__dirname + '/templates/' + name`, resolved. */
  function TemplatePath(host: Host, name: string): Path {
    host.dirname + ["templates", name]
  }

  function Folder(cfg: Config, host: Host, p: JobParams): Path {
    ProcessingFolder(host.cwd, cfg.uploadsFolder, p.id)
  }

  function OutKey(cfg: Config, p: JobParams, f: FileRef): string {
    OutputKey(cfg.outputPrefix, p.id, f.key)
  }

  /** The options handed to `convert` for one input. */
  function ConvertOptions(cfg: Config, host: Host, p: JobParams, f: FileRef): Options {
    var folder := Folder(cfg, host, p);
    Options(
      PathText(InputFilePath(folder, f.key)), PathText(OutputFilePath(folder, f.key)),
      p.tileSizeX, p.tileSizeY, p.pyramidResolutions, p.pyramidScale)
  }

  /** One iteration of the loop over `files`: mkdir, download, write, convert, read back, upload. */
  function FileCalls(cfg: Config, host: Host, p: JobParams, f: FileRef): (cs: seq<Call>)
    ensures |cs| == 6
  {
    var folder := Folder(cfg, host, p);
    [ Mkdir(folder),
      GetObject(f.bucket, f.key),
      WriteFile(InputFilePath(folder, f.key)),
      RunConverter(ConvertCall(ConvertOptions(cfg, host, p, f), host.platform, host.dirname, host.env)),
      ReadFile(OutputFilePath(folder, f.key)),
      PutObject(cfg.bucket, OutKey(cfg, p, f)) ]
  }

  /** The loop body as a function of the input. */
  function FileStep(cfg: Config, host: Host, p: JobParams): FileRef -> seq<Call> {
    f => FileCalls(cfg, host, p, f)
  }

  lemma FileStepApply(cfg: Config, host: Host, p: JobParams, f: FileRef)
    ensures FileStep(cfg, host, p)(f) == FileCalls(cfg, host, p, f)
  {
  }

  /** The loop's calls for the inputs `fs`, input after input. */
  function FilesCalls(cfg: Config, host: Host, p: JobParams, fs: seq<FileRef>): seq<Call> {
    Flatten(FileStep(cfg, host, p), fs)
  }

  /** An element of `signedUrls`. */
  datatype SignedUrl = SignedUrl(outputFileName: string, url: string)

  /** The URL entry pushed for one input. */
  function UrlOf(cfg: Config, host: Host, p: JobParams, f: FileRef): SignedUrl {
    SignedUrl(OutputFileName(f.key), host.signedUrl(cfg.bucket, OutKey(cfg, p, f)))
  }

  /** `signedUrls` after the loop has handled the inputs `fs`. */
  function SignedUrls(cfg: Config, host: Host, p: JobParams, fs: seq<FileRef>): seq<SignedUrl> {
    if fs == [] then [] else SignedUrls(cfg, host, p, fs[..|fs| - 1]) + [UrlOf(cfg, host, p, fs[|fs| - 1])]
  }

  /** Pushing the entry for input `i` extends `signedUrls` from the first `i` inputs to the first `i + 1`. */
  lemma SignedUrlsSnoc(cfg: Config, host: Host, p: JobParams, fs: seq<FileRef>, i: nat)
    requires i < |fs|
    ensures SignedUrls(cfg, host, p, fs[..i + 1]) == SignedUrls(cfg, host, p, fs[..i]) + [UrlOf(cfg, host, p, fs[i])]
  {
    assert fs[..i + 1][..i] == fs[..i];
  }

  /** `signedUrls` has one entry per input, in input order: the output name and the URL of its output key. */
  lemma SignedUrlsInOrder(cfg: Config, host: Host, p: JobParams, fs: seq<FileRef>)
    ensures |SignedUrls(cfg, host, p, fs)| == |fs|
    ensures forall i :: 0 <= i < |fs| ==> SignedUrls(cfg, host, p, fs)[i] == UrlOf(cfg, host, p, fs[i])
  {
    SignedUrlsLength(cfg, host, p, fs);
    forall i | 0 <= i < |fs| ensures SignedUrls(cfg, host, p, fs)[i] == UrlOf(cfg, host, p, fs[i]) {
      SignedUrlsAt(cfg, host, p, fs, i);
    }
  }

  lemma {:induction false} SignedUrlsLength(cfg: Config, host: Host, p: JobParams, fs: seq<FileRef>)
    ensures |SignedUrls(cfg, host, p, fs)| == |fs|
    decreases |fs|
  {
    if fs != [] {
      SignedUrlsLength(cfg, host, p, fs[..|fs| - 1]);
    }
  }

  lemma {:induction false} SignedUrlsAt(cfg: Config, host: Host, p: JobParams, fs: seq<FileRef>, i: nat)
    requires i < |fs|
    ensures |SignedUrls(cfg, host, p, fs)| == |fs| && SignedUrls(cfg, host, p, fs)[i] == UrlOf(cfg, host, p, fs[i])
    decreases |fs|
  {
    var init := fs[..|fs| - 1];
    SignedUrlsLength(cfg, host, p, init);
    if i < |fs| - 1 {
      SignedUrlsAt(cfg, host, p, init, i);
      SnocAt(SignedUrls(cfg, host, p, init), UrlOf(cfg, host, p, fs[|fs| - 1]), i);
      assert fs[i] == init[i];
    }
  }

  lemma SnocAt<T>(a: seq<T>, x: T, i: nat)
    requires i < |a|
    ensures (a + [x])[i] == a[i]
  {
  }

  /** One list item of the results: a link to the URL labelled with the output name. */
  function ListItem(s: SignedUrl): string {
    "<li><a href=\"" + s.url + "\">" + s.outputFileName + "</a></li>"
  }

  /** `signedUrls.map(ListItem).join('')`. */
  function ResultsUrls(urls: seq<SignedUrl>): string {
    Flatten(s => ListItem(s), urls)
  }

  /** The variables of the success mail. */
  function SuccessData(host: Host, p: JobParams, urls: seq<SignedUrl>): Template.Data {
    map["originalTimestamp" := host.localeTime(p.originalTimestamp), "resultsUrls" := ResultsUrls(urls)]
  }

  /** The variables of both failure mails; `failed` is the call whose error was caught. */
  function FailureData(cfg: Config, host: Host, p: JobParams, failed: Call): Template.Data {
    map[
      "id" := p.id,
      "parameters" := host.pretty(p),
      "originalTimestamp" := host.localeTime(p.originalTimestamp),
      "exception" := host.errorText(failed),
      "supportEmail" := cfg.admin]
  }

  /** `sendMail({from, to, subject, html: await readTemplate(template, data)})`: read the template, then send. */
  function MailCalls(cfg: Config, host: Host, to: Option<string>, subject: string, template: string, data: Template.Data): seq<Call> {
    var path := TemplatePath(host, template);
    [ReadTemplate(path), SendMail(cfg.sender, to, subject, Template.Render(host.templateText(path), data))]
  }

  /** The success mail to the user, listing every output. */
  function SuccessCalls(cfg: Config, host: Host, p: JobParams): seq<Call> {
    MailCalls(cfg, host, p.email, SuccessSubject, SuccessTemplate, SuccessData(host, p, SignedUrls(cfg, host, p, p.files)))
  }

  /** Everything inside the try block. */
  function TryCalls(cfg: Config, host: Host, p: JobParams): seq<Call> {
    FilesCalls(cfg, host, p, p.files) + SuccessCalls(cfg, host, p)
  }

  /** The catch block: the administrator's mail, then the user's. */
  function CatchCalls(cfg: Config, host: Host, p: JobParams, failed: Call): seq<Call> {
    var data := FailureData(cfg, host, p, failed);
    MailCalls(cfg, host, Some(cfg.admin), AdminFailureSubject(p.id), AdminFailureTemplate, data)
      + MailCalls(cfg, host, p.email, UserFailureSubject, UserFailureTemplate, data)
  }

  /** How the promise `processMessage` returns settles. */
  datatype Outcome = Resolved(status: bool) | Rejected

  /** The steps a call of `processMessage` adds to the log, and how it settles. */
  datatype Trace = Trace(steps: seq<Step<Call>>, outcome: Outcome)

  /** The catch block as a function of the call whose error it caught. */
  function CatchStep(cfg: Config, host: Host, p: JobParams): Call -> seq<Call> {
    failed => CatchCalls(cfg, host, p, failed)
  }

  /** How the promise settles for each way the try/catch statement ends. */
  function OutcomeOf(s: Settled): Outcome {
    match s
    case TryCompleted => Resolved(true)
    case CatchCompleted => Resolved(false)
    case CatchThrew => Rejected
  }

  /** `processMessage(p)` started at log position `n`. */
  function ProcessSpec(cfg: Config, host: Host, faults: set<nat>, p: JobParams, n: nat): Trace {
    var a := TryCatch(TryCalls(cfg, host, p), CatchStep(cfg, host, p), faults, n);
    Trace(a.steps, OutcomeOf(a.settled))
  }

  // ---------------------------------------------------------------------
  // Properties of the specification

  lemma ProcessSpecIsTryCatch(cfg: Config, host: Host, faults: set<nat>, p: JobParams, n: nat)
    ensures var a := TryCatch(TryCalls(cfg, host, p), CatchStep(cfg, host, p), faults, n);
      ProcessSpec(cfg, host, faults, p, n) == Trace(a.steps, OutcomeOf(a.settled))
  {
  }

  lemma {:induction false} FilesCallsLength(cfg: Config, host: Host, p: JobParams, fs: seq<FileRef>)
    ensures |FilesCalls(cfg, host, p, fs)| == 6 * |fs|
    decreases |fs|
  {
    if fs != [] {
      FilesCallsLength(cfg, host, p, fs[1..]);
      assert |FileStep(cfg, host, p)(fs[0])| == 6;
    }
  }

  /** The calls for input `i` are the `i`-th block of the loop's calls: inputs are handled in list order. */
  lemma FilesCallsAt(cfg: Config, host: Host, p: JobParams, fs: seq<FileRef>, i: nat)
    requires i < |fs|
    ensures 6 * (i + 1) <= |FilesCalls(cfg, host, p, fs)|
    ensures FilesCalls(cfg, host, p, fs)[6 * i..6 * (i + 1)] == FileCalls(cfg, host, p, fs[i])
  {
    FilesCallsLength(cfg, host, p, fs);
    FilesCallsSplit(cfg, host, p, fs, i);
    FilesCallsLength(cfg, host, p, fs[..i]);
    MiddleOf(FilesCalls(cfg, host, p, fs[..i]), FileCalls(cfg, host, p, fs[i]), FilesCalls(cfg, host, p, fs[i + 1..]));
  }

  lemma FilesCallsSplit(cfg: Config, host: Host, p: JobParams, fs: seq<FileRef>, i: nat)
    requires i < |fs|
    ensures FilesCalls(cfg, host, p, fs) == FilesCalls(cfg, host, p, fs[..i]) + FileCalls(cfg, host, p, fs[i]) + FilesCalls(cfg, host, p, fs[i + 1..])
  {
    FlattenAt(FileStep(cfg, host, p), fs, i);
  }

  lemma MiddleOf<T>(a: seq<T>, b: seq<T>, c: seq<T>)
    ensures (a + b + c)[|a|..|a| + |b|] == b
  {
  }

  lemma SliceOfAppend<T>(a: seq<T>, b: seq<T>, i: nat, j: nat)
    requires i <= j <= |b|
    ensures (a + b)[|a| + i..|a| + j] == b[i..j]
  {
  }

  /** The results list is the list items of the entries, in order, with nothing between them. */
  lemma ResultsUrlsAppend(a: seq<SignedUrl>, b: seq<SignedUrl>)
    ensures ResultsUrls(a + b) == ResultsUrls(a) + ResultsUrls(b)
  {
    FlattenAppend(s => ListItem(s), a, b);
  }

  /**
   * True only after a complete run: every input's six calls in list order,
   * then the success mail, all of them succeeding.
   */
  lemma SuccessMeansEverythingDone(cfg: Config, host: Host, faults: set<nat>, p: JobParams, n: nat)
    requires ProcessSpec(cfg, host, faults, p, n).outcome == Resolved(true)
    ensures var t := ProcessSpec(cfg, host, faults, p, n);
      && Calls(t.steps) == FilesCalls(cfg, host, p, p.files) + SuccessCalls(cfg, host, p)
      && AllOk(t.steps)
  {
    TryCatchCompleted(TryCalls(cfg, host, p), CatchStep(cfg, host, p), faults, n);
  }

  /**
   * The outcome is true exactly when the last step is a successful send of
   * the "Conversion Results" mail: no other call may be the last one of a
   * call that resolves to true, and a failure never ends that way.
   */
  lemma TrueIffSuccessMailSent(cfg: Config, host: Host, faults: set<nat>, p: JobParams, n: nat)
    ensures var t := ProcessSpec(cfg, host, faults, p, n);
      t.outcome == Resolved(true) <==>
        (t.steps != [] && t.steps[|t.steps| - 1].ok && IsSuccessMail(t.steps[|t.steps| - 1].call))
  {
    ProcessSpecIsTryCatch(cfg, host, faults, p, n);
    TryCallsEndWithSuccessMail(cfg, host, p);
    CatchNeverEndsWithSuccessMail(cfg, host, p);
    TryCatchEndsWith(TryCalls(cfg, host, p), CatchStep(cfg, host, p), faults, n, IsSuccessMail);
  }

  /** A send of the "Conversion Results" mail. */
  predicate IsSuccessMail(c: Call) {
    c.SendMail? && c.subject == SuccessSubject
  }

  lemma TryCallsEndWithSuccessMail(cfg: Config, host: Host, p: JobParams)
    ensures var tries := TryCalls(cfg, host, p); tries != [] && IsSuccessMail(tries[|tries| - 1])
  {
    var tries := TryCalls(cfg, host, p);
    LastOfAppend(FilesCalls(cfg, host, p, p.files), SuccessCalls(cfg, host, p));
  }

  lemma CatchNeverEndsWithSuccessMail(cfg: Config, host: Host, p: JobParams)
    ensures forall c :: CatchStep(cfg, host, p)(c) != [] && !IsSuccessMail(CatchStep(cfg, host, p)(c)[|CatchStep(cfg, host, p)(c)| - 1])
  {
    forall c ensures CatchStep(cfg, host, p)(c) != [] && !IsSuccessMail(CatchStep(cfg, host, p)(c)[|CatchStep(cfg, host, p)(c)| - 1]) {
      CatchStepApply(cfg, host, p, c);
      CatchOrder(cfg, host, p, c);
    }
  }

  /**
   * A fault anywhere in the try block, the success mail included, ends it:
   * the try block's run stops at its first failed call `e` (`FailedRun`
   * says what such a run is), and the catch block's calls for `e` follow: the
   * administrator's mail (subject "Conversion Error: " + id) before the
   * user's. The outcome is false when both mails went out and a rejection
   * otherwise.
   */
  lemma FailureTakesCatchBlock(cfg: Config, host: Host, faults: set<nat>, p: JobParams, n: nat)
    requires ProcessSpec(cfg, host, faults, p, n).outcome != Resolved(true)
    ensures !Completes(TryCalls(cfg, host, p), faults, n)
    ensures Caught(ProcessSpec(cfg, host, faults, p, n), TryCalls(cfg, host, p),
      CatchCalls(cfg, host, p, FailedCall(TryCalls(cfg, host, p), faults, n)), faults, n)
  {
    ProcessSpecIsTryCatch(cfg, host, faults, p, n);
    CatchStepApply(cfg, host, p, FailedCall(TryCalls(cfg, host, p), faults, n));
    CaughtOutcome(ProcessSpec(cfg, host, faults, p, n), TryCalls(cfg, host, p), CatchStep(cfg, host, p),
      CatchCalls(cfg, host, p, FailedCall(TryCalls(cfg, host, p), faults, n)), faults, n);
  }

  /**
   * The trace `t` of a try block `tries` started at `n` that threw: the calls
   * it made, then those of the catch block `caught`; false when the catch
   * block completes, a rejection when it throws.
   */
  predicate Caught(t: Trace, tries: seq<Call>, caught: seq<Call>, faults: set<nat>, n: nat) {
    var tried := Run(tries, faults, n);
    && t.steps == tried + Run(caught, faults, n + |tried|)
    && (t.outcome == Resolved(false) <==> Completes(caught, faults, n + |tried|))
    && (t.outcome != Resolved(false) ==> t.outcome == Rejected)
  }

  /** The try/catch of `processMessage` once the try has thrown, with the catch block's calls given as `caught`. */
  lemma CaughtOutcome(t: Trace, tries: seq<Call>, handler: Call -> seq<Call>, caught: seq<Call>, faults: set<nat>, n: nat)
    requires t == Trace(TryCatch(tries, handler, faults, n).steps, OutcomeOf(TryCatch(tries, handler, faults, n).settled))
    requires t.outcome != Resolved(true)
    requires !Completes(tries, faults, n) ==> caught == handler(FailedCall(tries, faults, n))
    ensures !Completes(tries, faults, n)
    ensures Caught(t, tries, caught, faults, n)
  {
    TryCatchSplit(tries, handler, faults, n);
  }

  lemma CatchStepApply(cfg: Config, host: Host, p: JobParams, failed: Call)
    ensures CatchStep(cfg, host, p)(failed) == CatchCalls(cfg, host, p, failed)
  {
  }

  /** The catch block's calls: administrator first, user second, both with the same variables. */
  lemma CatchOrder(cfg: Config, host: Host, p: JobParams, failed: Call)
    ensures var cs := CatchCalls(cfg, host, p, failed);
      && |cs| == 4
      && cs[1].SendMail? && cs[1].to == Some(cfg.admin) && cs[1].subject == AdminFailureSubject(p.id)
      && cs[3].SendMail? && cs[3].to == p.email && cs[3].subject == UserFailureSubject
  {
  }

  /**
   * A job with one input "dir/stem.ext" whose calls all succeed resolves to
   * true after one success mail whose results list links "stem.ome.tif".
   */
  lemma SingleFileSuccess(cfg: Config, host: Host, faults: set<nat>, p: JobParams, n: nat,
                          dir: string, stem: string, ext: string)
    requires stem != [] && '/' !in stem && '/' !in ext && '.' !in ext && stem + "." + ext != ".."
    requires |p.files| == 1 && p.files[0].key == dir + "/" + stem + "." + ext
    requires forall k :: n <= k < n + 6 + 2 ==> Succeeds(faults, k)
    ensures var t := ProcessSpec(cfg, host, faults, p, n);
      && t.outcome == Resolved(true)
      && |t.steps| == 6 + 2
      && t.steps[6 + 1].call == SendMail(cfg.sender, p.email, SuccessSubject,
           Template.Render(host.templateText(TemplatePath(host, SuccessTemplate)),
             SuccessData(host, p, [SignedUrl(stem + OutputExtension, host.signedUrl(cfg.bucket, OutKey(cfg, p, p.files[0])))])))
  {
    var tries := TryCalls(cfg, host, p);
    FilesCallsLength(cfg, host, p, p.files);
    CompletesIffNoFault(tries, faults, n);
    TryCatchCompleted(tries, CatchStep(cfg, host, p), faults, n);
    SingleFileUrls(cfg, host, p, dir, stem, ext);
    SuccessMailLast(cfg, host, p);
    assert Calls(ProcessSpec(cfg, host, faults, p, n).steps)[6 + 1] == tries[6 + 1];
  }

  /** The one URL entry of a single-input job "dir/stem.ext". */
  lemma SingleFileUrls(cfg: Config, host: Host, p: JobParams, dir: string, stem: string, ext: string)
    requires stem != [] && '/' !in stem && '/' !in ext && '.' !in ext && stem + "." + ext != ".."
    requires |p.files| == 1 && p.files[0].key == dir + "/" + stem + "." + ext
    ensures SignedUrls(cfg, host, p, p.files) == [SignedUrl(stem + OutputExtension, host.signedUrl(cfg.bucket, OutKey(cfg, p, p.files[0])))]
  {
    OutputFileNameOfChild(dir, stem, ext);
  }

  /** The try block ends with the success mail, which lists every entry of `signedUrls`. */
  lemma SuccessMailLast(cfg: Config, host: Host, p: JobParams)
    ensures var tries := TryCalls(cfg, host, p);
      && |tries| == 6 * |p.files| + 2
      && tries[|tries| - 1] == SendMail(cfg.sender, p.email, SuccessSubject,
           Template.Render(host.templateText(TemplatePath(host, SuccessTemplate)), SuccessData(host, p, SignedUrls(cfg, host, p, p.files))))
  {
    FilesCallsLength(cfg, host, p, p.files);
    LastOfAppend(FilesCalls(cfg, host, p, p.files), SuccessCalls(cfg, host, p));
  }

  /** The calls `processMessage` itself makes: file system, storage, converter, templates and mail. */
  predicate IsJobCall(c: Call) {
    c.Mkdir? || c.GetObject? || c.WriteFile? || c.RunConverter? || c.ReadFile? || c.PutObject?
      || c.ReadTemplate? || c.SendMail?
  }

  /** `processMessage` touches neither queue nor timers: every call it makes is its own. */
  lemma ProcessSpecMakesJobCalls(cfg: Config, host: Host, faults: set<nat>, p: JobParams, n: nat)
    ensures StepsAllOf(ProcessSpec(cfg, host, faults, p, n).steps, IsJobCall)
  {
    ProcessSpecIsTryCatch(cfg, host, faults, p, n);
    TryCallsAreJobCalls(cfg, host, p);
    CatchCallsAreJobCalls(cfg, host, p);
    TryCatchAllOf(TryCalls(cfg, host, p), CatchStep(cfg, host, p), faults, n, IsJobCall);
  }

  lemma TryCallsAreJobCalls(cfg: Config, host: Host, p: JobParams)
    ensures AllOf(TryCalls(cfg, host, p), IsJobCall)
  {
    var body := FileStep(cfg, host, p);
    forall f, i | 0 <= i < |body(f)| ensures IsJobCall(body(f)[i]) {
      FileStepApply(cfg, host, p, f);
      FileCallsAreJobCalls(cfg, host, p, f);
    }
    FlattenAllOf(body, p.files, IsJobCall);
    SuccessCallsAreJobCalls(cfg, host, p);
    AllOfAppend(FilesCalls(cfg, host, p, p.files), SuccessCalls(cfg, host, p), IsJobCall);
  }

  lemma FileCallsAreJobCalls(cfg: Config, host: Host, p: JobParams, f: FileRef)
    ensures AllOf(FileCalls(cfg, host, p, f), IsJobCall)
  {
  }

  lemma SuccessCallsAreJobCalls(cfg: Config, host: Host, p: JobParams)
    ensures AllOf(SuccessCalls(cfg, host, p), IsJobCall)
  {
  }

  lemma CatchCallsAreJobCalls(cfg: Config, host: Host, p: JobParams)
    ensures forall c, i :: 0 <= i < |CatchStep(cfg, host, p)(c)| ==> IsJobCall(CatchStep(cfg, host, p)(c)[i])
  {
    forall c, i | 0 <= i < |CatchStep(cfg, host, p)(c)| ensures IsJobCall(CatchStep(cfg, host, p)(c)[i]) {
      CatchStepApply(cfg, host, p, c);
    }
  }

}
