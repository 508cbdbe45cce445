/**
 * The worker process as it runs: `processMessage` awaiting its calls one
 * after another, and one iteration of the polling loop `receiveMessage`.
 * A `World` holds what the worker changes: the log of external calls, the
 * job queue and the error queue. Which calls fail is fixed when the world
 * is made, by the log positions at which a call faults.
 */
module Worker {
  import opened Common
  import opened Paths
  import opened Effects
  import Template
  import opened Convert
  import opened Naming
  import opened Job
  import opened Consumer

  class World {
    /** Every external call made so far, in order, with whether it succeeded. */
    var log: seq<Step<Call>>
    /** The job queue, `config.queue.url`. */
    var queue: seq<Message>
    /** The bodies sent to the error queue, `config.queue.errorUrl`, in order. */
    var deadLetters: seq<string>
    /** The log positions at which a call throws. */
    const faults: set<nat>

    constructor(faults: set<nat>, queue: seq<Message>)
      ensures this.faults == faults && this.queue == queue && log == [] && deadLetters == []
    {
      this.faults := faults;
      this.queue := queue;
      log := [];
      deadLetters := [];
    }

    /** `await c`: the call is made at the next log position and throws when that position faults. */
    method Await(c: Call) returns (ok: bool)
      modifies this`log
      ensures ok == Succeeds(faults, |old(log)|)
      ensures log == old(log) + [Step(c, ok)]
    {
      ok := Succeeds(faults, |log|);
      log := log + [Step(c, ok)];
    }

    /** A call that cannot throw (`setInterval`, `clearInterval`, `setTimeout`). */
    method Note(c: Call)
      modifies this`log
      ensures log == old(log) + [Step(c, true)]
    {
      log := log + [Step(c, true)];
    }

    /**
     * Awaits the calls in order, as consecutive `await` statements do: the
     * first call that throws ends the sequence and is returned.
     */
    method AwaitAll(calls: seq<Call>) returns (failed: Option<Call>)
      modifies this`log
      ensures Ran(log, old(log), calls, faults, failed)
    {
      ReachedStart(log, calls, faults);
      var i := 0;
      while i < |calls|
        invariant Reached(log, old(log), calls, i, faults)
      {
        ReachedNext(log, old(log), calls, i, faults);
        var ok := Await(calls[i]);
        if !ok {
          return Some(calls[i]);
        }
        i := i + 1;
      }
      ReachedAll(log, old(log), calls, faults);
      return None;
    }

    /**
     * The try block of `processMessage`: one pass of the loop over `files`
     * per input, each pushing the input's signed URL, then the success mail
     * listing them.
     */
    method TryBlock(cfg: Config, host: Host, p: JobParams) returns (failed: Option<Call>)
      modifies this`log
      ensures Ran(log, old(log), TryCalls(cfg, host, p), faults, failed)
    {
      var signedUrls: seq<SignedUrl> := [];
      var i := 0;
      RanFlattenStart(FileStep(cfg, host, p), p.files, log, faults);
      while i < |p.files|
        invariant i <= |p.files|
        invariant Ran(log, old(log), FilesCalls(cfg, host, p, p.files[..i]), faults, None)
        invariant signedUrls == SignedUrls(cfg, host, p, p.files[..i])
      {
        var f := p.files[i];
        ghost var mid := log;
        failed := AwaitAll(FileCalls(cfg, host, p, f));
        FileStepApply(cfg, host, p, f);
        RanFlattenNext(FileStep(cfg, host, p), p.files, i, old(log), mid, log, faults, failed);
        if failed.Some? {
          RanFlattenStuck(FileStep(cfg, host, p), p.files, i, SuccessCalls(cfg, host, p), old(log), log, faults, failed.value);
          return;
        }
        signedUrls := signedUrls + [UrlOf(cfg, host, p, f)];
        SignedUrlsSnoc(cfg, host, p, p.files, i);
        i := i + 1;
      }
      ghost var mid := log;
      assert p.files[..i] == p.files;
      failed := AwaitAll(MailCalls(cfg, host, p.email, SuccessSubject, SuccessTemplate, SuccessData(host, p, signedUrls)));
      RanFlattenThen(FileStep(cfg, host, p), p.files, SuccessCalls(cfg, host, p), old(log), mid, log, faults, failed);
    }

    /** The catch block: the administrator's mail, then the user's, both about the call `e` that threw. */
    method CatchBlock(cfg: Config, host: Host, p: JobParams, e: Call) returns (failed: Option<Call>)
      modifies this`log
      ensures Ran(log, old(log), CatchCalls(cfg, host, p, e), faults, failed)
    {
      var data := FailureData(cfg, host, p, e);
      var admin := MailCalls(cfg, host, Some(cfg.admin), AdminFailureSubject(p.id), AdminFailureTemplate, data);
      var user := MailCalls(cfg, host, p.email, UserFailureSubject, UserFailureTemplate, data);
      failed := AwaitAll(admin);
      if failed.Some? {
        RanStuck(log, old(log), admin, user, faults, failed.value);
        return;
      }
      ghost var mid := log;
      failed := AwaitAll(user);
      RanThen(old(log), mid, log, admin, user, faults, failed);
    }

    /** `processMessage(params)`: true after the success mail, false after both failure mails, a rejection otherwise. */
    method ProcessMessage(cfg: Config, host: Host, p: JobParams) returns (outcome: Outcome)
      modifies this`log
      ensures var t := ProcessSpec(cfg, host, faults, p, |old(log)|);
        log == old(log) + t.steps && outcome == t.outcome
    {
      var failed := TryBlock(cfg, host, p);
      if failed.None? {
        TryCatchOfRun(TryCalls(cfg, host, p), CatchStep(cfg, host, p), faults, old(log), log);
        return Resolved(true);
      }
      ghost var mid := log;
      var rethrown := CatchBlock(cfg, host, p, failed.value);
      CatchStepApply(cfg, host, p, failed.value);
      TryCatchOfRuns(TryCalls(cfg, host, p), CatchStep(cfg, host, p), faults, old(log), mid, log, failed.value, rethrown);
      outcome := if rethrown.None? then Resolved(false) else Rejected;
    }

    /** `sqs.receiveMessage(...)`: when it succeeds, the first message of the queue, if any. Receiving removes nothing. */
    method Receive(cfg: Config) returns (ok: bool, got: seq<Message>)
      modifies this`log
      ensures ok == Succeeds(faults, |old(log)|)
      ensures log == old(log) + [Step(ReceiveCall(cfg), ok)]
      ensures got == if ok then Take(queue, 1) else []
    {
      ok := Await(ReceiveCall(cfg));
      got := if ok then Take(queue, 1) else [];
    }

    /** `sqs.sendMessage` to the error queue: the body is appended to it when the call succeeds. */
    method SendToErrorQueue(cfg: Config, body: string) returns (ok: bool)
      modifies this`log, this`deadLetters
      ensures ok == Succeeds(faults, |old(log)|)
      ensures log == old(log) + [Step(SendMessage(cfg.errorUrl, body), ok)]
      ensures deadLetters == old(deadLetters) + (if ok then [body] else [])
    {
      ok := Await(SendMessage(cfg.errorUrl, body));
      if ok {
        deadLetters := deadLetters + [body];
      }
    }

    /** `sqs.deleteMessage`: the message with that receipt leaves the job queue when the call succeeds. */
    method Delete(cfg: Config, receipt: string) returns (ok: bool)
      modifies this`log, this`queue
      ensures ok == Succeeds(faults, |old(log)|)
      ensures log == old(log) + [Step(DeleteMessage(cfg.queueUrl, receipt), ok)]
      ensures queue == if ok then Without(old(queue), receipt) else old(queue)
    {
      ok := Await(DeleteMessage(cfg.queueUrl, receipt));
      if ok {
        queue := Without(queue, receipt);
      }
    }

    /** After `clearInterval`: the error queue when the status is false, then the delete. */
    method SettleMessage(cfg: Config, host: Host, p: JobParams, receipt: string, status: bool)
      modifies this`log, this`queue, this`deadLetters
      ensures var s := Settle(cfg, host, faults, p, receipt, status, |old(log)|);
        && log == old(log) + s.steps
        && deadLetters == old(deadLetters) + DeadLetters(s.deadLetter)
        && queue == Removed(old(queue), s.deleted)
    {
      if !status {
        var sent := SendToErrorQueue(cfg, host.stringify(p));
        if !sent {
          return;
        }
      }
      ghost var mid := log;
      var deleted := Delete(cfg, receipt);
      if !status {
        AppendAssoc(old(log), mid[|old(log)|..], [Step(DeleteMessage(cfg.queueUrl, receipt), deleted)]);
      }
    }

    /**
     * The body of the `if` in `receiveMessage`, for the message `m`: parse,
     * then supervise the job. A body that does not parse throws at once.
     */
    method HandleMessage(cfg: Config, host: Host, m: Message, ghost n: nat)
      requires n == |log|
      modifies this`log, this`queue, this`deadLetters
      ensures var h := Handle(cfg, host, faults, m, n);
        && log == old(log) + h.steps
        && deadLetters == old(deadLetters) + DeadLetters(h.deadLetter)
        && queue == Removed(old(queue), h.deleted)
    {
      var parsed := host.parse(m.body);
      if parsed.None? {
        return;
      }
      HandleParsed(cfg, host, faults, m, n, parsed.value);
      Supervise(cfg, host, parsed.value, m.receipt);
    }

    /**
     * From `setInterval` on: heartbeat, process, clear, error queue when the
     * status is false, delete. A rejection of `processMessage` ends it
     * before `clearInterval`.
     */
    method Supervise(cfg: Config, host: Host, p: JobParams, receipt: string)
      modifies this`log, this`queue, this`deadLetters
      ensures var r := Processed(cfg, host, faults, p, receipt, ProcessSpec(cfg, host, faults, p, |old(log)| + 1), |old(log)|);
        && log == old(log) + r.steps
        && deadLetters == old(deadLetters) + DeadLetters(r.deadLetter)
        && queue == Removed(old(queue), r.deleted)
    {
      ghost var n := |log|;
      ghost var start := [Step(StartHeartbeat(receipt), true)];
      Note(StartHeartbeat(receipt));
      var outcome := ProcessMessage(cfg, host, p);
      ghost var t := ProcessSpec(cfg, host, faults, p, n + 1);
      AppendAssoc(old(log), start, t.steps);
      if outcome.Rejected? {
        return;
      }
      ghost var k := n + |t.steps| + 2;
      FinishJob(cfg, host, p, receipt, outcome.status, k);
      ProcessedSettled(cfg, host, faults, p, receipt, t, n);
      Assemble(old(log), start, t.steps, [Step(StopHeartbeat(receipt), true)], Settle(cfg, host, faults, p, receipt, t.outcome.status, k).steps);
    }

    /** Once `processMessage` has resolved to `status`: `clearInterval`, then the settling of the message. */
    method FinishJob(cfg: Config, host: Host, p: JobParams, receipt: string, status: bool, ghost k: nat)
      requires k == |log| + 1
      modifies this`log, this`queue, this`deadLetters
      ensures var s := Settle(cfg, host, faults, p, receipt, status, k);
        && log == old(log) + [Step(StopHeartbeat(receipt), true)] + s.steps
        && deadLetters == old(deadLetters) + DeadLetters(s.deadLetter)
        && queue == Removed(old(queue), s.deleted)
    {
      Note(StopHeartbeat(receipt));
      SettleMessage(cfg, host, p, receipt, status);
    }

    /** One call of `receiveMessage`, ending with the rescheduling in `finally`. */
    method ReceiveOnce(cfg: Config, host: Host)
      modifies this`log, this`queue, this`deadLetters
      ensures var it := ReceiveSpec(cfg, host, faults, old(queue), |old(log)|);
        && log == old(log) + it.steps
        && deadLetters == old(deadLetters) + DeadLetters(it.deadLetter)
        && queue == Removed(old(queue), it.deleted)
    {
      ghost var n := |log|;
      var ok, got := Receive(cfg);
      ghost var h := if ok && got != [] then Handle(cfg, host, faults, got[0], n + 1) else Iteration([], None, None);
      if ok && got != [] {
        HandleMessage(cfg, host, got[0], n + 1);
      }
      Note(ScheduleReceive(cfg.pollInterval));
      assert log == old(log) + [Step(ReceiveCall(cfg), ok)] + h.steps + [Reschedule(cfg)];
      Assemble3(old(log), [Step(ReceiveCall(cfg), ok)], h.steps, [Reschedule(cfg)]);
    }
  }

  lemma Assemble3<T>(before: seq<T>, a: seq<T>, b: seq<T>, c: seq<T>)
    ensures before + a + b + c == before + (a + b + c)
  {
  }

  lemma Assemble<T>(before: seq<T>, a: seq<T>, b: seq<T>, c: seq<T>, d: seq<T>)
    ensures before + a + b + c + d == before + (a + b + c + d)
  {
  }
}
