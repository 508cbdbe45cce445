/**
 * One iteration of the worker's polling loop, `receiveMessage`: ask the job
 * queue for at most one message; if one arrives, parse its body, start the
 * visibility heartbeat, run `processMessage`, clear the heartbeat, send the
 * parameters to the error queue when the job failed, and delete the message;
 * whatever happens, schedule the next iteration.
 *
 * This module is the specification of that iteration: the steps it logs,
 * the body it puts on the error queue and the receipt of the message it
 * deletes, for every pattern of failures.
 */
module Consumer {
  import opened Common
  import opened Effects
  import opened Job

  /** A message of the job queue: its body and the receipt handle a receive hands out with it. */
  datatype Message = Message(body: string, receipt: string)

  /** The queue without the messages that carry `receipt`, the others in their order. */
  function Without(q: seq<Message>, receipt: string): seq<Message> {
    if q == [] then []
    else if q[0].receipt == receipt then Without(q[1..], receipt)
    else [q[0]] + Without(q[1..], receipt)
  }

  /** Deleting by receipt removes exactly the messages that carry it, and never lengthens the queue. */
  lemma {:induction false} WithoutSpec(q: seq<Message>, receipt: string)
    ensures |Without(q, receipt)| <= |q|
    ensures forall m :: m in Without(q, receipt) <==> m in q && m.receipt != receipt
  {
    if q != [] {
      WithoutSpec(q[1..], receipt);
      assert forall m :: m in q <==> m == q[0] || m in q[1..];
    }
  }

  /**
   * Deleting from a queue deletes from each of its parts, so the kept
   * messages keep their order: a message stays exactly when its receipt differs.
   */
  lemma {:induction false} WithoutAppend(a: seq<Message>, b: seq<Message>, receipt: string)
    ensures Without(a + b, receipt) == Without(a, receipt) + Without(b, receipt)
    ensures forall m :: Without([m], receipt) == if m.receipt == receipt then [] else [m]
  {
    if a != [] {
      assert (a + b)[0] == a[0];
      assert (a + b)[1..] == a[1..] + b;
      WithoutAppend(a[1..], b, receipt);
    } else {
      assert a + b == b;
    }
    forall m ensures Without([m], receipt) == if m.receipt == receipt then [] else [m] {
      assert [m][1..] == [];
    }
  }

  /** The first `max` messages of `q`, or all of them when there are fewer. */
  function Take(q: seq<Message>, max: nat): (r: seq<Message>)
    ensures |r| <= max && r <= q
    ensures |r| == |q| || |r| == max
  {
    if |q| <= max then q else q[..max]
  }

  /**
   * What an iteration leaves behind: the steps it logged, the body it put
   * on the error queue (if any) and the receipt of the message it deleted
   * (if any).
   */
  datatype Iteration = Iteration(steps: seq<Step<Call>>, deadLetter: Option<string>, deleted: Option<string>)

  /** `sqs.receiveMessage({QueueUrl, VisibilityTimeout, MaxNumberOfMessages: 1})`. */
  function ReceiveCall(cfg: Config): Call {
    ReceiveMessage(cfg.queueUrl, cfg.visibilityTimeout, 1)
  }

  /** `setTimeout(receiveMessage, pollInterval)`, which cannot throw. */
  function Reschedule(cfg: Config): Step<Call> {
    Step(ScheduleReceive(cfg.pollInterval), true)
  }

  predicate IsStopHeartbeat(c: Call) { c.StopHeartbeat? }
  predicate IsDeadLetterSend(c: Call) { c.SendMessage? }
  predicate IsDelete(c: Call) { c.DeleteMessage? }
  predicate IsReschedule(c: Call) { c.ScheduleReceive? }

  /** `sqs.deleteMessage({QueueUrl, ReceiptHandle})` at log position `k`. */
  function Deletion(cfg: Config, faults: set<nat>, receipt: string, k: nat): Iteration {
    var ok := Succeeds(faults, k);
    Iteration([Step(DeleteMessage(cfg.queueUrl, receipt), ok)], None, if ok then Some(receipt) else None)
  }

  /**
   * After `clearInterval`, from log position `k`: when the status is false
   * the parsed parameters, serialised again, go to the error queue; then
   * the message is deleted. A failed send throws and skips the delete.
   */
  function Settle(cfg: Config, host: Host, faults: set<nat>, p: JobParams, receipt: string, status: bool, k: nat): Iteration {
    if status then Deletion(cfg, faults, receipt, k)
    else
      var body := host.stringify(p);
      var sent := Succeeds(faults, k);
      if !sent then Iteration([Step(SendMessage(cfg.errorUrl, body), false)], None, None)
      else
        var d := Deletion(cfg, faults, receipt, k + 1);
        Iteration([Step(SendMessage(cfg.errorUrl, body), true)] + d.steps, Some(body), d.deleted)
  }

  /**
   * From `setInterval` at log position `n` on, for a message with receipt
   * `receipt` whose body parsed to `p`, once `processMessage(p)` has made
   * the steps of `t` and settled as `t.outcome`. A rejection throws past
   * `clearInterval`: the heartbeat is never cleared.
   */
  function Processed(cfg: Config, host: Host, faults: set<nat>, p: JobParams, receipt: string, t: Trace, n: nat): Iteration {
    var started := [Step(StartHeartbeat(receipt), true)] + t.steps;
    if t.outcome.Rejected? then Iteration(started, None, None)
    else
      var s := Settle(cfg, host, faults, p, receipt, t.outcome.status, n + |started| + 1);
      Iteration(started + [Step(StopHeartbeat(receipt), true)] + s.steps, s.deadLetter, s.deleted)
  }

  /** Handling a received message from log position `n`: a body that does not parse throws at once. */
  function Handle(cfg: Config, host: Host, faults: set<nat>, m: Message, n: nat): Iteration {
    match host.parse(m.body)
    case None => Iteration([], None, None)
    case Some(p) => Processed(cfg, host, faults, p, m.receipt, ProcessSpec(cfg, host, faults, p, n + 1), n)
  }

  /**
   * `receiveMessage()` from log position `n` with the job queue `queue`:
   * the receive, the handling of `Messages[0]` if the receive succeeded
   * and returned a message, and the rescheduling in `finally`.
   */
  function ReceiveSpec(cfg: Config, host: Host, faults: set<nat>, queue: seq<Message>, n: nat): Iteration {
    var got := Take(queue, 1);
    var received := Succeeds(faults, n);
    var h := if received && got != [] then Handle(cfg, host, faults, got[0], n + 1) else Iteration([], None, None);
    Iteration([Step(ReceiveCall(cfg), received)] + h.steps + [Reschedule(cfg)], h.deadLetter, h.deleted)
  }

  /** The queue once the message with receipt `deleted` (if any) is gone. */
  function Removed(q: seq<Message>, deleted: Option<string>): seq<Message> {
    if deleted.Some? then Without(q, deleted.value) else q
  }

  /** The bodies an iteration adds to the error queue. */
  function DeadLetters(deadLetter: Option<string>): seq<string> {
    if deadLetter.Some? then [deadLetter.value] else []
  }

  // ---------------------------------------------------------------------
  // Properties of the specification

  /**
   * When `processMessage` rejects, the heartbeat was started and is never
   * stopped, and nothing is sent to the error queue or deleted.
   */
  lemma HeartbeatLeaksOnRejection(cfg: Config, host: Host, faults: set<nat>, p: JobParams, receipt: string, t: Trace, n: nat)
    requires t.outcome == Rejected && StepsAllOf(t.steps, IsJobCall)
    ensures var r := Processed(cfg, host, faults, p, receipt, t, n);
      && |r.steps| > 0 && r.steps[0] == Step(StartHeartbeat(receipt), true)
      && !StepsAnyOf(r.steps, IsStopHeartbeat)
      && !StepsAnyOf(r.steps, IsDeadLetterSend) && !StepsAnyOf(r.steps, IsDelete)
      && r.deadLetter.None? && r.deleted.None?
  {
    var start := [Step(StartHeartbeat(receipt), true)];
    StartIsNotQueueWork(receipt);
    StepsNoneOf(t.steps, IsJobCall, IsStopHeartbeat);
    StepsNoneOf(t.steps, IsJobCall, IsDeadLetterSend);
    StepsNoneOf(t.steps, IsJobCall, IsDelete);
    StepsAnyOfAppend(start, t.steps, IsStopHeartbeat);
    StepsAnyOfAppend(start, t.steps, IsDeadLetterSend);
    StepsAnyOfAppend(start, t.steps, IsDelete);
  }

  lemma StartIsNotQueueWork(receipt: string)
    ensures var start := [Step(StartHeartbeat(receipt), true)];
      && !StepsAnyOf(start, IsStopHeartbeat) && !StepsAnyOf(start, IsDeadLetterSend)
      && !StepsAnyOf(start, IsDelete) && !StepsAnyOf(start, IsReschedule)
  {
  }

  /**
   * After `clearInterval`, with the job settled: the heartbeat is stopped
   * right after `processMessage` returns, and every send to the error queue
   * and every delete comes after it.
   */
  lemma HeartbeatClearedBeforeSettling(cfg: Config, host: Host, faults: set<nat>, p: JobParams, receipt: string, t: Trace, n: nat)
    requires t.outcome != Rejected && StepsAllOf(t.steps, IsJobCall)
    ensures var r := Processed(cfg, host, faults, p, receipt, t, n); var k := 1 + |t.steps|;
      && k < |r.steps| && r.steps[0] == Step(StartHeartbeat(receipt), true)
      && r.steps[k] == Step(StopHeartbeat(receipt), true)
      && (forall i :: 0 <= i < |r.steps| && IsStopHeartbeat(r.steps[i].call) ==> i == k)
      && (forall i :: 0 <= i < |r.steps| && IsDeadLetterSend(r.steps[i].call) ==> k < i)
      && (forall i :: 0 <= i < |r.steps| && IsDelete(r.steps[i].call) ==> k < i)
  {
    var started := [Step(StartHeartbeat(receipt), true)] + t.steps;
    var pre := started + [Step(StopHeartbeat(receipt), true)];
    var s := Settle(cfg, host, faults, p, receipt, t.outcome.status, n + |started| + 1);
    StartIsNotQueueWork(receipt);
    StepsNoneOf(t.steps, IsJobCall, IsStopHeartbeat);
    StepsNoneOf(t.steps, IsJobCall, IsDeadLetterSend);
    StepsNoneOf(t.steps, IsJobCall, IsDelete);
    StepsAnyOfAppend([Step(StartHeartbeat(receipt), true)], t.steps, IsStopHeartbeat);
    StepsAnyOfAppend([Step(StartHeartbeat(receipt), true)], t.steps, IsDeadLetterSend);
    StepsAnyOfAppend([Step(StartHeartbeat(receipt), true)], t.steps, IsDelete);
    SettleKinds(cfg, host, faults, p, receipt, t.outcome.status, n + |started| + 1);
    OnlyAfter(started, [Step(StopHeartbeat(receipt), true)] + s.steps, IsStopHeartbeat);
    StopThenSettle(started, Step(StopHeartbeat(receipt), true), s.steps);
    OnlyAfter(started, [Step(StopHeartbeat(receipt), true)] + s.steps, IsDeadLetterSend);
    OnlyAfter(started, [Step(StopHeartbeat(receipt), true)] + s.steps, IsDelete);
  }

  lemma StopThenSettle(started: seq<Step<Call>>, stop: Step<Call>, s: seq<Step<Call>>)
    ensures started + [stop] + s == started + ([stop] + s)
  {
  }

  /** The steps after `clearInterval` are only the send to the error queue and the delete. */
  lemma SettleKinds(cfg: Config, host: Host, faults: set<nat>, p: JobParams, receipt: string, status: bool, k: nat)
    ensures var s := Settle(cfg, host, faults, p, receipt, status, k);
      && !StepsAnyOf(s.steps, IsStopHeartbeat) && !StepsAnyOf(s.steps, IsReschedule)
  {
  }

  /** What `Settle` sends to the error queue, for each status. */
  lemma SettleDeadLetter(cfg: Config, host: Host, faults: set<nat>, p: JobParams, receipt: string, status: bool, k: nat)
    ensures var s := Settle(cfg, host, faults, p, receipt, status, k);
      && (StepsAnyOf(s.steps, IsDeadLetterSend) <==> !status)
      && (forall i :: 0 <= i < |s.steps| && IsDeadLetterSend(s.steps[i].call) ==> s.steps[i].call == SendMessage(cfg.errorUrl, host.stringify(p)))
      && (s.deadLetter.Some? <==> !status && Succeeds(faults, k))
      && (s.deadLetter.Some? ==> s.deadLetter.value == host.stringify(p))
  {
    var s := Settle(cfg, host, faults, p, receipt, status, k);
    if !status {
      assert IsDeadLetterSend(s.steps[0].call);
    }
  }

  /** When `Settle` deletes the message, and with which receipt. */
  lemma SettleDelete(cfg: Config, host: Host, faults: set<nat>, p: JobParams, receipt: string, status: bool, k: nat)
    ensures var s := Settle(cfg, host, faults, p, receipt, status, k);
      && s.steps != []
      && (StepsAnyOf(s.steps, IsDelete) <==> status || Succeeds(faults, k))
      && (StepsAnyOf(s.steps, IsDelete) ==> s.steps[|s.steps| - 1].call == DeleteMessage(cfg.queueUrl, receipt))
      && (s.deleted.Some? <==> StepsAnyOf(s.steps, IsDelete) && s.steps[|s.steps| - 1].ok)
      && (s.deleted.Some? ==> s.deleted.value == receipt)
  {
    var s := Settle(cfg, host, faults, p, receipt, status, k);
    if status || Succeeds(faults, k) {
      assert IsDelete(s.steps[|s.steps| - 1].call);
    }
  }

  /** Up to `clearInterval` no queue call is made: only the heartbeat and the job's own calls. */
  lemma BeforeSettling(receipt: string, t: Trace)
    requires StepsAllOf(t.steps, IsJobCall)
    ensures var started := [Step(StartHeartbeat(receipt), true)] + t.steps;
      var pre := started + [Step(StopHeartbeat(receipt), true)];
      && !StepsAnyOf(started, IsDeadLetterSend) && !StepsAnyOf(started, IsDelete) && !StepsAnyOf(started, IsReschedule)
      && !StepsAnyOf(pre, IsDeadLetterSend) && !StepsAnyOf(pre, IsDelete) && !StepsAnyOf(pre, IsReschedule)
  {
    var start := [Step(StartHeartbeat(receipt), true)];
    var stop := [Step(StopHeartbeat(receipt), true)];
    StartIsNotQueueWork(receipt);
    StepsNoneOf(t.steps, IsJobCall, IsDeadLetterSend);
    StepsNoneOf(t.steps, IsJobCall, IsDelete);
    StepsNoneOf(t.steps, IsJobCall, IsReschedule);
    StepsAnyOfAppend(start, t.steps, IsDeadLetterSend);
    StepsAnyOfAppend(start, t.steps, IsDelete);
    StepsAnyOfAppend(start, t.steps, IsReschedule);
    assert !StepsAnyOf(stop, IsDeadLetterSend) && !StepsAnyOf(stop, IsDelete) && !StepsAnyOf(stop, IsReschedule);
    StepsAnyOfAppend(start + t.steps, stop, IsDeadLetterSend);
    StepsAnyOfAppend(start + t.steps, stop, IsDelete);
    StepsAnyOfAppend(start + t.steps, stop, IsReschedule);
  }

  /**
   * The parameters go to the error queue exactly when `processMessage`
   * resolved to false, serialised again with `JSON.stringify`, and they
   * reach it unless that send throws.
   */
  lemma DeadLetterIffFalse(cfg: Config, host: Host, faults: set<nat>, p: JobParams, receipt: string, t: Trace, n: nat)
    requires StepsAllOf(t.steps, IsJobCall)
    ensures var r := Processed(cfg, host, faults, p, receipt, t, n);
      && (StepsAnyOf(r.steps, IsDeadLetterSend) <==> t.outcome == Resolved(false))
      && (forall i :: 0 <= i < |r.steps| && IsDeadLetterSend(r.steps[i].call) ==> r.steps[i].call == SendMessage(cfg.errorUrl, host.stringify(p)))
      && (r.deadLetter.Some? <==> t.outcome == Resolved(false) && Succeeds(faults, n + |t.steps| + 2))
      && (r.deadLetter.Some? ==> r.deadLetter.value == host.stringify(p))
  {
    BeforeSettling(receipt, t);
    var started := [Step(StartHeartbeat(receipt), true)] + t.steps;
    if t.outcome.Rejected? {
      HeartbeatLeaksOnRejection(cfg, host, faults, p, receipt, t, n);
    } else {
      var pre := started + [Step(StopHeartbeat(receipt), true)];
      var k := n + |started| + 1;
      var s := Settle(cfg, host, faults, p, receipt, t.outcome.status, k);
      SettleDeadLetter(cfg, host, faults, p, receipt, t.outcome.status, k);
      StepsAnyOfAppend(pre, s.steps, IsDeadLetterSend);
      OnlyAfter(pre, s.steps, IsDeadLetterSend);
    }
  }

  /**
   * The message is deleted only when nothing threw before: the job settled,
   * and when it failed its parameters reached the error queue. The delete
   * is the last step and names the receipt of the message received.
   */
  lemma DeleteUnlessThrown(cfg: Config, host: Host, faults: set<nat>, p: JobParams, receipt: string, t: Trace, n: nat)
    requires StepsAllOf(t.steps, IsJobCall)
    ensures var r := Processed(cfg, host, faults, p, receipt, t, n);
      && (StepsAnyOf(r.steps, IsDelete) <==>
           t.outcome == Resolved(true) || (t.outcome == Resolved(false) && Succeeds(faults, n + |t.steps| + 2)))
      && (StepsAnyOf(r.steps, IsDelete) ==> r.steps[|r.steps| - 1].call == DeleteMessage(cfg.queueUrl, receipt))
      && (r.deleted.Some? <==> StepsAnyOf(r.steps, IsDelete) && r.steps[|r.steps| - 1].ok)
      && (r.deleted.Some? ==> r.deleted.value == receipt)
  {
    BeforeSettling(receipt, t);
    var started := [Step(StartHeartbeat(receipt), true)] + t.steps;
    if t.outcome.Rejected? {
      HeartbeatLeaksOnRejection(cfg, host, faults, p, receipt, t, n);
    } else {
      var pre := started + [Step(StopHeartbeat(receipt), true)];
      var k := n + |started| + 1;
      var s := Settle(cfg, host, faults, p, receipt, t.outcome.status, k);
      SettleDelete(cfg, host, faults, p, receipt, t.outcome.status, k);
      StepsAnyOfAppend(pre, s.steps, IsDelete);
      LastOfAppend(pre, s.steps);
    }
  }

  /** Handling a message never schedules the next iteration itself. */
  lemma ProcessedNeverReschedules(cfg: Config, host: Host, faults: set<nat>, p: JobParams, receipt: string, t: Trace, n: nat)
    requires StepsAllOf(t.steps, IsJobCall)
    ensures !StepsAnyOf(Processed(cfg, host, faults, p, receipt, t, n).steps, IsReschedule)
  {
    BeforeSettling(receipt, t);
    var started := [Step(StartHeartbeat(receipt), true)] + t.steps;
    if !t.outcome.Rejected? {
      var pre := started + [Step(StopHeartbeat(receipt), true)];
      var k := n + |started| + 1;
      SettleKinds(cfg, host, faults, p, receipt, t.outcome.status, k);
      StepsAnyOfAppend(pre, Settle(cfg, host, faults, p, receipt, t.outcome.status, k).steps, IsReschedule);
    }
  }

  /** Handling a message makes at least the `setInterval` step when its body parses, and nothing otherwise. */
  lemma HandleSteps(cfg: Config, host: Host, faults: set<nat>, m: Message, n: nat)
    ensures var h := Handle(cfg, host, faults, m, n);
      && (h.steps == [] <==> host.parse(m.body).None?)
      && (h.steps == [] ==> h.deadLetter.None? && h.deleted.None?)
      && !StepsAnyOf(h.steps, IsReschedule)
      && (h.deleted.Some? ==> h.deleted.value == m.receipt)
      && (h.deadLetter.Some? ==> host.parse(m.body).Some? && h.deadLetter.value == host.stringify(host.parse(m.body).value))
  {
    match host.parse(m.body)
    case None =>
    case Some(p) =>
      var t := ProcessSpec(cfg, host, faults, p, n + 1);
      ProcessSpecMakesJobCalls(cfg, host, faults, p, n + 1);
      ProcessedNeverReschedules(cfg, host, faults, p, m.receipt, t, n);
      DeadLetterIffFalse(cfg, host, faults, p, m.receipt, t, n);
      DeleteUnlessThrown(cfg, host, faults, p, m.receipt, t, n);
  }

  /**
   * Nothing is processed, sent to the error queue or deleted when the
   * receive throws, returns no message, or returns one whose body does not
   * parse: the iteration is then the receive and the rescheduling alone.
   */
  lemma NothingHandledWithoutMessage(cfg: Config, host: Host, faults: set<nat>, queue: seq<Message>, n: nat)
    ensures var it := ReceiveSpec(cfg, host, faults, queue, n);
      && (|it.steps| == 2 <==> !Succeeds(faults, n) || queue == [] || host.parse(queue[0].body).None?)
      && (|it.steps| == 2 ==> it.deadLetter.None? && it.deleted.None?)
  {
    if Succeeds(faults, n) && queue != [] {
      HandleSteps(cfg, host, faults, queue[0], n + 1);
    }
  }

  /**
   * Only `Messages[0]` of a receive asking for one message is handled: a
   * delete names its receipt, and an error-queue body is its parameters
   * serialised again.
   */
  lemma OnlyFirstMessageHandled(cfg: Config, host: Host, faults: set<nat>, queue: seq<Message>, n: nat)
    ensures var it := ReceiveSpec(cfg, host, faults, queue, n);
      && it.steps[0] == Step(ReceiveMessage(cfg.queueUrl, cfg.visibilityTimeout, 1), Succeeds(faults, n))
      && (it.deleted.Some? ==> queue != [] && it.deleted.value == queue[0].receipt)
      && (it.deadLetter.Some? ==>
            queue != [] && host.parse(queue[0].body).Some?
            && it.deadLetter.value == host.stringify(host.parse(queue[0].body).value))
  {
    if Succeeds(faults, n) && queue != [] {
      HandleSteps(cfg, host, faults, queue[0], n + 1);
    }
  }

  /** The next iteration is scheduled exactly once, by the last step, whatever threw. */
  lemma RescheduledOnceAtEnd(cfg: Config, host: Host, faults: set<nat>, queue: seq<Message>, n: nat)
    ensures var it := ReceiveSpec(cfg, host, faults, queue, n);
      && |it.steps| >= 2 && it.steps[|it.steps| - 1] == Step(ScheduleReceive(cfg.pollInterval), true)
      && (forall i :: 0 <= i < |it.steps| - 1 ==> !IsReschedule(it.steps[i].call))
  {
    var got := Take(queue, 1);
    var received := Succeeds(faults, n);
    var h := if received && got != [] then Handle(cfg, host, faults, got[0], n + 1) else Iteration([], None, None);
    if received && got != [] {
      HandleSteps(cfg, host, faults, got[0], n + 1);
    }
    Bracketed(Step(ReceiveCall(cfg), received), h.steps, Reschedule(cfg));
  }

  /** Between a first and a last step that are not reschedulings, only the last one is. */
  lemma Bracketed(first: Step<Call>, middle: seq<Step<Call>>, last: Step<Call>)
    requires !IsReschedule(first.call) && !StepsAnyOf(middle, IsReschedule)
    ensures var all := [first] + middle + [last];
      && all[|all| - 1] == last
      && (forall i :: 0 <= i < |all| - 1 ==> !IsReschedule(all[i].call))
  {
    var all := [first] + middle + [last];
    forall i | 0 <= i < |all| - 1 ensures !IsReschedule(all[i].call) {
      if i > 0 {
        assert all[i] == middle[i - 1];
      }
    }
  }

  /** A message whose body parses is handled as its job runs from the next position. */
  lemma HandleParsed(cfg: Config, host: Host, faults: set<nat>, m: Message, n: nat, p: JobParams)
    requires host.parse(m.body) == Some(p)
    ensures Handle(cfg, host, faults, m, n) == Processed(cfg, host, faults, p, m.receipt, ProcessSpec(cfg, host, faults, p, n + 1), n)
  {
  }

  /** A job that settles: the heartbeat, the job's steps, the stop, then `Settle` from the next position. */
  lemma ProcessedSettled(cfg: Config, host: Host, faults: set<nat>, p: JobParams, receipt: string, t: Trace, n: nat)
    requires !t.outcome.Rejected?
    ensures var s := Settle(cfg, host, faults, p, receipt, t.outcome.status, n + |t.steps| + 2);
      Processed(cfg, host, faults, p, receipt, t, n)
        == Iteration([Step(StartHeartbeat(receipt), true)] + t.steps + [Step(StopHeartbeat(receipt), true)] + s.steps, s.deadLetter, s.deleted)
  {
  }
}
