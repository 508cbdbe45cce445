/**
 * External calls as a sequential log. Every call the servers make to
 * storage, the queue, mail, the file system or the converter is one step of
 * the log, recorded with whether it succeeded. Which calls fail is fixed in
 * advance by the set of log positions at which a call faults, so every
 * pattern of failures is covered by some choice of that set.
 */
module Effects {
  import opened Common

  /** One external call and whether it succeeded. */
  datatype Step<C> = Step(call: C, ok: bool)

  /** The call made at log position `k` succeeds unless `k` is a faulty position. */
  predicate Succeeds(faults: set<nat>, k: nat) {
    k !in faults
  }

  /** Every step of `steps` succeeded. */
  predicate AllOk<C>(steps: seq<Step<C>>) {
    forall i :: 0 <= i < |steps| ==> steps[i].ok
  }

  /** The calls the steps record, in order. */
  function Calls<C>(steps: seq<Step<C>>): (cs: seq<C>)
    ensures |cs| == |steps|
    ensures forall i :: 0 <= i < |steps| ==> cs[i] == steps[i].call
  {
    if steps == [] then [] else [steps[0].call] + Calls(steps[1..])
  }

  /**
   * Awaiting the calls one after another from log position `n`: the first
   * call that fails throws, and nothing after it is attempted.
   */
  function Run<C>(calls: seq<C>, faults: set<nat>, n: nat): (r: seq<Step<C>>)
    ensures |r| <= |calls|
    decreases |calls|
  {
    if calls == [] then []
    else if Succeeds(faults, n) then [Step(calls[0], true)] + Run(calls[1..], faults, n + 1)
    else [Step(calls[0], false)]
  }

  /** No call from log position `n` on faults while the `|calls|` calls are made. */
  predicate Completes<C>(calls: seq<C>, faults: set<nat>, n: nat)
    decreases |calls|
  {
    calls == [] || (Succeeds(faults, n) && Completes(calls[1..], faults, n + 1))
  }

  /** Each step of a run is the planned call at that place, with its own outcome. */
  lemma {:induction false} RunAt<C>(calls: seq<C>, faults: set<nat>, n: nat, i: nat)
    requires i < |Run(calls, faults, n)|
    ensures Run(calls, faults, n)[i] == Step(calls[i], Succeeds(faults, n + i))
    decreases |calls|
  {
    if i > 0 {
      RunAt(calls[1..], faults, n + 1, i - 1);
    }
  }

  /** A run stops only at a failure: every step but the last succeeded, and the last failed if the run stopped short. */
  lemma {:induction false} RunStopsAtFailure<C>(calls: seq<C>, faults: set<nat>, n: nat)
    ensures var r := Run(calls, faults, n);
      (forall i :: 0 <= i < |r| - 1 ==> r[i].ok) && (|r| < |calls| ==> r != [] && !r[|r| - 1].ok)
    decreases |calls|
  {
    if calls != [] && Succeeds(faults, n) {
      RunStopsAtFailure(calls[1..], faults, n + 1);
      var r := Run(calls, faults, n);
      var t := Run(calls[1..], faults, n + 1);
      assert r == [Step(calls[0], true)] + t;
      forall i | 0 <= i < |r| - 1 ensures r[i].ok {
        if i > 0 { assert r[i] == t[i - 1]; }
      }
      if |r| < |calls| {
        assert r[|r| - 1] == t[|t| - 1];
      }
    }
  }

  /** A run that failed somewhere failed at its last step, and only there. */
  lemma RunFailed<C>(calls: seq<C>, faults: set<nat>, n: nat)
    requires !AllOk(Run(calls, faults, n))
    ensures var r := Run(calls, faults, n);
      r != [] && !r[|r| - 1].ok && forall i :: 0 <= i < |r| - 1 ==> r[i].ok
  {
    var r := Run(calls, faults, n);
    RunStopsAtFailure(calls, faults, n);
    var j :| 0 <= j < |r| && !r[j].ok;
    assert j == |r| - 1;
  }

  /** A run without a failure made every planned call. */
  lemma {:induction false} RunCompletes<C>(calls: seq<C>, faults: set<nat>, n: nat)
    ensures AllOk(Run(calls, faults, n)) ==> |Run(calls, faults, n)| == |calls|
  {
    RunStopsAtFailure(calls, faults, n);
  }

  /** Running two lists of calls one after the other: the second is reached only if the first completes. */
  lemma {:induction false} RunAppend<C>(a: seq<C>, b: seq<C>, faults: set<nat>, n: nat)
    ensures Completes(a, faults, n) ==> Run(a + b, faults, n) == Run(a, faults, n) + Run(b, faults, n + |a|)
    ensures !Completes(a, faults, n) ==> Run(a + b, faults, n) == Run(a, faults, n)
    decreases |a|
  {
    if a == [] {
      assert a + b == b;
    } else {
      assert (a + b)[0] == a[0];
      assert (a + b)[1..] == a[1..] + b;
      if Succeeds(faults, n) {
        RunAppend(a[1..], b, faults, n + 1);
        if Completes(a[1..], faults, n + 1) {
          AppendAssoc([Step(a[0], true)], Run(a[1..], faults, n + 1), Run(b, faults, n + |a|));
        }
      }
    }
  }

  lemma AppendAssoc<T>(a: seq<T>, b: seq<T>, c: seq<T>)
    ensures a + (b + c) == (a + b) + c
  {
  }

  lemma AllOkCons<C>(s: Step<C>, r: seq<Step<C>>)
    ensures AllOk([s] + r) <==> s.ok && AllOk(r)
  {
    if s.ok && AllOk(r) {
      forall i | 0 <= i < |[s] + r| ensures ([s] + r)[i].ok {
        if i > 0 { assert ([s] + r)[i] == r[i - 1]; }
      }
    }
    if AllOk([s] + r) {
      assert s == ([s] + r)[0];
      forall i | 0 <= i < |r| ensures r[i].ok {
        assert r[i] == ([s] + r)[i + 1];
      }
    }
  }

  /** A run completes exactly when all of its steps succeeded. */
  lemma {:induction false} CompletesIff<C>(calls: seq<C>, faults: set<nat>, n: nat)
    ensures Completes(calls, faults, n) <==> AllOk(Run(calls, faults, n))
    decreases |calls|
  {
    if calls != [] {
      if Succeeds(faults, n) {
        CompletesIff(calls[1..], faults, n + 1);
        AllOkCons(Step(calls[0], true), Run(calls[1..], faults, n + 1));
      } else {
        assert !Run(calls, faults, n)[0].ok;
      }
    }
  }

  /** A run completes exactly when none of the log positions its calls take is faulty. */
  lemma {:induction false} CompletesIffNoFault<C>(calls: seq<C>, faults: set<nat>, n: nat)
    ensures Completes(calls, faults, n) <==> forall k :: n <= k < n + |calls| ==> Succeeds(faults, k)
    decreases |calls|
  {
    if calls != [] {
      CompletesIffNoFault(calls[1..], faults, n + 1);
    }
  }

  /** Once a run has failed, calls planned after it make no difference. */
  lemma RunPrefix<C>(a: seq<C>, b: seq<C>, faults: set<nat>, n: nat)
    requires a <= b
    requires !AllOk(Run(a, faults, n))
    ensures Run(b, faults, n) == Run(a, faults, n)
  {
    assert b == a + b[|a|..];
    CompletesIff(a, faults, n);
    RunAppend(a, b[|a|..], faults, n);
  }

  /** Making one more call after a run that completed adds exactly that call's step. */
  lemma RunSnoc<C>(a: seq<C>, c: C, faults: set<nat>, n: nat)
    requires AllOk(Run(a, faults, n))
    ensures Run(a + [c], faults, n) == Run(a, faults, n) + [Step(c, Succeeds(faults, n + |a|))]
  {
    CompletesIff(a, faults, n);
    RunAppend(a, [c], faults, n);
  }

  /** A concatenation of steps all succeeded exactly when both parts did. */
  lemma AllOkAppend<C>(a: seq<Step<C>>, b: seq<Step<C>>)
    ensures AllOk(a + b) <==> AllOk(a) && AllOk(b)
  {
    if AllOk(a + b) {
      forall i | 0 <= i < |a| ensures a[i].ok { assert a[i] == (a + b)[i]; }
      forall i | 0 <= i < |b| ensures b[i].ok { assert b[i] == (a + b)[|a| + i]; }
    }
  }

  /**
   * Making the next call `c` of a plan after the calls `made` of it all
   * succeeded: the run grows by that call's step; if the call failed, the
   * whole plan's run ends there.
   */
  lemma RunStep<C>(plan: seq<C>, made: seq<C>, c: C, faults: set<nat>, n: nat)
    requires made + [c] <= plan
    requires AllOk(Run(made, faults, n))
    ensures |Run(made, faults, n)| == |made|
    ensures Run(made + [c], faults, n) == Run(made, faults, n) + [Step(c, Succeeds(faults, n + |made|))]
    ensures AllOk(Run(made + [c], faults, n)) <==> Succeeds(faults, n + |made|)
    ensures !Succeeds(faults, n + |made|) ==> Run(plan, faults, n) == Run(made + [c], faults, n)
  {
    RunCompletes(made, faults, n);
    RunSnoc(made, c, faults, n);
    AllOkAppend(Run(made, faults, n), [Step(c, Succeeds(faults, n + |made|))]);
    if !Succeeds(faults, n + |made|) {
      assert Run(made + [c], faults, n)[|made|] == Step(c, false);
      RunPrefix(made + [c], plan, faults, n);
    }
  }

  /** The calls of a loop whose body makes the calls `body(x)` for each `x` of `xs` in turn. */
  function Flatten<T, C>(body: T -> seq<C>, xs: seq<T>): seq<C> {
    if xs == [] then [] else body(xs[0]) + Flatten(body, xs[1..])
  }

  /** The loop over `a + b` makes the calls for `a`, then those for `b`. */
  lemma {:induction false} FlattenAppend<T, C>(body: T -> seq<C>, a: seq<T>, b: seq<T>)
    ensures Flatten(body, a + b) == Flatten(body, a) + Flatten(body, b)
    decreases |a|
  {
    if a == [] {
      assert a + b == b;
    } else {
      assert (a + b)[0] == a[0];
      assert (a + b)[1..] == a[1..] + b;
      FlattenAppend(body, a[1..], b);
    }
  }

  /** The calls for element `i` come after those for the elements before it and before those after it. */
  lemma FlattenAt<T, C>(body: T -> seq<C>, xs: seq<T>, i: nat)
    requires i < |xs|
    ensures Flatten(body, xs) == Flatten(body, xs[..i]) + body(xs[i]) + Flatten(body, xs[i + 1..])
  {
    assert xs == xs[..i] + xs[i..];
    FlattenAppend(body, xs[..i], xs[i..]);
    assert xs[i..][0] == xs[i];
    assert xs[i..][1..] == xs[i + 1..];
  }

  /** How a `try`/`catch` statement ends: the try block completed, the catch block completed, or the catch block threw as well. */
  datatype Settled = TryCompleted | CatchCompleted | CatchThrew

  /** The steps a `try`/`catch` statement made and how it ended. */
  datatype Attempt<C> = Attempt(steps: seq<Step<C>>, settled: Settled)

  /** The call that failed when a run of `body` did not complete. */
  function FailedCall<C>(body: seq<C>, faults: set<nat>, n: nat): C
    requires !Completes(body, faults, n)
  {
    var tried := Run(body, faults, n);
    tried[|tried| - 1].call
  }

  /** The calls the handler plans for the call that failed. */
  function Handled<C>(body: seq<C>, handler: C -> seq<C>, faults: set<nat>, n: nat): seq<C>
    requires !Completes(body, faults, n)
  {
    handler(FailedCall(body, faults, n))
  }

  /**
   * `try { body } catch { handler(failed) }` from log position `n`: the
   * body's calls up to its first failure and, if one failed, the calls the
   * handler makes for the call that failed, up to their own first failure.
   */
  function TryCatch<C>(body: seq<C>, handler: C -> seq<C>, faults: set<nat>, n: nat): Attempt<C> {
    var tried := Run(body, faults, n);
    if Completes(body, faults, n) then Attempt(tried, TryCompleted)
    else
      var m := n + |tried|;
      var handled := Handled(body, handler, faults, n);
      Attempt(tried + Run(handled, faults, m), if Completes(handled, faults, m) then CatchCompleted else CatchThrew)
  }

  /** The calls a run made are the first planned ones. */
  lemma RunCalls<C>(calls: seq<C>, faults: set<nat>, n: nat)
    ensures var r := Run(calls, faults, n); Calls(r) == calls[..|r|]
  {
    var r := Run(calls, faults, n);
    forall i | 0 <= i < |r| ensures Calls(r)[i] == calls[..|r|][i] {
      RunAt(calls, faults, n, i);
    }
  }

  /** The try block completes exactly when none of its calls fails, and then every planned call was made. */
  lemma TryCatchCompleted<C>(body: seq<C>, handler: C -> seq<C>, faults: set<nat>, n: nat)
    ensures var a := TryCatch(body, handler, faults, n);
      a.settled == TryCompleted <==> Completes(body, faults, n)
    ensures var a := TryCatch(body, handler, faults, n);
      a.settled == TryCompleted ==> Calls(a.steps) == body && AllOk(a.steps)
  {
    CompletesIff(body, faults, n);
    RunCompletes(body, faults, n);
    RunCalls(body, faults, n);
  }

  /** When the try block fails, the steps are its run followed by the catch block's run for the failed call. */
  lemma TryCatchSplit<C>(body: seq<C>, handler: C -> seq<C>, faults: set<nat>, n: nat)
    requires TryCatch(body, handler, faults, n).settled != TryCompleted
    ensures !Completes(body, faults, n) && Run(body, faults, n) != []
    ensures TryCatch(body, handler, faults, n).steps
      == Run(body, faults, n) + Run(Handled(body, handler, faults, n), faults, n + |Run(body, faults, n)|)
    ensures TryCatch(body, handler, faults, n).settled == CatchCompleted
      <==> Completes(Handled(body, handler, faults, n), faults, n + |Run(body, faults, n)|)
  {
  }

  lemma AppendParts<T>(a: seq<T>, b: seq<T>)
    ensures (a + b)[..|a|] == a && (a + b)[|a|..] == b
    ensures forall i :: 0 <= i < |a| ==> (a + b)[i] == a[i]
  {
  }

  /**
   * When the try block fails, its first `k` calls were made as planned, only
   * the `k`-th failed, and the catch block runs for that call from the next
   * log position; the statement completes exactly when the catch block does.
   */
  lemma TryCatchFailed<C>(body: seq<C>, handler: C -> seq<C>, faults: set<nat>, n: nat)
    requires TryCatch(body, handler, faults, n).settled != TryCompleted
    ensures var a := TryCatch(body, handler, faults, n);
      var k := |Run(body, faults, n)|;
      && 0 < k <= |a.steps| && k <= |body|
      && Calls(a.steps[..k]) == body[..k]
      && (forall i :: 0 <= i < k - 1 ==> a.steps[i].ok) && !a.steps[k - 1].ok
      && a.steps[k..] == Run(handler(a.steps[k - 1].call), faults, n + k)
      && (a.settled == CatchCompleted <==> Completes(handler(a.steps[k - 1].call), faults, n + k))
  {
    var tried := Run(body, faults, n);
    TryCatchSplit(body, handler, faults, n);
    CompletesIff(body, faults, n);
    RunFailed(body, faults, n);
    RunCalls(body, faults, n);
    AppendParts(tried, Run(Handled(body, handler, faults, n), faults, n + |tried|));
  }

  /** A try/catch statement whose catch block threw ends on a failed call. */
  lemma TryCatchThrew<C>(body: seq<C>, handler: C -> seq<C>, faults: set<nat>, n: nat)
    requires TryCatch(body, handler, faults, n).settled == CatchThrew
    ensures TryCatch(body, handler, faults, n).steps != []
    ensures !TryCatch(body, handler, faults, n).steps[|TryCatch(body, handler, faults, n).steps| - 1].ok
  {
    TryCatchSplit(body, handler, faults, n);
    EndsFailed(Run(body, faults, n), Handled(body, handler, faults, n), faults, n + |Run(body, faults, n)|);
  }

  /**
   * A try/catch statement whose catch block completed made every call of the
   * catch block, the last of them last.
   */
  lemma TryCatchHandled<C>(body: seq<C>, handler: C -> seq<C>, faults: set<nat>, n: nat)
    requires TryCatch(body, handler, faults, n).settled == CatchCompleted
    ensures var a := TryCatch(body, handler, faults, n);
      var cs := Handled(body, handler, faults, n);
      cs != [] ==> a.steps[|a.steps| - 1].ok && a.steps[|a.steps| - 1].call == cs[|cs| - 1]
  {
    TryCatchSplit(body, handler, faults, n);
    if Handled(body, handler, faults, n) != [] {
      EndsCompleted(Run(body, faults, n), Handled(body, handler, faults, n), faults, n + |Run(body, faults, n)|);
    }
  }

  /**
   * When the try block's last call has a property that the catch block's
   * last call never has, the try block completed exactly when the
   * statement's last step is a successful call with that property.
   */
  lemma TryCatchEndsWith<C>(body: seq<C>, handler: C -> seq<C>, faults: set<nat>, n: nat, good: C -> bool)
    requires body != [] && good(body[|body| - 1])
    requires forall c :: handler(c) != [] && !good(handler(c)[|handler(c)| - 1])
    ensures var a := TryCatch(body, handler, faults, n);
      a.settled == TryCompleted <==>
        (a.steps != [] && a.steps[|a.steps| - 1].ok && good(a.steps[|a.steps| - 1].call))
  {
    var a := TryCatch(body, handler, faults, n);
    TryCatchCompleted(body, handler, faults, n);
    match a.settled
    case TryCompleted =>
      assert Calls(a.steps)[|body| - 1] == body[|body| - 1];
    case CatchThrew =>
      TryCatchThrew(body, handler, faults, n);
    case CatchCompleted =>
      TryCatchSplit(body, handler, faults, n);
      HandlerOfFailure(body, handler, faults, n, good);
      TryCatchHandled(body, handler, faults, n);
  }

  lemma HandlerOfFailure<C>(body: seq<C>, handler: C -> seq<C>, faults: set<nat>, n: nat, good: C -> bool)
    requires !Completes(body, faults, n)
    requires forall c :: handler(c) != [] && !good(handler(c)[|handler(c)| - 1])
    ensures var cs := Handled(body, handler, faults, n); cs != [] && !good(cs[|cs| - 1])
  {
    var c := FailedCall(body, faults, n);
    assert handler(c) != [] && !good(handler(c)[|handler(c)| - 1]);
  }

  lemma EndsFailed<C>(tried: seq<Step<C>>, cs: seq<C>, faults: set<nat>, m: nat)
    requires !Completes(cs, faults, m)
    ensures tried + Run(cs, faults, m) != []
    ensures !(tried + Run(cs, faults, m))[|tried + Run(cs, faults, m)| - 1].ok
  {
    CompletesIff(cs, faults, m);
    RunFailed(cs, faults, m);
    LastOfAppend(tried, Run(cs, faults, m));
  }

  lemma EndsCompleted<C>(tried: seq<Step<C>>, cs: seq<C>, faults: set<nat>, m: nat)
    requires Completes(cs, faults, m)
    requires cs != []
    ensures (tried + Run(cs, faults, m))[|tried + Run(cs, faults, m)| - 1] == Step(cs[|cs| - 1], true)
  {
    CompletesIff(cs, faults, m);
    RunCompletes(cs, faults, m);
    RunAt(cs, faults, m, |cs| - 1);
    LastOfAppend(tried, Run(cs, faults, m));
  }

  lemma LastOfAppend<T>(a: seq<T>, b: seq<T>)
    requires b != []
    ensures (a + b)[|a + b| - 1] == b[|b| - 1]
  {
  }

  /**
   * Awaiting the planned call `plan[k]` once the `k` calls before it have
   * succeeded: on success the run has reached `k + 1` calls; on a failure
   * the whole plan's run ends with that call, which is the failed one.
   */
  lemma RunNext<C>(plan: seq<C>, k: nat, faults: set<nat>, n: nat)
    requires k < |plan| && Completes(plan[..k], faults, n)
    ensures |Run(plan[..k], faults, n)| == k
    ensures Succeeds(faults, n + k) ==>
      Run(plan[..k + 1], faults, n) == Run(plan[..k], faults, n) + [Step(plan[k], true)] && Completes(plan[..k + 1], faults, n)
    ensures !Succeeds(faults, n + k) ==>
      Run(plan, faults, n) == Run(plan[..k], faults, n) + [Step(plan[k], false)] && !Completes(plan, faults, n)
        && FailedCall(plan, faults, n) == plan[k]
  {
    var a := plan[..k];
    CompletesIff(a, faults, n);
    RunCompletes(a, faults, n);
    assert plan[..k + 1] == a + [plan[k]];
    RunAppend(a, [plan[k]], faults, n);
    CompletesAppend(a, [plan[k]], faults, n);
    if !Succeeds(faults, n + k) {
      assert plan == plan[..k + 1] + plan[k + 1..];
      RunAppend(plan[..k + 1], plan[k + 1..], faults, n);
      CompletesAppend(plan[..k + 1], plan[k + 1..], faults, n);
    }
  }

  /** Two lists of calls complete one after the other exactly when each completes in its turn. */
  lemma {:induction false} CompletesAppend<C>(a: seq<C>, b: seq<C>, faults: set<nat>, n: nat)
    ensures Completes(a + b, faults, n) <==> Completes(a, faults, n) && Completes(b, faults, n + |a|)
    decreases |a|
  {
    if a == [] {
      assert a + b == b;
    } else {
      assert (a + b)[1..] == a[1..] + b;
      CompletesAppend(a[1..], b, faults, n + 1);
    }
  }

  // ---------------------------------------------------------------------
  // Logs made by awaiting calls one after another

  /**
   * The log `steps` is `before` followed by a run of `calls`; `failed` is
   * the call that threw, or None when every call succeeded.
   */
  predicate Ran<C(==)>(steps: seq<Step<C>>, before: seq<Step<C>>, calls: seq<C>, faults: set<nat>, failed: Option<C>) {
    && steps == before + Run(calls, faults, |before|)
    && (failed.None? <==> Completes(calls, faults, |before|))
    && (failed.Some? ==> failed.value == FailedCall(calls, faults, |before|))
  }

  /** The log `steps` is `before` followed by the first `k` calls of `plan`, all of which succeeded. */
  predicate Reached<C(==)>(steps: seq<Step<C>>, before: seq<Step<C>>, plan: seq<C>, k: nat, faults: set<nat>) {
    k <= |plan| && steps == before + Run(plan[..k], faults, |before|) && Completes(plan[..k], faults, |before|)
  }

  /** Nothing of a plan has been attempted yet. */
  lemma ReachedStart<C>(before: seq<Step<C>>, plan: seq<C>, faults: set<nat>)
    ensures Reached(before, before, plan, 0, faults)
  {
    assert plan[..0] == [];
  }

  /**
   * Awaiting the next planned call appends its step: on success one more
   * call of the plan has been reached, on a failure the plan's run is over
   * and that call is the one that threw.
   */
  lemma ReachedNext<C>(steps: seq<Step<C>>, before: seq<Step<C>>, plan: seq<C>, k: nat, faults: set<nat>)
    requires Reached(steps, before, plan, k, faults) && k < |plan|
    ensures var ok := Succeeds(faults, |steps|);
      && (ok ==> Reached(steps + [Step(plan[k], ok)], before, plan, k + 1, faults))
      && (!ok ==> Ran(steps + [Step(plan[k], ok)], before, plan, faults, Some(plan[k])))
  {
    RunNext(plan, k, faults, |before|);
    AppendAssoc(before, Run(plan[..k], faults, |before|), [Step(plan[k], Succeeds(faults, |steps|))]);
  }

  /** Once every planned call succeeded, the plan ran to completion. */
  lemma ReachedAll<C>(steps: seq<Step<C>>, before: seq<Step<C>>, plan: seq<C>, faults: set<nat>)
    requires Reached(steps, before, plan, |plan|, faults)
    ensures Ran(steps, before, plan, faults, None)
  {
    assert plan[..|plan|] == plan;
  }

  /** Two runs one after the other, the first complete, make a run of both lists of calls. */
  lemma RanThen<C>(s0: seq<Step<C>>, s1: seq<Step<C>>, s2: seq<Step<C>>, a: seq<C>, b: seq<C>, faults: set<nat>, failed: Option<C>)
    requires Ran(s1, s0, a, faults, None) && Ran(s2, s1, b, faults, failed)
    ensures Ran(s2, s0, a + b, faults, failed)
  {
    var n := |s0|;
    CompletesIff(a, faults, n);
    RunCompletes(a, faults, n);
    RunAppend(a, b, faults, n);
    CompletesAppend(a, b, faults, n);
    AppendAssoc(s0, Run(a, faults, n), Run(b, faults, n + |a|));
    if failed.Some? {
      FailedCallThen(a, b, faults, n);
    }
  }

  lemma FailedCallThen<C>(a: seq<C>, b: seq<C>, faults: set<nat>, n: nat)
    requires Completes(a, faults, n) && !Completes(b, faults, n + |a|)
    requires Run(a + b, faults, n) == Run(a, faults, n) + Run(b, faults, n + |a|)
    ensures !Completes(a + b, faults, n)
    ensures FailedCall(a + b, faults, n) == FailedCall(b, faults, n + |a|)
  {
    CompletesAppend(a, b, faults, n);
    CompletesIff(b, faults, n + |a|);
    RunFailed(b, faults, n + |a|);
    LastOfAppend(Run(a, faults, n), Run(b, faults, n + |a|));
  }

  /** A run that threw is also the run of any longer plan that starts with it. */
  lemma RanStuck<C>(s1: seq<Step<C>>, s0: seq<Step<C>>, a: seq<C>, b: seq<C>, faults: set<nat>, c: C)
    requires Ran(s1, s0, a, faults, Some(c))
    ensures Ran(s1, s0, a + b, faults, Some(c))
  {
    RunAppend(a, b, faults, |s0|);
    CompletesAppend(a, b, faults, |s0|);
  }

  /** The loop over `xs + [x]` makes the calls for `xs`, then those for `x`. */
  lemma FlattenSnoc<T, C>(body: T -> seq<C>, xs: seq<T>, x: T)
    ensures Flatten(body, xs + [x]) == Flatten(body, xs) + body(x)
  {
    FlattenAppend(body, xs, [x]);
    assert [x][1..] == [];
    assert body(x) + [] == body(x);
  }

  /**
   * A `try`/`catch` statement whose try block threw at `failed` and whose
   * catch block then ran: its steps are the two runs, and it settled as the
   * catch block did.
   */
  lemma TryCatchOfRuns<C>(body: seq<C>, handler: C -> seq<C>, faults: set<nat>,
                              s0: seq<Step<C>>, s1: seq<Step<C>>, s2: seq<Step<C>>, failed: C, rethrown: Option<C>)
    requires Ran(s1, s0, body, faults, Some(failed)) && Ran(s2, s1, handler(failed), faults, rethrown)
    ensures s2 == s0 + TryCatch(body, handler, faults, |s0|).steps
    ensures TryCatch(body, handler, faults, |s0|).settled == if rethrown.None? then CatchCompleted else CatchThrew
  {
    AppendAssoc(s0, Run(body, faults, |s0|), Run(handler(failed), faults, |s1|));
  }

  /** A `try`/`catch` statement whose try block ran to completion. */
  lemma TryCatchOfRun<C>(body: seq<C>, handler: C -> seq<C>, faults: set<nat>, s0: seq<Step<C>>, s1: seq<Step<C>>)
    requires Ran(s1, s0, body, faults, None)
    ensures s1 == s0 + TryCatch(body, handler, faults, |s0|).steps
    ensures TryCatch(body, handler, faults, |s0|).settled == TryCompleted
  {
  }

  /** Before the first pass of a loop over `xs` nothing has been run. */
  lemma RanFlattenStart<T, C>(body: T -> seq<C>, xs: seq<T>, s0: seq<Step<C>>, faults: set<nat>)
    ensures Ran(s0, s0, Flatten(body, xs[..0]), faults, None)
  {
    assert xs[..0] == [];
  }

  /** One more pass of a loop over `xs`: the loop's run now covers its first `i + 1` elements. */
  lemma RanFlattenNext<T, C>(body: T -> seq<C>, xs: seq<T>, i: nat,
                             s0: seq<Step<C>>, s1: seq<Step<C>>, s2: seq<Step<C>>, faults: set<nat>, failed: Option<C>)
    requires i < |xs|
    requires Ran(s1, s0, Flatten(body, xs[..i]), faults, None) && Ran(s2, s1, body(xs[i]), faults, failed)
    ensures Ran(s2, s0, Flatten(body, xs[..i + 1]), faults, failed)
  {
    assert xs[..i + 1] == xs[..i] + [xs[i]];
    FlattenSnoc(body, xs[..i], xs[i]);
    RanThen(s0, s1, s2, Flatten(body, xs[..i]), body(xs[i]), faults, failed);
  }

  /** A throw in pass `i` of a loop over `xs` also ends whatever follows the loop. */
  lemma RanFlattenStuck<T, C>(body: T -> seq<C>, xs: seq<T>, i: nat, rest: seq<C>,
                              s0: seq<Step<C>>, s1: seq<Step<C>>, faults: set<nat>, c: C)
    requires i < |xs|
    requires Ran(s1, s0, Flatten(body, xs[..i + 1]), faults, Some(c))
    ensures Ran(s1, s0, Flatten(body, xs) + rest, faults, Some(c))
  {
    var done := Flatten(body, xs[..i + 1]);
    assert xs == xs[..i + 1] + xs[i + 1..];
    FlattenAppend(body, xs[..i + 1], xs[i + 1..]);
    AppendAssoc(done, Flatten(body, xs[i + 1..]), rest);
    RanStuck(s1, s0, done, Flatten(body, xs[i + 1..]) + rest, faults, c);
  }

  /** After the last pass of a loop over `xs`, the calls after the loop run next. */
  lemma RanFlattenThen<T, C>(body: T -> seq<C>, xs: seq<T>, rest: seq<C>,
                             s0: seq<Step<C>>, s1: seq<Step<C>>, s2: seq<Step<C>>, faults: set<nat>, failed: Option<C>)
    requires Ran(s1, s0, Flatten(body, xs[..|xs|]), faults, None) && Ran(s2, s1, rest, faults, failed)
    ensures Ran(s2, s0, Flatten(body, xs) + rest, faults, failed)
  {
    assert xs[..|xs|] == xs;
    RanThen(s0, s1, s2, Flatten(body, xs), rest, faults, failed);
  }

  /**
   * A run that did not complete made the planned calls up to the failed
   * one: each call before it succeeded and it failed.
   */
  lemma FailedRun<C>(calls: seq<C>, faults: set<nat>, n: nat)
    requires !Completes(calls, faults, n)
    ensures var r := Run(calls, faults, n);
      && 0 < |r| <= |calls| && Calls(r) == calls[..|r|]
      && (forall i :: 0 <= i < |r| - 1 ==> r[i].ok)
      && r[|r| - 1] == Step(FailedCall(calls, faults, n), false)
  {
    CompletesIff(calls, faults, n);
    RunFailed(calls, faults, n);
    RunCalls(calls, faults, n);
  }

  // ---------------------------------------------------------------------
  // Which kinds of call a run makes

  /** Every planned call is of the kind `good`. */
  predicate AllOf<C>(cs: seq<C>, good: C -> bool) {
    forall i :: 0 <= i < |cs| ==> good(cs[i])
  }

  /** Every call the steps made is of the kind `good`. */
  predicate StepsAllOf<C>(steps: seq<Step<C>>, good: C -> bool) {
    forall i :: 0 <= i < |steps| ==> good(steps[i].call)
  }

  /** Some call the steps made is of the kind `kind`. */
  predicate StepsAnyOf<C>(steps: seq<Step<C>>, kind: C -> bool) {
    exists i :: 0 <= i < |steps| && kind(steps[i].call)
  }

  /** A run makes only planned calls. */
  lemma RunAllOf<C>(calls: seq<C>, faults: set<nat>, n: nat, good: C -> bool)
    requires AllOf(calls, good)
    ensures StepsAllOf(Run(calls, faults, n), good)
  {
    var r := Run(calls, faults, n);
    forall i | 0 <= i < |r| ensures good(r[i].call) {
      RunAt(calls, faults, n, i);
    }
  }

  /** A loop whose body plans only calls of one kind plans only calls of that kind. */
  lemma {:induction false} FlattenAllOf<T, C>(body: T -> seq<C>, xs: seq<T>, good: C -> bool)
    requires forall x, i :: 0 <= i < |body(x)| ==> good(body(x)[i])
    ensures AllOf(Flatten(body, xs), good)
    decreases |xs|
  {
    if xs != [] {
      FlattenAllOf(body, xs[1..], good);
      AllOfAppend(body(xs[0]), Flatten(body, xs[1..]), good);
    }
  }

  lemma AllOfAppend<C>(a: seq<C>, b: seq<C>, good: C -> bool)
    requires AllOf(a, good) && AllOf(b, good)
    ensures AllOf(a + b, good)
  {
    forall i | 0 <= i < |a + b| ensures good((a + b)[i]) {
      if i >= |a| {
        assert (a + b)[i] == b[i - |a|];
      }
    }
  }

  /**
   * A try/catch statement whose try block and handler plan only calls of
   * one kind makes only calls of that kind.
   */
  lemma TryCatchAllOf<C>(body: seq<C>, handler: C -> seq<C>, faults: set<nat>, n: nat, good: C -> bool)
    requires AllOf(body, good)
    requires forall c, i :: 0 <= i < |handler(c)| ==> good(handler(c)[i])
    ensures StepsAllOf(TryCatch(body, handler, faults, n).steps, good)
  {
    var tried := Run(body, faults, n);
    RunAllOf(body, faults, n, good);
    if !Completes(body, faults, n) {
      var handled := Handled(body, handler, faults, n);
      var m := n + |tried|;
      assert AllOf(handled, good);
      RunAllOf(handled, faults, m, good);
      StepsAllOfAppend(tried, Run(handled, faults, m), good);
    }
  }

  lemma StepsAllOfAppend<C>(a: seq<Step<C>>, b: seq<Step<C>>, good: C -> bool)
    requires StepsAllOf(a, good) && StepsAllOf(b, good)
    ensures StepsAllOf(a + b, good)
  {
    forall i | 0 <= i < |a + b| ensures good((a + b)[i].call) {
      if i >= |a| {
        assert (a + b)[i] == b[i - |a|];
      }
    }
  }

  /** Steps whose calls are all of one kind contain none of a kind that excludes it. */
  lemma StepsNoneOf<C>(steps: seq<Step<C>>, good: C -> bool, kind: C -> bool)
    requires StepsAllOf(steps, good)
    requires forall c :: good(c) ==> !kind(c)
    ensures !StepsAnyOf(steps, kind)
  {
  }

  /** A call of a kind occurs in `a + b` exactly when it occurs in `a` or in `b`. */
  lemma StepsAnyOfAppend<C>(a: seq<Step<C>>, b: seq<Step<C>>, kind: C -> bool)
    ensures StepsAnyOf(a + b, kind) <==> StepsAnyOf(a, kind) || StepsAnyOf(b, kind)
  {
    if StepsAnyOf(a, kind) {
      var i :| 0 <= i < |a| && kind(a[i].call);
      assert (a + b)[i] == a[i];
    }
    if StepsAnyOf(b, kind) {
      var i :| 0 <= i < |b| && kind(b[i].call);
      assert (a + b)[|a| + i] == b[i];
    }
    if StepsAnyOf(a + b, kind) {
      var i :| 0 <= i < |a + b| && kind((a + b)[i].call);
      if i >= |a| {
        assert (a + b)[i] == b[i - |a|];
        assert kind(b[i - |a|].call);
      } else {
        assert (a + b)[i] == a[i];
        assert kind(a[i].call);
      }
    }
  }

  /** In `pre + s`, where `pre` makes no call of a kind, every call of that kind is one of `s`. */
  lemma OnlyAfter<C>(pre: seq<Step<C>>, s: seq<Step<C>>, kind: C -> bool)
    requires !StepsAnyOf(pre, kind)
    ensures forall i :: 0 <= i < |pre + s| && kind((pre + s)[i].call) ==> |pre| <= i && (pre + s)[i] == s[i - |pre|]
  {
    forall i | 0 <= i < |pre| ensures !kind((pre + s)[i].call) {
      assert (pre + s)[i] == pre[i];
    }
  }
}
