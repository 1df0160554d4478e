/** `RetryHandler` (prompts_handler.py): a bounded retry loop with
    exponential backoff around any operation.

    The operation is a function from a state to an outcome and a new state;
    the state carries the scripted provider world (and whatever else the
    caller keeps, such as ModelB's current model). `asyncio.sleep` is not
    modelled as time: each wait is recorded, in order, in `waits`. */
module Retry {
  import opened Common
  import opened PyStr
  import Config

  /** One `error_log` entry. No caller passes a `model` keyword, so the
      model recorded is always "unknown". */
  datatype LogEntry = LogEntry(attempt: int, error: string, model: string)

  /** The handler's state: its parameters and its error log, which is kept
      for the handler's lifetime and never cleared. */
  datatype Handler = Handler(maxRetries: int, delay: int, errorLog: seq<LogEntry>)

  datatype Step<S> = Step(outcome: Outcome, state: S)

  /** The result of `execute_with_retry`: the outcome (the first success,
      or the exhaustion error), the state after the attempts made, the
      handler with its grown log, and the waits between attempts. */
  datatype Run<S> = Run(outcome: Outcome, state: S, handler: Handler, waits: seq<int>)

  const UnknownModel: string := "unknown"

  /** `RetryHandler(max_retries, delay)`: an absent or zero argument falls
      back to the configured value. */
  function NewHandler(cfg: Config.Config, maxRetries: Option<int>, delay: Option<int>): (h: Handler)
    ensures h.errorLog == []
    ensures h.maxRetries == (if maxRetries.Some? && maxRetries.value != 0 then maxRetries.value else cfg.maxRetries)
    ensures h.delay == (if delay.Some? && delay.value != 0 then delay.value else cfg.retryDelaySeconds)
    ensures maxRetries.Some? && maxRetries.value != 0 ==> h.maxRetries == maxRetries.value
  {
    var m := match maxRetries case Some(v) => if v != 0 then v else cfg.maxRetries case None => cfg.maxRetries;
    var d := match delay case Some(v) => if v != 0 then v else cfg.retryDelaySeconds case None => cfg.retryDelaySeconds;
    Handler(m, d, [])
  }

  function Pow2(n: nat): (r: nat)
    ensures r >= 1
  {
    if n == 0 then 1 else 2 * Pow2(n - 1)
  }

  /** The wait after failed attempt `attempt` (counted from 1). */
  function Backoff(delay: int, attempt: nat): int
    requires attempt >= 1
  {
    delay * Pow2(attempt - 1)
  }

  /** The exception text after the last attempt; `str(None)` when no
      attempt was made at all. */
  function ExhaustedMessage(maxRetries: int, last: Option<string>): string {
    "Fallos después de " + IntToString(maxRetries) + " intentos: " + last.GetOr("None")
  }

  /** How many attempts remain from attempt `attempt` on. */
  function Remaining(maxRetries: int, attempt: nat): nat {
    if attempt <= maxRetries then maxRetries - attempt + 1 else 0
  }

  /** The `for attempt in range(attempt, max_retries + 1)` loop. */
  function Loop<S>(h: Handler, op: S -> Step<S>, s: S, attempt: nat, last: Option<string>, waits: seq<int>): (r: Run<S>)
    requires attempt >= 1
    ensures r.handler.maxRetries == h.maxRetries && r.handler.delay == h.delay
    ensures |h.errorLog| <= |r.handler.errorLog| && r.handler.errorLog[..|h.errorLog|] == h.errorLog
    ensures |r.handler.errorLog| - |h.errorLog| <= Remaining(h.maxRetries, attempt)
    ensures r.outcome.Err? ==> |r.handler.errorLog| - |h.errorLog| == Remaining(h.maxRetries, attempt)
    ensures |waits| <= |r.waits| && r.waits[..|waits|] == waits
    decreases Remaining(h.maxRetries, attempt)
  {
    if attempt > h.maxRetries then
      Run(Err(ExhaustedMessage(h.maxRetries, last)), s, h, waits)
    else
      var step := op(s);
      match step.outcome
      case Ok(_) => Run(step.outcome, step.state, h, waits)
      case Err(e) =>
        var h' := h.(errorLog := h.errorLog + [LogEntry(attempt, e, UnknownModel)]);
        var waits' := if attempt < h.maxRetries then waits + [Backoff(h.delay, attempt)] else waits;
        var r := Loop(h', op, step.state, attempt + 1, Some(e), waits');
        assert r.handler.errorLog[..|h.errorLog|] == r.handler.errorLog[..|h'.errorLog|][..|h.errorLog|];
        assert r.waits[..|waits|] == r.waits[..|waits'|][..|waits|];
        r
  }

  /** `execute_with_retry(func)` */
  function Execute<S>(h: Handler, op: S -> Step<S>, s: S): Run<S> {
    Loop(h, op, s, 1, None, [])
  }

  // ------------------------------------------------------------ reference

  /** The outcomes of running `op` `n` times in a row from `s`. */
  function Outcomes<S>(op: S -> Step<S>, s: S, n: nat): (outs: seq<Outcome>)
    ensures |outs| == n
  {
    if n == 0 then [] else [op(s).outcome] + Outcomes(op, op(s).state, n - 1)
  }

  /** The state after running `op` `n` times in a row from `s`. */
  function StateAfter<S>(op: S -> Step<S>, s: S, n: nat): S {
    if n == 0 then s else StateAfter(op, op(s).state, n - 1)
  }

  /** Attempt `k` (from 0) is the first that succeeds. */
  predicate FirstOk(outs: seq<Outcome>, k: nat) {
    k < |outs| && outs[k].Ok? && forall i :: 0 <= i < k ==> outs[i].Err?
  }

  predicate AllErr(outs: seq<Outcome>) {
    forall i :: 0 <= i < |outs| ==> outs[i].Err?
  }

  /** The first success at or after `from`, given one at `i`. */
  function FirstOkFrom(outs: seq<Outcome>, from: nat, i: nat): (k: nat)
    requires from <= i < |outs| && outs[i].Ok?
    requires forall l :: 0 <= l < from ==> outs[l].Err?
    ensures FirstOk(outs, k) && k <= i
    decreases i - from
  {
    if outs[from].Ok? then from else FirstOkFrom(outs, from + 1, i)
  }

  /** Every run of attempts either has a first success or fails throughout. */
  lemma OkOrAllErr(outs: seq<Outcome>)
    ensures AllErr(outs) || exists k: nat :: FirstOk(outs, k)
  {
    if !AllErr(outs) {
      var i :| 0 <= i < |outs| && outs[i].Ok?;
      var k := FirstOkFrom(outs, 0, i);
    }
  }

  /** The log entries for a run of failures, numbered from `first`. */
  function FailureLog(outs: seq<Outcome>, first: int): (log: seq<LogEntry>)
    ensures |log| == |outs|
    ensures forall i {:trigger log[i]} :: 0 <= i < |outs| ==> log[i] == LogEntry(first + i, ErrorText(outs[i]), UnknownModel)
  {
    if |outs| == 0 then [] else [LogEntry(first, ErrorText(outs[0]), UnknownModel)] + FailureLog(outs[1..], first + 1)
  }

  /** The waits after attempts `first`, `first + 1`, ... (`count` of them). */
  function Schedule(delay: int, first: nat, count: nat): (ws: seq<int>)
    requires first >= 1
    ensures |ws| == count
    decreases count
  {
    if count == 0 then [] else [Backoff(delay, first)] + Schedule(delay, first + 1, count - 1)
  }

  function Sum(xs: seq<int>): int {
    if |xs| == 0 then 0 else xs[0] + Sum(xs[1..])
  }

  /** Running `op` n > 0 times is one run followed by n - 1 more. */
  lemma RunsUnfold<S>(op: S -> Step<S>, s: S, n: nat)
    requires n > 0
    ensures Outcomes(op, s, n) == [op(s).outcome] + Outcomes(op, op(s).state, n - 1)
    ensures StateAfter(op, s, n) == StateAfter(op, op(s).state, n - 1)
  {
  }

  /** A failed attempt that is not past the limit is logged, followed by
      a wait unless it was the last, and the loop goes on. */
  lemma LoopFails<S>(h: Handler, op: S -> Step<S>, s: S, a: nat, last: Option<string>, waits: seq<int>)
    requires 1 <= a <= h.maxRetries && op(s).outcome.Err?
    ensures var e := op(s).outcome.msg;
      Loop(h, op, s, a, last, waits)
        == Loop(h.(errorLog := h.errorLog + [LogEntry(a, e, UnknownModel)]), op, op(s).state, a + 1, Some(e),
                if a < h.maxRetries then waits + [Backoff(h.delay, a)] else waits)
  {
  }

  lemma LogCons(h: Handler, o: Outcome, outs: seq<Outcome>, a: int)
    ensures h.errorLog + FailureLog([o] + outs, a)
         == (h.errorLog + [LogEntry(a, ErrorText(o), UnknownModel)]) + FailureLog(outs, a + 1)
  {
    assert ([o] + outs)[1..] == outs;
  }

  lemma WaitsCons(waits: seq<int>, d: int, a: nat, c: nat)
    requires a >= 1 && c >= 1
    ensures waits + Schedule(d, a, c) == (waits + [Backoff(d, a)]) + Schedule(d, a + 1, c - 1)
  {
  }

  /** The loop, started at attempt `a`, against running the operation
      repeatedly, when attempt `a + k` is the first to succeed: it stops
      there and returns that outcome, having logged every earlier failure
      and waited after each of them. */
  lemma {:induction false} LoopFirstOk<S>(h: Handler, op: S -> Step<S>, s: S, a: nat, last: Option<string>, waits: seq<int>, k: nat)
    requires a >= 1
    requires FirstOk(Outcomes(op, s, Remaining(h.maxRetries, a)), k)
    ensures var outs := Outcomes(op, s, Remaining(h.maxRetries, a));
      Loop(h, op, s, a, last, waits)
        == Run(outs[k], StateAfter(op, s, k + 1),
               h.(errorLog := h.errorLog + FailureLog(outs[..k], a)),
               waits + Schedule(h.delay, a, k))
    decreases k
  {
    var n := Remaining(h.maxRetries, a);
    var outs := Outcomes(op, s, n);
    if k == 0 {
      RunsUnfold(op, s, n);
      RunsUnfold(op, s, 1);
      assert outs[..0] == [];
      assert h.(errorLog := h.errorLog + []) == h;
      assert waits + [] == waits;
    } else {
      FirstOkStep(h, op, s, a, k);
      var e := op(s).outcome.msg;
      var h' := h.(errorLog := h.errorLog + [LogEntry(a, e, UnknownModel)]);
      var waits' := waits + [Backoff(h.delay, a)];
      var outs' := Outcomes(op, op(s).state, Remaining(h.maxRetries, a + 1));
      var rest := Loop(h', op, op(s).state, a + 1, Some(e), waits');
      assert Loop(h, op, s, a, last, waits) == rest by {
        LoopFails(h, op, s, a, last, waits);
      }
      assert rest == Run(outs'[k - 1], StateAfter(op, op(s).state, k),
                         h'.(errorLog := h'.errorLog + FailureLog(outs'[..k - 1], a + 1)),
                         waits' + Schedule(h.delay, a + 1, k - 1)) by {
        LoopFirstOk(h', op, op(s).state, a + 1, Some(e), waits', k - 1);
      }
    }
  }

  /** A failed attempt before the first success: the rest of the attempts
      has its first success one place earlier. */
  lemma FirstOkStep<S>(h: Handler, op: S -> Step<S>, s: S, a: nat, k: nat)
    requires a >= 1 && k > 0
    requires FirstOk(Outcomes(op, s, Remaining(h.maxRetries, a)), k)
    ensures 1 <= a < h.maxRetries && op(s).outcome.Err?
    ensures FirstOk(Outcomes(op, op(s).state, Remaining(h.maxRetries, a + 1)), k - 1)
    ensures op(s).outcome.Err? ==>
      var outs := Outcomes(op, s, Remaining(h.maxRetries, a));
      var outs' := Outcomes(op, op(s).state, Remaining(h.maxRetries, a + 1));
      var h' := h.(errorLog := h.errorLog + [LogEntry(a, op(s).outcome.msg, UnknownModel)]);
      && k - 1 < |outs'| && outs'[k - 1] == outs[k]
      && StateAfter(op, op(s).state, k) == StateAfter(op, s, k + 1)
      && h'.(errorLog := h'.errorLog + FailureLog(outs'[..k - 1], a + 1)) == h.(errorLog := h.errorLog + FailureLog(outs[..k], a))
      && forall waits: seq<int> ::
           (waits + [Backoff(h.delay, a)]) + Schedule(h.delay, a + 1, k - 1) == waits + Schedule(h.delay, a, k)
  {
    var n := Remaining(h.maxRetries, a);
    var outs := Outcomes(op, s, n);
    var outs' := Outcomes(op, op(s).state, n - 1);
    RunsUnfold(op, s, n);
    RunsUnfold(op, s, k + 1);
    assert outs[0].Err?;
    forall i | 0 <= i < k - 1 ensures outs'[i].Err? { assert outs'[i] == outs[i + 1]; }
    assert outs[..k] == [op(s).outcome] + outs'[..k - 1];
    LogCons(h, op(s).outcome, outs'[..k - 1], a);
    forall waits: seq<int>
      ensures (waits + [Backoff(h.delay, a)]) + Schedule(h.delay, a + 1, k - 1) == waits + Schedule(h.delay, a, k)
    {
      WaitsCons(waits, h.delay, a, k);
    }
  }

  /** The run the loop ends with when, started at attempt `a`, its
      attempts failed with `outs` and left `final`: the exhaustion error
      quoting the last failure (or `last` when there was none), one log
      entry per failure and a wait after each attempt but the final one. */
  function ExhaustedFrom<S>(h: Handler, outs: seq<Outcome>, final: S, a: nat, last: Option<string>, waits: seq<int>): Run<S>
    requires a >= 1
  {
    Run(Err(ExhaustedMessage(h.maxRetries, if outs == [] then last else Some(ErrorText(outs[|outs| - 1])))),
        final,
        h.(errorLog := h.errorLog + FailureLog(outs, a)),
        waits + Schedule(h.delay, a, Gaps(|outs|)))
  }

  /** The loop, started at attempt `a`, when every remaining attempt
      fails: it reports the last error (or `last` when no attempt remains),
      having logged every failure and waited after every attempt but the
      final one. */
  lemma {:induction false} LoopAllErr<S>(h: Handler, op: S -> Step<S>, s: S, a: nat, last: Option<string>, waits: seq<int>)
    requires a >= 1
    requires AllErr(Outcomes(op, s, Remaining(h.maxRetries, a)))
    ensures var n := Remaining(h.maxRetries, a);
      Loop(h, op, s, a, last, waits) == ExhaustedFrom(h, Outcomes(op, s, n), StateAfter(op, s, n), a, last, waits)
    decreases Remaining(h.maxRetries, a)
  {
    var n := Remaining(h.maxRetries, a);
    if n == 0 {
      assert h.(errorLog := h.errorLog + []) == h;
      assert waits + [] == waits;
    } else {
      AllErrStep(h, op, s, a, last, waits);
      var e := op(s).outcome.msg;
      var h' := h.(errorLog := h.errorLog + [LogEntry(a, e, UnknownModel)]);
      var waits' := if a < h.maxRetries then waits + [Backoff(h.delay, a)] else waits;
      var m := Remaining(h.maxRetries, a + 1);
      calc {
        Loop(h, op, s, a, last, waits);
      == { LoopFails(h, op, s, a, last, waits); }
        Loop(h', op, op(s).state, a + 1, Some(e), waits');
      == { LoopAllErr(h', op, op(s).state, a + 1, Some(e), waits'); }
        ExhaustedFrom(h', Outcomes(op, op(s).state, m), StateAfter(op, op(s).state, m), a + 1, Some(e), waits');
      }
    }
  }

  /** One failed attempt followed by the exhausted rest of the loop is the
      exhausted loop from the attempt before. */
  lemma AllErrStep<S>(h: Handler, op: S -> Step<S>, s: S, a: nat, last: Option<string>, waits: seq<int>)
    requires 1 <= a <= h.maxRetries && AllErr(Outcomes(op, s, Remaining(h.maxRetries, a)))
    ensures op(s).outcome.Err? && AllErr(Outcomes(op, op(s).state, Remaining(h.maxRetries, a + 1)))
    ensures op(s).outcome.Err? ==> var n := Remaining(h.maxRetries, a);
      var e := op(s).outcome.msg;
      var m := Remaining(h.maxRetries, a + 1);
      ExhaustedFrom(h.(errorLog := h.errorLog + [LogEntry(a, e, UnknownModel)]),
                    Outcomes(op, op(s).state, m), StateAfter(op, op(s).state, m), a + 1, Some(e),
                    if a < h.maxRetries then waits + [Backoff(h.delay, a)] else waits)
        == ExhaustedFrom(h, Outcomes(op, s, n), StateAfter(op, s, n), a, last, waits)
  {
    var n := Remaining(h.maxRetries, a);
    var m := Remaining(h.maxRetries, a + 1);
    var outs := Outcomes(op, s, n);
    var outs' := Outcomes(op, op(s).state, m);
    RunsUnfold(op, s, n);
    AllErrTail(outs, op(s).outcome, outs');
    LogCons(h, op(s).outcome, outs', a);
    if m == 0 {
      assert waits + [] == waits;
    } else {
      WaitsCons(waits, h.delay, a, n - 1);
    }
  }

  /** A run of failures, split after its first: the first failed, the
      rest all fail, and the last of the rest is the last of the whole. */
  lemma AllErrTail(outs: seq<Outcome>, o: Outcome, rest: seq<Outcome>)
    requires outs == [o] + rest && AllErr(outs)
    ensures o.Err? && AllErr(rest)
    ensures |rest| > 0 ==> outs[|outs| - 1] == rest[|rest| - 1]
  {
    assert outs[0] == o;
    forall i | 0 <= i < |rest| ensures rest[i].Err? { assert rest[i] == outs[i + 1]; }
  }

  /** `execute_with_retry` when attempt k+1 is the first of the
      max(max_retries, 0) allowed attempts to succeed: its value is returned
      after exactly k+1 attempts, the log gains one entry per failure,
      numbered 1..k, and the waits are delay*2^0 .. delay*2^(k-1). */
  lemma ExecuteFirstOk<S>(h: Handler, op: S -> Step<S>, s: S, k: nat)
    requires FirstOk(Outcomes(op, s, Remaining(h.maxRetries, 1)), k)
    ensures var outs := Outcomes(op, s, Remaining(h.maxRetries, 1));
      var r := Execute(h, op, s);
      && r.outcome == outs[k]
      && r.state == StateAfter(op, s, k + 1)
      && r.handler == h.(errorLog := h.errorLog + FailureLog(outs[..k], 1))
      && r.waits == Schedule(h.delay, 1, k)
  {
    LoopFirstOk(h, op, s, 1, None, [], k);
    assert [] + Schedule(h.delay, 1, k) == Schedule(h.delay, 1, k);
  }

  /** `execute_with_retry` when all m = max(max_retries, 0) attempts fail:
      the error names max_retries and the last error, the log gains m
      entries, and there is no wait after the last attempt, so the waits
      add up to delay*(2^(m-1) - 1). */
  lemma ExecuteExhausted<S>(h: Handler, op: S -> Step<S>, s: S)
    requires AllErr(Outcomes(op, s, Remaining(h.maxRetries, 1)))
    ensures var m := Remaining(h.maxRetries, 1);
      var outs := Outcomes(op, s, m);
      var r := Execute(h, op, s);
      && r.outcome == Err(ExhaustedMessage(h.maxRetries, if m == 0 then None else Some(ErrorText(outs[m - 1]))))
      && r.state == StateAfter(op, s, m)
      && r.handler == h.(errorLog := h.errorLog + FailureLog(outs, 1))
      && r.waits == Schedule(h.delay, 1, if m == 0 then 0 else m - 1)
      && Sum(r.waits) == h.delay * (Pow2(if m == 0 then 0 else m - 1) - 1)
  {
    var m := Remaining(h.maxRetries, 1);
    var c := if m == 0 then 0 else m - 1;
    var r := Execute(h, op, s);
    assert r == ExhaustedFrom(h, Outcomes(op, s, m), StateAfter(op, s, m), 1, None, []) by {
      LoopAllErr(h, op, s, 1, None, []);
    }
    assert r.waits == Schedule(h.delay, 1, c) by {
      assert [] + Schedule(h.delay, 1, c) == Schedule(h.delay, 1, c);
    }
    ScheduleSum(h.delay, 1, c);
  }

  /** The number of waits between `n` attempts. */
  function Gaps(n: nat): nat {
    if n == 0 then 0 else n - 1
  }

  /** `ExecuteExhausted` for outcomes and a final state already known. */
  lemma ExecuteExhaustedIs<S>(h: Handler, op: S -> Step<S>, s: S, outs: seq<Outcome>, final: S, last: Option<string>)
    requires Outcomes(op, s, Remaining(h.maxRetries, 1)) == outs && AllErr(outs)
    requires StateAfter(op, s, Remaining(h.maxRetries, 1)) == final
    requires last == if outs == [] then None else Some(ErrorText(outs[|outs| - 1]))
    ensures var m := Remaining(h.maxRetries, 1);
      Execute(h, op, s)
        == Run(Err(ExhaustedMessage(h.maxRetries, last)), final,
               h.(errorLog := h.errorLog + FailureLog(outs, 1)),
               Schedule(h.delay, 1, Gaps(m)))
  {
    ExecuteExhausted(h, op, s);
  }

  /** Of `n` runs in a row, the first `k < n` are `k` runs on their own,
      and run `k` starts from the state they leave. */
  lemma {:induction false} OutcomesSplit<S>(op: S -> Step<S>, s: S, k: nat, n: nat)
    requires k < n
    ensures Outcomes(op, s, n)[..k] == Outcomes(op, s, k)
    ensures Outcomes(op, s, n)[k] == op(StateAfter(op, s, k)).outcome
    ensures StateAfter(op, s, k + 1) == op(StateAfter(op, s, k)).state
    decreases k
  {
    RunsUnfold(op, s, n);
    if k > 0 {
      var s1 := op(s).state;
      OutcomesSplit(op, s1, k - 1, n - 1);
      RunsUnfold(op, s, k);
      RunsUnfold(op, s, k + 1);
      assert Outcomes(op, s, n)[..k] == [op(s).outcome] + Outcomes(op, s1, n - 1)[..k - 1];
    }
  }

  /** `ExecuteFirstOk` for failures and a state already known: `k` failed
      attempts leave `mid`, from which attempt `k + 1` succeeds. */
  lemma ExecuteLaterOkIs<S>(h: Handler, op: S -> Step<S>, s: S, k: nat, errs: seq<Outcome>, mid: S)
    requires k < Remaining(h.maxRetries, 1)
    requires Outcomes(op, s, k) == errs && AllErr(errs)
    requires StateAfter(op, s, k) == mid && op(mid).outcome.Ok?
    ensures Execute(h, op, s)
         == Run(op(mid).outcome, op(mid).state, h.(errorLog := h.errorLog + FailureLog(errs, 1)), Schedule(h.delay, 1, k))
  {
    var outs := Outcomes(op, s, Remaining(h.maxRetries, 1));
    OutcomesSplit(op, s, k, Remaining(h.maxRetries, 1));
    assert forall i :: 0 <= i < k ==> outs[i] == errs[i];
    ExecuteFirstOk(h, op, s, k);
  }

  /** The waits after attempts a .. a+c-1 add up to delay*2^(a-1)*(2^c - 1). */
  lemma {:induction false} ScheduleSum(delay: int, a: nat, c: nat)
    requires a >= 1
    ensures Sum(Schedule(delay, a, c)) == delay * Pow2(a - 1) * (Pow2(c) - 1)
    decreases c
  {
    if c > 0 {
      ScheduleSum(delay, a + 1, c - 1);
      var ws := Schedule(delay, a, c);
      assert ws[1..] == Schedule(delay, a + 1, c - 1);
      assert Pow2(a) == 2 * Pow2(a - 1);
      assert Pow2(c) == 2 * Pow2(c - 1);
      var p := Pow2(a - 1);
      var q := Pow2(c - 1);
      assert Sum(ws) == delay * p + delay * Pow2(a) * (Pow2(c - 1) - 1);
      Doubling(delay, p, q);
    }
  }

  lemma Doubling(d: int, p: int, q: int)
    ensures d * p + d * (2 * p) * (q - 1) == d * p * (2 * q - 1)
  {
    var x := d * p;
    assert d * (2 * p) == 2 * x;
    assert 2 * x * (q - 1) == 2 * x * q - 2 * x;
    assert x * (2 * q - 1) == 2 * x * q - x;
  }

  /** Whatever the outcomes, the state `execute_with_retry` leaves behind
      is the state after some number of attempts in a row, at most
      max(max_retries, 0). */
  lemma ExecuteReachedState<S>(h: Handler, op: S -> Step<S>, s: S)
    ensures exists j :: 0 <= j <= Remaining(h.maxRetries, 1) && Execute(h, op, s).state == StateAfter(op, s, j)
  {
    var outs := Outcomes(op, s, Remaining(h.maxRetries, 1));
    OkOrAllErr(outs);
    if k: nat :| FirstOk(outs, k) {
      ExecuteFirstOk(h, op, s, k);
      assert Execute(h, op, s).state == StateAfter(op, s, k + 1);
    } else {
      ExecuteExhausted(h, op, s);
      assert Execute(h, op, s).state == StateAfter(op, s, Remaining(h.maxRetries, 1));
    }
  }
}
