/** `ModelB` (prompts_handler.py): image analysis through OpenRouter under
    the retry handler, with a switch to a backup vision model that is made
    only when the backup answers and is then kept for every later call. */
module Vision {
  import opened Common
  import opened Config
  import opened Providers
  import opened Api
  import opened Retry

  /** The instance: its own retry handler, the model it currently uses,
      and the fixed instruction its analysis sends. */
  datatype ModelB = ModelB(retry: Handler, currentModel: string, prompt: string)

  function NewModelB(cfg: Config): (m: ModelB)
    ensures m.currentModel == cfg.modeloBVision && m.retry.errorLog == []
    ensures m.retry.maxRetries == cfg.maxRetries && m.retry.delay == cfg.retryDelaySeconds
    ensures m.prompt == AnalysisPrompt
  {
    ModelB(NewHandler(cfg, None, None), cfg.modeloBVision, AnalysisPrompt)
  }

  const BackupModel: string := "meta-llama/llama-3-vision-free"

  /** The instruction `analyze_image` sends; the image itself is never sent. */
  const AnalysisPrompt: string := "Analiza esta imagen con enfoque fotográfico profesional:\n\n1. SUJETO Y POSE:\n   - Descripción del sujeto (edad, género, características visibles)\n   - Pose exacta y lenguaje corporal\n   - Expresión facial\n\n2. ATUENDO:\n   - Prendas de vestir (tipo, color, textura, ajuste)\n   - Accesorios\n   - Detalles visibles\n\n3. ENTORNO:\n   - Ubicación (interior/exterior)\n   - Objetos cercanos\n   - Fondo y desenfoque\n\n4. ILUMINACIÓN:\n   - Tipo de luz (natural, artificial, mixta)\n   - Dirección y calidad\n   - Sombras y reflejos\n\n5. COMPOSICIÓN:\n   - Tipo de plano\n   - Ángulo de cámara\n   - Profundidad de campo aparente\n\nProporciona respuesta técnica en UN párrafo compacto."

  /** One OpenRouter request of the analysis, with the vision system prompt. */
  function VisionCall(t: Templates, model: string, prompt: string): Call {
    Call(OpenRouter(model, if SystemGiven(Some(t.systemB)) then Some(t.systemB) else None), prompt)
  }

  /** What an attempt reads and changes: the current model and the world. */
  datatype VisionState = VisionState(model: string, world: World)

  /** `_analyze_with_api`: the current model; on failure the backup model,
      once. The model switches only when the backup answers; when it fails
      too, its error is raised. */
  function AnalyzeOnce(t: Templates, prompt: string, st: VisionState): (r: Step<VisionState>)
    ensures var first := Next(st.world);
      var second := ReplyAt(st.world.script, |st.world.calls| + 1);
      var c1 := VisionCall(t, st.model, prompt);
      && r.state.world.script == st.world.script
      && (first.Ok? ==>
            r.outcome == first && r.state.model == st.model
            && r.state.world.calls == st.world.calls + [c1])
      && (first.Err? ==>
            r.outcome == second
            && r.state.model == (if second.Ok? then BackupModel else st.model)
            && r.state.world.calls == st.world.calls + [c1, VisionCall(t, BackupModel, prompt)])
  {
    var a := OpenRouterGenerate(st.world, prompt, st.model, Some(t.systemB));
    match a.outcome
    case Ok(_) => Step(a.outcome, st.(world := a.world))
    case Err(_) =>
      var b := OpenRouterGenerate(a.world, prompt, BackupModel, Some(t.systemB));
      assert b.world.calls == st.world.calls + [VisionCall(t, st.model, prompt), VisionCall(t, BackupModel, prompt)];
      match b.outcome
      case Ok(_) => Step(b.outcome, VisionState(BackupModel, b.world))
      case Err(_) => Step(b.outcome, st.(world := b.world))
  }

  function AnalyzeOp(t: Templates, prompt: string): VisionState -> Step<VisionState> {
    (st: VisionState) => AnalyzeOnce(t, prompt, st)
  }

  /** What `analyze_image` produces: the analysis or the error it re-raises,
      the instance with its model and grown log, the world after all calls,
      and the waits of the retry loop. */
  datatype Analysis = Analysis(result: Outcome, model: ModelB, world: World, waits: seq<int>)

  /** `ModelB.analyze_image`: the retried analysis; the image path plays
      no part. */
  function AnalyzeImage(m: ModelB, t: Templates, w: World): (r: Analysis)
    ensures r.model.retry.maxRetries == m.retry.maxRetries && r.model.retry.delay == m.retry.delay
    ensures r.model.prompt == m.prompt
  {
    var run := Execute(m.retry, AnalyzeOp(t, m.prompt), VisionState(m.currentModel, w));
    Analysis(run.outcome, ModelB(run.handler, run.state.model, m.prompt), run.state.world, run.waits)
  }

  // ------------------------------------------------------------ properties

  /** After any number of attempts in a row: the model is the starting one
      or the backup, it is the backup for good once it was, and each attempt
      made one or two calls. */
  lemma {:induction false} AttemptsKeepModel(t: Templates, prompt: string, st: VisionState, n: nat)
    ensures var st' := StateAfter(AnalyzeOp(t, prompt), st, n);
      && (st'.model == st.model || st'.model == BackupModel)
      && (st.model == BackupModel ==> st'.model == BackupModel)
      && Extends(st.world, st'.world)
      && |st.world.calls| + n <= |st'.world.calls| <= |st.world.calls| + 2 * n
    decreases n
  {
    if n > 0 {
      var op := AnalyzeOp(t, prompt);
      var st1 := op(st).state;
      RunsUnfold(op, st, n);
      AttemptsKeepModel(t, prompt, st1, n - 1);
      var st' := StateAfter(op, st1, n - 1);
      assert Extends(st.world, st1.world);
      ExtendsTrans(st.world, st1.world, st'.world);
    }
  }

  /** The analysis leaves the instance on its model or on the backup, keeps
      the backup once switched, and made between one and two calls per
      allowed attempt. */
  lemma AnalysisKeepsModel(m: ModelB, t: Templates, w: World)
    ensures var r := AnalyzeImage(m, t, w);
      var n := Remaining(m.retry.maxRetries, 1);
      && (r.model.currentModel == m.currentModel || r.model.currentModel == BackupModel)
      && (m.currentModel == BackupModel ==> r.model.currentModel == BackupModel)
      && Extends(w, r.world)
      && |r.world.calls| <= |w.calls| + 2 * n
  {
    var op := AnalyzeOp(t, m.prompt);
    var s := VisionState(m.currentModel, w);
    ExecuteReachedState(m.retry, op, s);
    var j :| 0 <= j <= Remaining(m.retry.maxRetries, 1) && Execute(m.retry, op, s).state == StateAfter(op, s, j);
    AttemptsKeepModel(t, m.prompt, s, j);
  }

  /** The current model answers the first attempt: one call, no switch,
      nothing logged, no wait. */
  lemma AnalysisFirstTry(m: ModelB, t: Templates, w: World)
    requires m.retry.maxRetries >= 1 && Next(w).Ok?
    ensures var r := AnalyzeImage(m, t, w);
      && r.result == Next(w)
      && r.model == m
      && r.world.calls == w.calls + [VisionCall(t, m.currentModel, m.prompt)]
      && r.waits == []
  {
    var op := AnalyzeOp(t, m.prompt);
    var s := VisionState(m.currentModel, w);
    RunsUnfold(op, s, Remaining(m.retry.maxRetries, 1));
    RunsUnfold(op, s, 1);
    ExecuteFirstOk(m.retry, op, s, 0);
    assert Outcomes(op, s, Remaining(m.retry.maxRetries, 1))[..0] == [];
    assert m.retry.(errorLog := m.retry.errorLog + []) == m.retry;
  }

  /** The current model fails its first attempt and the backup answers:
      two calls, and the instance now uses the backup model. */
  lemma AnalysisSwitches(m: ModelB, t: Templates, w: World)
    requires m.retry.maxRetries >= 1 && Next(w).Err?
    requires ReplyAt(w.script, |w.calls| + 1).Ok?
    ensures var r := AnalyzeImage(m, t, w);
      && r.result == ReplyAt(w.script, |w.calls| + 1)
      && r.model.currentModel == BackupModel
      && r.model.retry == m.retry
      && r.world.calls == w.calls + [VisionCall(t, m.currentModel, m.prompt), VisionCall(t, BackupModel, m.prompt)]
  {
    var op := AnalyzeOp(t, m.prompt);
    var s := VisionState(m.currentModel, w);
    RunsUnfold(op, s, Remaining(m.retry.maxRetries, 1));
    RunsUnfold(op, s, 1);
    ExecuteFirstOk(m.retry, op, s, 0);
    assert Outcomes(op, s, Remaining(m.retry.maxRetries, 1))[..0] == [];
    assert m.retry.(errorLog := m.retry.errorLog + []) == m.retry;
  }

  /** `n` attempts of two calls each: the current model, then the backup. */
  function Pairs(c1: Call, c2: Call, n: nat): (cs: seq<Call>)
    ensures |cs| == 2 * n
  {
    if n == 0 then [] else [c1, c2] + Pairs(c1, c2, n - 1)
  }

  /** The backup model's outcomes over `n` attempts of two calls each,
      the first call at position `from` of the script. */
  function BackupErrors(script: seq<Outcome>, from: nat, n: nat): (outs: seq<Outcome>)
    ensures |outs| == n
    ensures forall i :: 0 <= i < n ==> outs[i] == ReplyAt(script, from + 2 * i + 1)
    decreases n
  {
    if n == 0 then [] else [ReplyAt(script, from + 1)] + BackupErrors(script, from + 2, n - 1)
  }

  /** One attempt in which both models fail raises the backup's error,
      calls both models, and leaves the model as it was. */
  lemma BothModelsFail(t: Templates, prompt: string, st: VisionState)
    requires AllErr(Upcoming(st.world, 2))
    ensures var c1 := VisionCall(t, st.model, prompt);
      var c2 := VisionCall(t, BackupModel, prompt);
      var r := AnalyzeOp(t, prompt)(st);
      && r.outcome == ReplyAt(st.world.script, |st.world.calls| + 1)
      && r.state == VisionState(st.model, st.world.(calls := st.world.calls + [c1, c2]))
  {
    assert Upcoming(st.world, 2)[0].Err? && Upcoming(st.world, 2)[1].Err?;
  }

  /** What failed ahead of a world still fails after further calls. */
  lemma UpcomingLater(w: World, cs: seq<Call>, n: nat, m: nat)
    requires |cs| + m <= n && AllErr(Upcoming(w, n))
    ensures AllErr(Upcoming(w.(calls := w.calls + cs), m))
  {
    var w' := w.(calls := w.calls + cs);
    forall i | 0 <= i < m
      ensures Upcoming(w', m)[i].Err?
    {
      assert Upcoming(w, n)[|cs| + i].Err?;
    }
  }

  /** `n` attempts in which both models fail: each raises the backup's
      error, calls both models, and leaves the model as it was. */
  lemma {:induction false} VisionFailures(t: Templates, prompt: string, st: VisionState, n: nat)
    requires AllErr(Upcoming(st.world, 2 * n))
    ensures Outcomes(AnalyzeOp(t, prompt), st, n) == BackupErrors(st.world.script, |st.world.calls|, n)
    ensures StateAfter(AnalyzeOp(t, prompt), st, n) == VisionState(st.model, st.world.(calls :=
      st.world.calls + Pairs(VisionCall(t, st.model, prompt), VisionCall(t, BackupModel, prompt), n)))
    decreases n
  {
    if n > 0 {
      var op := AnalyzeOp(t, prompt);
      var w := st.world;
      var c1 := VisionCall(t, st.model, prompt);
      var c2 := VisionCall(t, BackupModel, prompt);
      var st1 := VisionState(st.model, w.(calls := w.calls + [c1, c2]));
      assert op(st) == Step(ReplyAt(w.script, |w.calls| + 1), st1) by {
        UpcomingLater(w, [], 2 * n, 2);
        assert w.(calls := w.calls + []) == w;
        BothModelsFail(t, prompt, st);
      }
      assert AllErr(Upcoming(st1.world, 2 * (n - 1))) by {
        UpcomingLater(w, [c1, c2], 2 * n, 2 * (n - 1));
      }
      VisionFailures(t, prompt, st1, n - 1);
      FailuresCons(op, st, n, c1, c2);
    }
  }

  /** A first attempt that fails with the second call's error and makes
      the calls `c1` and `c2`, followed by `n - 1` such attempts. */
  lemma FailuresCons(op: VisionState -> Step<VisionState>, st: VisionState, n: nat, c1: Call, c2: Call)
    requires n > 0
    requires var w := st.world;
      var st1 := VisionState(st.model, w.(calls := w.calls + [c1, c2]));
      && op(st) == Step(ReplyAt(w.script, |w.calls| + 1), st1)
      && Outcomes(op, st1, n - 1) == BackupErrors(w.script, |w.calls| + 2, n - 1)
      && StateAfter(op, st1, n - 1) == VisionState(st.model, w.(calls := w.calls + [c1, c2] + Pairs(c1, c2, n - 1)))
    ensures var w := st.world;
      && Outcomes(op, st, n) == BackupErrors(w.script, |w.calls|, n)
      && StateAfter(op, st, n) == VisionState(st.model, w.(calls := w.calls + Pairs(c1, c2, n)))
  {
    RunsUnfold(op, st, n);
    assert st.world.calls + [c1, c2] + Pairs(c1, c2, n - 1) == st.world.calls + Pairs(c1, c2, n);
  }

  /** The retry loop of `analyze_image` when every allowed attempt fails
      on both models. */
  lemma ExhaustedRun(m: ModelB, t: Templates, w: World)
    requires AllErr(Upcoming(w, 2 * Remaining(m.retry.maxRetries, 1)))
    ensures var n := Remaining(m.retry.maxRetries, 1);
      Execute(m.retry, AnalyzeOp(t, m.prompt), VisionState(m.currentModel, w))
        == Run(Err(ExhaustedMessage(m.retry.maxRetries, LastError(w, n))),
               VisionState(m.currentModel, w.(calls := w.calls + Pairs(VisionCall(t, m.currentModel, m.prompt),
                                                                       VisionCall(t, BackupModel, m.prompt), n))),
               m.retry.(errorLog := m.retry.errorLog + FailureLog(BackupErrors(w.script, |w.calls|, n), 1)),
               Schedule(m.retry.delay, 1, Gaps(n)))
  {
    var n := Remaining(m.retry.maxRetries, 1);
    var s := VisionState(m.currentModel, w);
    var last := LastError(w, n);
    var final := VisionState(m.currentModel, w.(calls :=
      w.calls + Pairs(VisionCall(t, m.currentModel, m.prompt), VisionCall(t, BackupModel, m.prompt), n)));
    VisionFailures(t, m.prompt, s, n);
    BackupErrorsExhausted(w, n);
    ExecuteExhaustedIs(m.retry, AnalyzeOp(t, m.prompt), s, BackupErrors(w.script, |w.calls|, n), final, last);
  }

  /** When the next `2 * n` calls fail, the backup's `n` errors are all
      errors, and the last of them is the script's outcome for the last
      call. */
  lemma BackupErrorsExhausted(w: World, n: nat)
    requires AllErr(Upcoming(w, 2 * n))
    ensures var errs := BackupErrors(w.script, |w.calls|, n);
      && AllErr(errs)
      && (if errs == [] then None else Some(ErrorText(errs[|errs| - 1]))) == LastError(w, n)
  {
    BackupErrorsFail(w, n);
    if n > 0 {
      LastBackupError(w.script, |w.calls|, n);
    }
  }

  /** The error the last of `n` failed attempts raises: the backup's, in
      the last of the `2 * n` calls; none when there was no attempt. */
  function LastError(w: World, n: nat): Option<string> {
    if n == 0 then None else Some(ErrorText(ReplyAt(w.script, |w.calls| + 2 * n - 1)))
  }

  /** The backup's error in the last attempt is the script's outcome for
      the last of the `2 * n` calls. */
  lemma LastBackupError(script: seq<Outcome>, from: nat, n: nat)
    requires n > 0
    ensures BackupErrors(script, from, n)[n - 1] == ReplyAt(script, from + 2 * n - 1)
  {
    assert from + 2 * (n - 1) + 1 == from + 2 * n - 1;
  }

  /** When the next `2 * n` calls fail, so do the backup's `n` calls. */
  lemma BackupErrorsFail(w: World, n: nat)
    requires AllErr(Upcoming(w, 2 * n))
    ensures AllErr(BackupErrors(w.script, |w.calls|, n))
  {
    var errs := BackupErrors(w.script, |w.calls|, n);
    forall i | 0 <= i < n ensures errs[i].Err? {
      assert Upcoming(w, 2 * n)[2 * i + 1].Err?;
    }
  }

  /** Every allowed attempt fails on both models: `analyze_image` raises
      the exhaustion error quoting the backup's last error, stays on its
      model, made two calls per attempt, logged one entry per attempt and
      waited between attempts. */
  lemma AnalysisExhausted(m: ModelB, t: Templates, w: World)
    requires AllErr(Upcoming(w, 2 * Remaining(m.retry.maxRetries, 1)))
    ensures var n := Remaining(m.retry.maxRetries, 1);
      var r := AnalyzeImage(m, t, w);
      && r.result == Err(ExhaustedMessage(m.retry.maxRetries, LastError(w, n)))
      && r.model.currentModel == m.currentModel
      && r.world == w.(calls := w.calls + Pairs(VisionCall(t, m.currentModel, m.prompt),
                                                VisionCall(t, BackupModel, m.prompt), n))
      && r.model.retry.errorLog == m.retry.errorLog + FailureLog(BackupErrors(w.script, |w.calls|, n), 1)
      && r.waits == Schedule(m.retry.delay, 1, Gaps(n))
  {
    ExhaustedRun(m, t, w);
  }

  /** The world after `k` attempts in which both models failed. */
  function FailedAttempts(m: ModelB, t: Templates, w: World, k: nat): (w': World)
    ensures w'.script == w.script && |w'.calls| == |w.calls| + 2 * k
  {
    w.(calls := w.calls + Pairs(VisionCall(t, m.currentModel, m.prompt), VisionCall(t, BackupModel, m.prompt), k))
  }

  /** The retry loop of `analyze_image` when both models fail the first
      `k` attempts and attempt `k + 1` answers. */
  lemma LaterTryRun(m: ModelB, t: Templates, w: World, k: nat)
    requires k < Remaining(m.retry.maxRetries, 1)
    requires AllErr(Upcoming(w, 2 * k))
    requires AnalyzeOnce(t, m.prompt, VisionState(m.currentModel, FailedAttempts(m, t, w, k))).outcome.Ok?
    ensures var step := AnalyzeOnce(t, m.prompt, VisionState(m.currentModel, FailedAttempts(m, t, w, k)));
      Execute(m.retry, AnalyzeOp(t, m.prompt), VisionState(m.currentModel, w))
        == Run(step.outcome, step.state,
               m.retry.(errorLog := m.retry.errorLog + FailureLog(BackupErrors(w.script, |w.calls|, k), 1)),
               Schedule(m.retry.delay, 1, k))
  {
    var op := AnalyzeOp(t, m.prompt);
    var s := VisionState(m.currentModel, w);
    var mid := VisionState(m.currentModel, FailedAttempts(m, t, w, k));
    VisionFailures(t, m.prompt, s, k);
    BackupErrorsFail(w, k);
    assert op(mid) == AnalyzeOnce(t, m.prompt, mid);
    ExecuteLaterOkIs(m.retry, op, s, k, BackupErrors(w.script, |w.calls|, k), mid);
  }

  /** Both models fail the first `k` attempts and attempt `k + 1` answers,
      on the current model or else on the backup: that answer is returned,
      the instance is on the backup exactly when the current model failed
      that attempt (it stays there if it already was), the failed attempts
      made two calls each and the last one or two, the log gains the
      backup's `k` errors and the waits are those after attempts 1..k. */
  lemma AnalysisLaterTry(m: ModelB, t: Templates, w: World, k: nat)
    requires k < Remaining(m.retry.maxRetries, 1)
    requires AllErr(Upcoming(w, 2 * k))
    requires ReplyAt(w.script, |w.calls| + 2 * k).Ok? || ReplyAt(w.script, |w.calls| + 2 * k + 1).Ok?
    ensures var r := AnalyzeImage(m, t, w);
      var first := ReplyAt(w.script, |w.calls| + 2 * k);
      var second := ReplyAt(w.script, |w.calls| + 2 * k + 1);
      var c1 := VisionCall(t, m.currentModel, m.prompt);
      var c2 := VisionCall(t, BackupModel, m.prompt);
      && r.result == (if first.Ok? then first else second)
      && r.model.currentModel == (if first.Ok? then m.currentModel else BackupModel)
      && r.world.script == w.script
      && r.world.calls == FailedAttempts(m, t, w, k).calls + (if first.Ok? then [c1] else [c1, c2])
      && r.model.retry.errorLog == m.retry.errorLog + FailureLog(BackupErrors(w.script, |w.calls|, k), 1)
      && r.waits == Schedule(m.retry.delay, 1, k)
  {
    var mid := VisionState(m.currentModel, FailedAttempts(m, t, w, k));
    assert Next(mid.world) == ReplyAt(w.script, |w.calls| + 2 * k);
    assert ReplyAt(mid.world.script, |mid.world.calls| + 1) == ReplyAt(w.script, |w.calls| + 2 * k + 1);
    LaterTryRun(m, t, w, k);
  }
}
