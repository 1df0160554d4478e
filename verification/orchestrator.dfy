/** `PromptChainOrchestrator.process_request` (prompts_handler.py): the
    optional image analysis, whose failure is not fatal, followed by the
    prompt build, whose failure is. Translation is never called, so the
    result carries no English prompt. */
module Orchestrator {
  import opened Common
  import opened Config
  import opened Providers
  import opened Retry
  import opened PromptBuilder
  import opened Vision

  /** The orchestrator's instances; the animation module holds no state. */
  datatype Orchestrator = Orchestrator(modelA: ModelA, modelB: ModelB)

  function NewOrchestrator(cfg: Config): Orchestrator {
    Orchestrator(NewModelA(cfg), NewModelB(cfg))
  }

  /** `if image:` on the optional bytes. */
  predicate ImageGiven(image: Option<seq<bv8>>) {
    image.Some? && |image.value| > 0
  }

  /** What the first step leaves: the analysis handed to the build, the
      vision instance, the world and the waits of its retry loop. */
  datatype Stage = Stage(analysis: Option<string>, modelB: ModelB, world: World, waits: seq<int>)

  /** Step 1: analyse the image when there is one; an analysis that raises
      is logged and replaced by `None`. */
  function AnalysisStage(o: Orchestrator, t: Templates, w: World, image: Option<seq<bv8>>): (s: Stage)
    ensures !ImageGiven(image) ==> s == Stage(None, o.modelB, w, [])
    ensures s.analysis.Some? ==> ImageGiven(image) && AnalyzeImage(o.modelB, t, w).result == Ok(s.analysis.value)
    ensures ImageGiven(image) ==> s.world == AnalyzeImage(o.modelB, t, w).world
  {
    if ImageGiven(image) then
      var a := AnalyzeImage(o.modelB, t, w);
      Stage(if a.result.Ok? then Some(a.result.text) else None, a.model, a.world, a.waits)
    else
      Stage(None, o.modelB, w, [])
  }

  /** The dictionary returned, or the exception raised, with the updated
      instances, the world after every call and all waits in order. */
  datatype Processed = Processed(result: Result<Generation>, orchestrator: Orchestrator, world: World, waits: seq<int>)

  function ProcessRequest(o: Orchestrator, cfg: Config, t: Templates, w: World, idea: string, style: string,
                          personajes: Option<seq<string>>, image: Option<seq<bv8>>): (r: Processed)
    ensures r.result.Success? ==> Provenance(cfg, o.modelA.currentModel, r.result.value)
    ensures r.orchestrator.modelA.currentModel == o.modelA.currentModel
  {
    var st := AnalysisStage(o, t, w, image);
    var b := BuildPrompt(o.modelA, cfg, t, st.world, idea, style, personajes, st.analysis);
    Processed(b.result, Orchestrator(b.model, st.modelB), b.world, st.waits + b.waits)
  }

  /** Without an image (None or no bytes) no vision call is made: the
      request is the build alone, on the world as it was. */
  lemma NoImageIsBuildAlone(o: Orchestrator, cfg: Config, t: Templates, w: World, idea: string, style: string,
                            personajes: Option<seq<string>>, image: Option<seq<bv8>>)
    requires !ImageGiven(image)
    ensures var r := ProcessRequest(o, cfg, t, w, idea, style, personajes, image);
      var b := BuildPrompt(o.modelA, cfg, t, w, idea, style, personajes, None);
      && r.result == b.result && r.world == b.world && r.orchestrator.modelB == o.modelB
  {
    assert AnalysisStage(o, t, w, image) == Stage(None, o.modelB, w, []);
  }

  /** An image whose analysis raises does not fail the request: the build
      goes on as for a request without an image, from the world the
      analysis left. */
  lemma ImageFailureIsHarmless(o: Orchestrator, cfg: Config, t: Templates, w: World, idea: string, style: string,
                               personajes: Option<seq<string>>, image: Option<seq<bv8>>)
    requires ImageGiven(image) && AnalyzeImage(o.modelB, t, w).result.Err?
    ensures var r := ProcessRequest(o, cfg, t, w, idea, style, personajes, image);
      var b := BuildPrompt(o.modelA, cfg, t, AnalyzeImage(o.modelB, t, w).world, idea, style, personajes, None);
      r.result == b.result && r.world == b.world
  {
    var a := AnalyzeImage(o.modelB, t, w);
    assert a.result.Err?;
    var st := AnalysisStage(o, t, w, image);
    assert st == Stage(None, a.model, a.world, a.waits);
  }

  /** An analysis that succeeds is handed to the build, which runs from
      the world the analysis left. */
  lemma AnalysisFeedsBuild(o: Orchestrator, cfg: Config, t: Templates, w: World, idea: string, style: string,
                           personajes: Option<seq<string>>, image: Option<seq<bv8>>)
    requires ImageGiven(image) && AnalyzeImage(o.modelB, t, w).result.Ok?
    ensures var a := AnalyzeImage(o.modelB, t, w);
      var r := ProcessRequest(o, cfg, t, w, idea, style, personajes, image);
      var b := BuildPrompt(o.modelA, cfg, t, a.world, idea, style, personajes, Some(a.result.text));
      && r.result == b.result && r.world == b.world && r.orchestrator.modelB == a.model
      && r.waits == a.waits + b.waits
  {
    var a := AnalyzeImage(o.modelB, t, w);
    assert AnalysisStage(o, t, w, image) == Stage(Some(a.result.text), a.model, a.world, a.waits);
  }
}
