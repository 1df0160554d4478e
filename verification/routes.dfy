/** The prompt-generation handlers of main.py: input validation, the
    `model_info` text, the style labels, the direct OpenRouter requests
    and the error responses. The handlers run one after another on the
    shared orchestrator and scripted world. */
module Routes {
  import opened Common
  import opened PyStr
  import opened Config
  import opened Providers
  import opened Api
  import opened PromptBuilder
  import opened Orchestrator
  import opened Sections
  import Parse = Sections

  /** The body of a prompt request. */
  datatype PromptRequest = PromptRequest(idea: string, style: string, personajes: seq<string>)

  /** The response model; `prompt_en` and `model_info` may be null. */
  datatype PromptResponse = PromptResponse(
    promptEs: string,
    promptEn: Option<string>,
    promptVideo: string,
    modelUsed: string,
    modelInfo: Option<string>,
    success: bool,
    message: string)

  /** The idea is missing or only whitespace. */
  predicate BlankIdea(idea: string) {
    !Truthy(idea) || |Strip(idea)| == 0
  }

  const EmptyIdeaDetail: string := "La idea no puede estar vacía"

  /** The text of a raised `HTTPException`: its status and detail. */
  function HttpErrorText(status: nat, detail: string): string {
    NatToString(status) + ": " + detail
  }

  // ------------------------------------------------------------ style_map

  const DefaultStyle: string := "default"

  /** `style_map` of `/api/prompts-funcional`. */
  const StyleMap: map<string, string> := map[
    "fotografia" := "Fotografía profesional",
    "ilustracion" := "Ilustración digital",
    "arte_digital" := "Arte digital",
    "acuarela" := "Acuarela",
    DefaultStyle := "Composición visual"]

  /** `style_map.get(style, style_map["default"])` */
  function StyleLabel(style: string): (r: string)
    ensures r in StyleMap.Values
    ensures style in StyleMap ==> r == StyleMap[style]
    ensures style !in StyleMap ==> r == "Composición visual"
  {
    if style in StyleMap then StyleMap[style] else StyleMap[DefaultStyle]
  }

  /** The four named styles get their own label; every other style,
      "default" included, gets the generic one. */
  lemma StyleLabelGeneric(style: string)
    ensures StyleLabel(style) == "Composición visual"
        <==> style !in {"fotografia", "ilustracion", "arte_digital", "acuarela"}
  {
    assert StyleMap[DefaultStyle] == "Composición visual";
  }

  // ------------------------------------------------------------ model_info

  /** The `model_info` of `/api/generate-prompts` for a successful build. */
  function ModelInfo(g: Generation): string {
    if Truthy(g.primaryModel) then
      "Primary: " + g.primaryModel + " (" + g.primaryStatus + ")"
        + (if g.fallbackModel.Some? && Truthy(g.fallbackModel.value) then " — Fallback: " + g.fallbackModel.value else "")
    else
      g.modelUsed
  }

  /** For a generation whose provenance is consistent, `model_info` is one
      of three texts: the primary model with `success`, the primary model
      with `failed` and the vision model as fallback, or (with an empty
      vision model name) the primary with `failed` alone; without a primary
      model name it is the model used. */
  lemma ModelInfoOfBuild(cfg: Config, primary: string, g: Generation)
    requires Provenance(cfg, primary, g)
    ensures !Truthy(primary) ==> ModelInfo(g) == g.modelUsed
    ensures Truthy(primary) && g.primaryStatus == StatusSuccess ==>
      ModelInfo(g) == "Primary: " + primary + " (success)"
    ensures Truthy(primary) && g.primaryStatus == StatusFailed ==>
      ModelInfo(g) == "Primary: " + primary + " (failed)"
        + (if Truthy(cfg.modeloBVision) then " — Fallback: " + cfg.modeloBVision else "")
  {
    if Truthy(primary) {
      assert "Primary: " + primary + " (" + StatusSuccess + ")" == "Primary: " + primary + " (success)";
      assert "Primary: " + primary + " (" + StatusFailed + ")" == "Primary: " + primary + " (failed)";
    }
  }

  // ------------------------------------------------------------ direct requests

  /** The fixed wording of the request the handlers send to OpenRouter
      themselves: the text before the idea, between idea and style, and
      after the style. */
  datatype DirectWording = DirectWording(head: string, middle: string, tail: string)

  function DirectRequest(wd: DirectWording, idea: string, style: string): string {
    wd.head + idea + wd.middle + style + wd.tail
  }

  /** The one OpenRouter call a handler makes on its own: the vision model,
      no system prompt. */
  function DirectCall(cfg: Config, wd: DirectWording, req: PromptRequest): Call {
    Call(OpenRouter(cfg.modeloBVision, None), DirectRequest(wd, req.idea, req.style))
  }

  /** A handler's response and the world after it. */
  datatype Replied = Replied(response: PromptResponse, world: World)

  /** The success response built from a reply read into sections. */
  function SectionsResponse(s: Sections, modelUsed: string, info: string, message: string): PromptResponse {
    PromptResponse(s.es, Some(s.en), s.video, modelUsed, Some(info), true, message)
  }

  /** The error response of `/api/prompts-openrouter`, quoting at most
      100 characters of the error. */
  function DirectError(e: string): (r: PromptResponse)
    ensures !r.success && r.modelUsed == "error"
    ensures r.promptEs == "Error generando prompt: " + e[..Min(100, |e|)]
    ensures r.message == "Error en OpenRouter: " + e[..Min(100, |e|)]
    ensures r.promptEn == Some("Error generating prompt: " + e[..Min(100, |e|)])
    ensures r.promptVideo == "Error generando animación"
    ensures r.modelInfo == Some("Primary: OpenRouter (failed)")
  {
    var quoted := Slice(e, 0, 100);
    PromptResponse("Error generando prompt: " + quoted, Some("Error generating prompt: " + quoted),
                   "Error generando animación", "error", Some("Primary: OpenRouter (failed)"), false,
                   "Error en OpenRouter: " + quoted)
  }

  /** `/api/prompts-openrouter`. The check of the idea raises inside the
      `try`, so a blank idea is answered like any other error, with the
      exception's text, and no call is made. */
  function PromptsOpenRouter(cfg: Config, wd: DirectWording, w: World, req: PromptRequest): (r: Replied)
    ensures BlankIdea(req.idea) ==> r == Replied(DirectError(HttpErrorText(400, EmptyIdeaDetail)), w)
    ensures !BlankIdea(req.idea) ==>
      && Extends(w, r.world) && CallsSince(w, r.world) == [DirectCall(cfg, wd, req)]
      && (r.response.success <==> Next(w).Ok?)
    ensures !r.response.success ==> r.response.modelUsed == "error"
    ensures !BlankIdea(req.idea) && Next(w).Err? ==> r.response == DirectError(Next(w).msg)
    ensures !BlankIdea(req.idea) && Next(w).Ok? ==>
      var s := Finish(Next(w).text, ReadDirect(Next(w).text));
      && r.response.promptEs == s.es && r.response.promptEn == Some(s.en)
      && r.response.promptVideo == s.video
      && r.response.modelUsed == "openrouter/" + cfg.modeloBVision
      && r.response.modelInfo == Some("Primary: OpenRouter (" + cfg.modeloBVision + ")")
      && r.response.message == "Generado con OpenRouter"
  {
    if BlankIdea(req.idea) then
      Replied(DirectError(HttpErrorText(400, EmptyIdeaDetail)), w)
    else
      var a := OpenRouterGenerate(w, DirectRequest(wd, req.idea, req.style), cfg.modeloBVision, None);
      match a.outcome
      case Ok(text) =>
        Replied(SectionsResponse(Finish(text, ReadDirect(text)), "openrouter/" + cfg.modeloBVision,
                                 "Primary: OpenRouter (" + cfg.modeloBVision + ")", "Generado con OpenRouter"),
                a.world)
      case Err(e) => Replied(DirectError(e), a.world)
  }

  /** A reply laid out as requested, each part non-blank, reaches the
      client as its three stripped parts. */
  lemma PromptsOpenRouterLayout(cfg: Config, wd: DirectWording, w: World, req: PromptRequest,
                                pre: string, es: string, en: string, video: string)
    requires !BlankIdea(req.idea) && Next(w) == Ok(Parse.Reply(pre, es, en, video))
    requires OnlyAt(Parse.Reply(pre, es, en, video), EsMarker, |pre|)
    requires OnlyAt(Parse.Reply(pre, es, en, video), EnMarker, |pre| + |EsMarker| + |es|)
    requires OnlyAt(Parse.Reply(pre, es, en, video), VideoMarker, |pre| + |EsMarker| + |es| + |EnMarker| + |en|)
    requires Truthy(Strip(es)) && Truthy(Strip(en)) && Truthy(Strip(video))
    ensures var r := PromptsOpenRouter(cfg, wd, w, req).response;
      && r.success
      && r.promptEs == Strip(es) && r.promptEn == Some(Strip(en)) && r.promptVideo == Strip(video)
  {
    ReadLayout(pre, es, en, video);
  }

  // ------------------------------------------------------------ generate-prompts

  /** What `/api/generate-prompts` ends in: a response, or an HTTP error
      raised to the framework. */
  datatype Reply = Respond(response: PromptResponse) | HttpError(status: nat, detail: string)

  /** The handler's reply with the orchestrator and world after it. */
  datatype Handled = Handled(reply: Reply, orchestrator: Orchestrator, world: World)

  /** The error response when the fallback fails as well, quoting at most
      100 characters of the error in the prompts and 150 in the message. */
  function BothFailed(e: string): (r: PromptResponse)
    ensures !r.success && r.modelUsed == "error" && r.modelInfo.None?
    ensures r.promptEs == "Error: Fallos en ambos modelos. " + e[..Min(100, |e|)]
    ensures r.message == "Error: " + e[..Min(150, |e|)]
    ensures r.promptEn == Some("Error: Both models failed. " + e[..Min(100, |e|)])
    ensures r.promptVideo == "Error"
  {
    PromptResponse("Error: Fallos en ambos modelos. " + Slice(e, 0, 100),
                   Some("Error: Both models failed. " + Slice(e, 0, 100)),
                   "Error", "error", None, false, "Error: " + Slice(e, 0, 150))
  }

  /** The `model_info` of the handler's own OpenRouter fallback. */
  function FallbackInfo(cfg: Config): string {
    "Primary: " + cfg.modeloA + " (failed) — Fallback: " + cfg.modeloBVision
  }

  /** `/api/generate-prompts` after `process_request` has run: its result
      becomes the response, and its exception triggers one direct
      OpenRouter request, read with the fallback parse. */
  function AfterProcess(cfg: Config, wd: DirectWording, req: PromptRequest, p: Processed): (r: Handled)
    ensures r.orchestrator == p.orchestrator
    ensures p.result.Success? ==> r.world == p.world
    ensures p.result.Failure? ==>
      Extends(p.world, r.world) && CallsSince(p.world, r.world) == [DirectCall(cfg, wd, req)]
    ensures r.reply.Respond?
  {
    match p.result
    case Success(g) =>
      Handled(Respond(PromptResponse(g.promptEs, Some(""), g.promptVideo, g.modelUsed, Some(ModelInfo(g)), true,
                                     "Prompts generados exitosamente")),
              p.orchestrator, p.world)
    case Failure(_) =>
      var a := OpenRouterGenerate(p.world, DirectRequest(wd, req.idea, req.style), cfg.modeloBVision, None);
      match a.outcome
      case Ok(text) =>
        Handled(Respond(SectionsResponse(Finish(text, ReadFallback(text)), "openrouter/" + cfg.modeloBVision,
                                         FallbackInfo(cfg), "Generado con fallback OpenRouter")),
                p.orchestrator, a.world)
      case Err(e) => Handled(Respond(BothFailed(e)), p.orchestrator, a.world)
  }

  /** `/api/generate-prompts`: a blank idea is a 400 error raised before
      anything else happens; otherwise the orchestrator runs without an
      image. */
  function GeneratePrompts(o: Orchestrator, cfg: Config, t: Templates, wd: DirectWording, w: World,
                           req: PromptRequest): (r: Handled)
    ensures BlankIdea(req.idea) ==> r == Handled(HttpError(400, EmptyIdeaDetail), o, w)
    ensures !BlankIdea(req.idea) ==> r.reply.Respond?
  {
    if BlankIdea(req.idea) then
      Handled(HttpError(400, EmptyIdeaDetail), o, w)
    else
      AfterProcess(cfg, wd, req, ProcessRequest(o, cfg, t, w, req.idea, req.style, Some(req.personajes), None))
  }

  // ------------------------------------------------------------ properties

  /** A successful build is returned as is, with no English prompt (the
      orchestrator never translates) and the `model_info` of its
      provenance; nothing else is called. */
  lemma BuildSuccessResponse(cfg: Config, wd: DirectWording, req: PromptRequest, p: Processed)
    requires p.result.Success?
    ensures var r := AfterProcess(cfg, wd, req, p);
      var g := p.result.value;
      && r.reply == Respond(PromptResponse(g.promptEs, Some(""), g.promptVideo, g.modelUsed, Some(ModelInfo(g)),
                                           true, "Prompts generados exitosamente"))
      && r.world == p.world
  {
  }

  /** A failed build is answered from the direct OpenRouter request: its
      reply with the fallback parse, or, if it fails too, the error
      response, which is never a success. */
  lemma BuildFailureResponse(cfg: Config, wd: DirectWording, req: PromptRequest, p: Processed)
    requires p.result.Failure?
    ensures var r := AfterProcess(cfg, wd, req, p);
      var next := Next(p.world);
      && r.reply.response.success == next.Ok?
      && (next.Ok? ==>
            var s := Finish(next.text, ReadFallback(next.text));
            && r.reply.response.promptEs == s.es && r.reply.response.promptEn == Some(s.en)
            && r.reply.response.promptVideo == s.video
            && r.reply.response.modelUsed == "openrouter/" + cfg.modeloBVision
            && r.reply.response.modelInfo == Some(FallbackInfo(cfg))
            && r.reply.response.message == "Generado con fallback OpenRouter")
      && (next.Err? ==> r.reply.response == BothFailed(next.msg))
  {
  }

  /** The handler's own fallback reports the same `model_info` as a build
      that fell back inside the orchestrator, when both model names are
      non-empty. */
  lemma FallbackInfoMatchesBuild(cfg: Config, g: Generation)
    requires Provenance(cfg, cfg.modeloA, g) && g.primaryStatus == StatusFailed
    requires Truthy(cfg.modeloA) && Truthy(cfg.modeloBVision)
    ensures ModelInfo(g) == FallbackInfo(cfg)
  {
    ModelInfoOfBuild(cfg, cfg.modeloA, g);
    assert "Primary: " + cfg.modeloA + " (failed)" + (" — Fallback: " + cfg.modeloBVision)
        == "Primary: " + cfg.modeloA + " (failed) — Fallback: " + cfg.modeloBVision;
  }
}
