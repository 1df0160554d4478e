/** `ModelA` (prompts_handler.py): builds the photographic prompt with
    Gemini under the retry handler, falls back to one OpenRouter call, and
    derives the video suggestion through a three-level degrade. */
module PromptBuilder {
  import opened Common
  import opened PyStr
  import opened Config
  import opened Providers
  import opened Api
  import opened Retry

  /** A `ModelA` instance: its retry handler (whose log outlives a single
      request), the model it reports as primary, and the fixed wording of
      the user message it builds. */
  datatype ModelA = ModelA(retry: Handler, currentModel: string, wording: Wording)

  function NewModelA(cfg: Config): (m: ModelA)
    ensures m.currentModel == cfg.modeloA && m.wording == Spanish
    ensures m.retry.errorLog == []
    ensures m.retry.maxRetries == cfg.maxRetries && m.retry.delay == cfg.retryDelaySeconds
  {
    ModelA(NewHandler(cfg, None, None), cfg.modeloA, Spanish)
  }

  // ------------------------------------------------------------ characters

  const NoCharacters: string := "Sin personajes específicos"

  /** `personajes or ['ninguno']` */
  function CharacterList(personajes: Option<seq<string>>): (r: seq<string>)
    ensures |r| > 0
    ensures personajes.Some? && |personajes.value| > 0 ==> r == personajes.value
    ensures !(personajes.Some? && |personajes.value| > 0) ==> r == ["ninguno"]
  {
    if personajes.Some? && |personajes.value| > 0 then personajes.value else ["ninguno"]
  }

  function AndyLine(cfg: Config): string { "Andy: " + cfg.perfilAndy }
  function ConyLine(cfg: Config): string { "Cony: " + cfg.perfilCony }

  /** The profile lines selected by the names: Andy's, then Cony's. */
  function CharacterLines(cfg: Config, personajes: seq<string>): seq<string> {
    (if "andy" in personajes then [AndyLine(cfg)] else [])
      + (if "cony" in personajes then [ConyLine(cfg)] else [])
  }

  /** `_build_characters_context`: the selected profile lines joined by
      newlines, or the fixed "no characters" text. */
  function CharactersContext(cfg: Config, personajes: seq<string>): (r: string)
    ensures StartsWith(r, AndyLine(cfg)) <==> "andy" in personajes
    ensures r == NoCharacters <==> ("andy" !in personajes && "cony" !in personajes)
  {
    var lines := CharacterLines(cfg, personajes);
    var r := if |lines| > 0 then Join(lines, "\n") else NoCharacters;
    var andy := AndyLine(cfg);
    assert andy[0] == 'A' && ConyLine(cfg)[0] == 'C' && NoCharacters[0] == 'S';
    assert StartsWith(r, andy) <==> "andy" in personajes by {
      if "andy" in personajes && "cony" in personajes {
        assert lines == [andy, ConyLine(cfg)];
        JoinTwo(andy, ConyLine(cfg), "\n");
        assert r[..|andy|] == andy;
      } else if "andy" in personajes {
        JoinTwo(andy, andy, "\n");
        assert r == andy;
      } else if "cony" in personajes {
        JoinTwo(ConyLine(cfg), andy, "\n");
        assert r == ConyLine(cfg);
        assert r[0] != andy[0];
      } else {
        assert r[0] != andy[0];
      }
    }
    assert r == NoCharacters <==> ("andy" !in personajes && "cony" !in personajes) by {
      if "andy" in personajes || "cony" in personajes {
        assert r[0] != NoCharacters[0];
      }
    }
    r
  }

  /** Only whether "andy" and "cony" are named matters: not their order,
      not repetitions, and no other name (such as "ambos"). */
  lemma CharactersContextByMembership(cfg: Config, p: seq<string>, q: seq<string>)
    requires ("andy" in p <==> "andy" in q) && ("cony" in p <==> "cony" in q)
    ensures CharactersContext(cfg, p) == CharactersContext(cfg, q)
  {
  }

  /** When the profiles are single lines, splitting the context on "\n"
      gives back exactly the selected lines, Andy's first, or the default
      text when none is selected. */
  lemma CharactersContextSplits(cfg: Config, personajes: seq<string>)
    requires !Contains(cfg.perfilAndy, "\n") && !Contains(cfg.perfilCony, "\n")
    ensures var lines := CharacterLines(cfg, personajes);
      Split(CharactersContext(cfg, personajes), "\n") == if |lines| > 0 then lines else [NoCharacters]
  {
    var andy := AndyLine(cfg);
    var cony := ConyLine(cfg);
    SingleLines(cfg);
    JoinTwo(andy, cony, "\n");
    JoinTwo(cony, andy, "\n");
    SplitChoice(andy, cony, NoCharacters, "andy" in personajes, "cony" in personajes);
  }

  /** With single-line profiles, both profile lines and the default text
      are single lines. */
  lemma SingleLines(cfg: Config)
    requires !Contains(cfg.perfilAndy, "\n") && !Contains(cfg.perfilCony, "\n")
    ensures !Contains(AndyLine(cfg), "\n") && !Contains(ConyLine(cfg), "\n") && !Contains(NoCharacters, "\n")
  {
    FixedTextsSingle();
    LineWithoutNewline("Andy: ", cfg.perfilAndy);
    LineWithoutNewline("Cony: ", cfg.perfilCony);
  }

  /** The tags and the default text hold no newline. */
  lemma FixedTextsSingle()
    ensures !Contains("Andy: ", "\n") && !Contains("Cony: ", "\n") && !Contains(NoCharacters, "\n")
  {
    ContainsChar("Andy: ", '\n');
    ContainsChar("Cony: ", '\n');
    ContainsChar(NoCharacters, '\n');
  }

  /** So, with single-line profiles, Andy's line is among the lines of the
      context iff "andy" is named, Cony's iff "cony" is, and naming both
      gives Andy's line, then Cony's. */
  lemma CharactersContextLines(cfg: Config, personajes: seq<string>)
    requires !Contains(cfg.perfilAndy, "\n") && !Contains(cfg.perfilCony, "\n")
    ensures var lines := Split(CharactersContext(cfg, personajes), "\n");
      && (AndyLine(cfg) in lines <==> "andy" in personajes)
      && (ConyLine(cfg) in lines <==> "cony" in personajes)
      && ("andy" in personajes && "cony" in personajes ==> lines == [AndyLine(cfg), ConyLine(cfg)])
  {
    CharactersContextSplits(cfg, personajes);
    var andy := AndyLine(cfg);
    var cony := ConyLine(cfg);
    assert andy[0] == 'A' && cony[0] == 'C' && NoCharacters[0] == 'S';
    assert andy != cony && andy != NoCharacters && cony != NoCharacters;
  }

  /** Splitting one or two newline-free lines, or a newline-free default,
      on "\n" gives those lines back. */
  lemma SplitChoice(a: string, c: string, none: string, hasA: bool, hasC: bool)
    requires !Contains(a, "\n") && !Contains(c, "\n") && !Contains(none, "\n")
    ensures Split(if hasA && hasC then a + "\n" + c else if hasA then a else if hasC then c else none, "\n")
         == if hasA && hasC then [a, c] else if hasA then [a] else if hasC then [c] else [none]
  {
    if hasA && hasC {
      SplitPair(a, '\n', c);
    } else if hasA {
      SplitAbsent(a, "\n");
    } else if hasC {
      SplitAbsent(c, "\n");
    } else {
      SplitAbsent(none, "\n");
    }
  }

  /** A one-line tag followed by a one-line text is one line. */
  lemma LineWithoutNewline(tag: string, text: string)
    requires !Contains(tag, "\n") && !Contains(text, "\n")
    ensures !Contains(tag + text, "\n")
  {
    ContainsChar(tag, '\n');
    ContainsChar(text, '\n');
    ContainsChar(tag + text, '\n');
  }

  // ------------------------------------------------------------ user message

  /** The fixed text of the user message around its variable parts. */
  datatype Wording = Wording(
    intro: string,
    styleHeading: string,
    charactersHeading: string,
    imageHeading: string,
    instructionsHeading: string,
    closing: string)

  /** The wording `_build_user_message` uses. */
  const Spanish: Wording := Wording(
    "\nConstruir un prompt fotográfico ultra-detallado según estas especificaciones:\n\n**IDEA/DESCRIPCIÓN DEL USUARIO:**\n",
    "\n\n**ESTILO ARTÍSTICO:**\n",
    "\n\n**PERSONAJES (si aplica):**\n",
    "\n**ANÁLISIS DE IMAGEN (Referencia Visual):**\n",
    "\n**INSTRUCCIONES:**\n",
    "\n\nGenera el prompt final en ESPAÑOL, en un SOLO PÁRRAFO, incluyendo todos los elementos técnicos fotográficos, descripción del personaje (si aplica), entorno, luz, estilo artístico e inspiraciones.")

  /** The image heading and the instructions heading differ within their
      common length, so neither can be mistaken for the other. */
  predicate Separated(wd: Wording) {
    exists i :: 0 <= i < |wd.imageHeading| && i < |wd.instructionsHeading|
      && wd.imageHeading[i] != wd.instructionsHeading[i]
  }

  lemma SpanishSeparated()
    ensures Separated(Spanish)
  {
    assert Spanish.imageHeading[3] == 'A' && Spanish.instructionsHeading[3] == 'I';
  }

  /** The part of the message before the optional image section. */
  function MessageHead(wd: Wording, idea: string, style: string, context: string): string {
    wd.intro + idea + wd.styleHeading + style + wd.charactersHeading + context + "\n"
  }

  function ImageSection(wd: Wording, analysis: Option<string>): string {
    if Given(analysis) then wd.imageHeading + analysis.value + "\n" else ""
  }

  function MessageTail(wd: Wording, t: Templates): string {
    wd.instructionsHeading + t.systemA + wd.closing
  }

  /** Python truthiness of an optional text. */
  predicate Given(s: Option<string>) {
    s.Some? && Truthy(s.value)
  }

  /** `_build_user_message`: the head with the idea, style and characters,
      then the image section exactly when the analysis is truthy, then the
      instructions with the system prompt. */
  function UserMessage(wd: Wording, t: Templates, idea: string, style: string, context: string, analysis: Option<string>): (r: string)
    ensures var head := MessageHead(wd, idea, style, context);
      && StartsWith(r, head)
      && (Given(analysis) ==> StartsWith(r[|head|..], wd.imageHeading))
      && (Separated(wd) && StartsWith(r[|head|..], wd.imageHeading) ==> Given(analysis))
      && |MessageTail(wd, t)| <= |r| && r[|r| - |MessageTail(wd, t)|..] == MessageTail(wd, t)
  {
    var head := MessageHead(wd, idea, style, context);
    var image := ImageSection(wd, analysis);
    var tail := MessageTail(wd, t);
    var r := head + image + tail;
    Assoc(head, image, tail);
    ConcatParts(head, image + tail);
    ConcatParts(head + image, tail);
    assert Given(analysis) ==> StartsWith(r[|head|..], wd.imageHeading) by {
      if Given(analysis) {
        Assoc(wd.imageHeading, analysis.value + "\n", tail);
        ConcatParts(wd.imageHeading, analysis.value + "\n" + tail);
      }
    }
    assert Separated(wd) && !Given(analysis) ==> !StartsWith(r[|head|..], wd.imageHeading) by {
      if Separated(wd) && !Given(analysis) {
        assert image + tail == tail;
        var i :| 0 <= i < |wd.imageHeading| && i < |wd.instructionsHeading|
          && wd.imageHeading[i] != wd.instructionsHeading[i];
        assert tail[i] == wd.instructionsHeading[i];
      }
    }
    r
  }

  /** `s` sits at `|a|` in `a + s + b`, whatever the grouping of the rest. */
  lemma HeadMentions(a: string, idea: string, b: string, style: string, c: string, context: string, d: string, rest: string)
    ensures var r := a + idea + b + style + c + context + d + rest;
      && OccursAt(r, idea, |a|)
      && OccursAt(r, style, |a| + |idea| + |b|)
      && OccursAt(r, context, |a| + |idea| + |b| + |style| + |c|)
  {
    var r := a + idea + b + style + c + context + d + rest;
    assert r[|a|..|a| + |idea|] == idea;
    assert r[|a| + |idea| + |b|..|a| + |idea| + |b| + |style|] == style;
    var k := |a| + |idea| + |b| + |style| + |c|;
    assert r[k..k + |context|] == context;
  }

  /** The message carries the idea, the style and the character context in
      its head, and the system prompt and, when truthy, the image analysis
      after it, each at its place. */
  lemma UserMessageMentions(wd: Wording, t: Templates, idea: string, style: string, context: string, analysis: Option<string>)
    ensures var r := UserMessage(wd, t, idea, style, context, analysis);
      var head := MessageHead(wd, idea, style, context);
      && OccursAt(r, idea, |wd.intro|)
      && OccursAt(r, style, |wd.intro| + |idea| + |wd.styleHeading|)
      && OccursAt(r, context, |wd.intro| + |idea| + |wd.styleHeading| + |style| + |wd.charactersHeading|)
      && OccursAt(r, t.systemA, |r| - |wd.closing| - |t.systemA|)
      && (Given(analysis) ==> OccursAt(r, analysis.value, |head| + |wd.imageHeading|))
  {
    var head := MessageHead(wd, idea, style, context);
    var image := ImageSection(wd, analysis);
    var tail := MessageTail(wd, t);
    HeadMentions(wd.intro, idea, wd.styleHeading, style, wd.charactersHeading, context, "\n", image + tail);
    Assoc(head, image, tail);
    Assoc(head + image, wd.instructionsHeading + t.systemA, wd.closing);
    Assoc(head + image, wd.instructionsHeading, t.systemA);
    OccursBetween(head + image + wd.instructionsHeading, t.systemA, wd.closing);
    if Given(analysis) {
      Assoc(head, wd.imageHeading + analysis.value + "\n", tail);
      Assoc(head + wd.imageHeading, analysis.value, "\n");
      Assoc(head + wd.imageHeading + analysis.value, "\n", tail);
      OccursBetween(head + wd.imageHeading, analysis.value, "\n" + tail);
    }
  }

  /** A falsy analysis leaves no trace: the message is the one built
      without an image; a truthy one inserts exactly the image section
      between the characters and the instructions. */
  lemma ImageSectionInserted(wd: Wording, t: Templates, idea: string, style: string, context: string, analysis: Option<string>)
    ensures var plain := UserMessage(wd, t, idea, style, context, None);
      var head := MessageHead(wd, idea, style, context);
      && (!Given(analysis) ==> UserMessage(wd, t, idea, style, context, analysis) == plain)
      && (Given(analysis) ==>
            UserMessage(wd, t, idea, style, context, analysis)
              == plain[..|head|] + wd.imageHeading + analysis.value + "\n" + plain[|head|..])
  {
    var head := MessageHead(wd, idea, style, context);
    var tail := MessageTail(wd, t);
    assert ImageSection(wd, None) == "";
    assert head + "" + tail == head + tail;
    ConcatParts(head, tail);
  }

  // ------------------------------------------------------------ generation

  /** The dictionary `build_prompt` returns. */
  datatype Generation = Generation(
    promptEs: string,
    promptVideo: string,
    modelUsed: string,
    primaryModel: string,
    primaryStatus: string,
    fallbackModel: Option<string>)

  const StatusSuccess: string := "success"
  const StatusFailed: string := "failed"

  /** The provenance fields are consistent: a primary success names the
      primary model and no fallback; a primary failure names the vision
      model reached through OpenRouter. */
  predicate Provenance(cfg: Config, primary: string, g: Generation) {
    && g.primaryModel == primary
    && (g.primaryStatus == StatusSuccess || g.primaryStatus == StatusFailed)
    && (g.primaryStatus == StatusSuccess <==> g.fallbackModel.None?)
    && (g.primaryStatus == StatusSuccess ==> g.modelUsed == primary)
    && (g.primaryStatus == StatusFailed ==>
          g.fallbackModel == Some(cfg.modeloBVision) && g.modelUsed == "openrouter/" + cfg.modeloBVision)
  }

  /** The Gemini call `_call_gemini` retries: the user message, no system
      prompt. */
  function GeminiCall(cfg: Config, message: string): Call {
    Call(Gemini(cfg.modeloA), message)
  }

  function GeminiOp(cfg: Config, message: string): World -> Step<World> {
    (w: World) => var a := GeminiGenerate(cfg, w, message, None); Step(a.outcome, a.world)
  }

  /** One Gemini attempt receives the next outcome and records one call. */
  lemma GeminiStep(cfg: Config, message: string, w: World)
    ensures GeminiOp(cfg, message)(w)
         == Step(Next(w), w.(calls := w.calls + [GeminiCall(cfg, message)]))
  {
  }

  /** Retrying the Gemini call n times consumes the next n scripted
      outcomes and records n identical calls. */
  lemma {:induction false} GeminiRuns(cfg: Config, message: string, w: World, n: nat)
    ensures Outcomes(GeminiOp(cfg, message), w, n) == Upcoming(w, n)
    ensures StateAfter(GeminiOp(cfg, message), w, n)
         == w.(calls := w.calls + Repeat(GeminiCall(cfg, message), n))
    decreases n
  {
    GeminiOutcomes(cfg, message, w, n);
    GeminiStates(cfg, message, w, n);
  }

  lemma {:induction false} GeminiOutcomes(cfg: Config, message: string, w: World, n: nat)
    ensures Outcomes(GeminiOp(cfg, message), w, n) == Upcoming(w, n)
    decreases n
  {
    if n > 0 {
      var op := GeminiOp(cfg, message);
      var c := GeminiCall(cfg, message);
      var w1 := w.(calls := w.calls + [c]);
      GeminiStep(cfg, message, w);
      RunsUnfold(op, w, n);
      GeminiOutcomes(cfg, message, w1, n - 1);
      UpcomingCons(w, c, n);
      calc {
        Outcomes(op, w, n);
        [op(w).outcome] + Outcomes(op, op(w).state, n - 1);
        [Next(w)] + Outcomes(op, w1, n - 1);
        [Next(w)] + Upcoming(w1, n - 1);
        Upcoming(w, n);
      }
    }
  }

  lemma {:induction false} GeminiStates(cfg: Config, message: string, w: World, n: nat)
    ensures StateAfter(GeminiOp(cfg, message), w, n)
         == w.(calls := w.calls + Repeat(GeminiCall(cfg, message), n))
    decreases n
  {
    var c := GeminiCall(cfg, message);
    if n == 0 {
      assert w.calls + [] == w.calls;
    } else {
      var op := GeminiOp(cfg, message);
      var w1 := w.(calls := w.calls + [c]);
      GeminiStep(cfg, message, w);
      RunsUnfold(op, w, n);
      GeminiStates(cfg, message, w1, n - 1);
      assert w.calls + Repeat(c, n) == w1.calls + Repeat(c, n - 1);
    }
  }

  const VideoFallback: string :=
    "Cámara realiza un zoom suave hacia el sujeto principal. Luz envolvente con movimiento de pan sutil. Duración: 4-6 segundos. Transición suave al final."

  const VideoHeading: string := "\n\nPrompt fotográfico original:\n"
  const VideoClosing: string := "\n\nAhora genera la sugerencia específica de animación."

  /** `_generate_video_prompt`'s request. */
  function VideoRequest(t: Templates, promptEs: string): string {
    t.video + VideoHeading + promptEs + VideoClosing
  }

  /** `_generate_video_prompt`: Gemini, else OpenRouter on the vision
      model, else a fixed sentence. It never raises and makes one call
      when Gemini answers, two otherwise. */
  function GenerateVideoPrompt(cfg: Config, t: Templates, w: World, promptEs: string): (r: Said)
    ensures Extends(w, r.world)
    ensures var request := VideoRequest(t, promptEs);
      var second := ReplyAt(w.script, |w.calls| + 1);
      && (Next(w).Ok? ==>
            r.text == Next(w).text
            && CallsSince(w, r.world) == [GeminiCall(cfg, request)])
      && (Next(w).Err? ==>
            r.text == (if second.Ok? then second.text else VideoFallback)
            && CallsSince(w, r.world) == [GeminiCall(cfg, request), Call(OpenRouter(cfg.modeloBVision, None), request)])
  {
    var request := VideoRequest(t, promptEs);
    var g := GeminiGenerate(cfg, w, request, None);
    assert g.world.calls == w.calls + [GeminiCall(cfg, request)];
    match g.outcome
    case Ok(text) => Said(text, g.world)
    case Err(_) =>
      var o := OpenRouterGenerate(g.world, request, cfg.modeloBVision, None);
      assert o.world.calls == w.calls + [GeminiCall(cfg, request), Call(OpenRouter(cfg.modeloBVision, None), request)];
      match o.outcome
      case Ok(text) => Said(text, o.world)
      case Err(_) => Said(VideoFallback, o.world)
  }

  /** The video request carries the Spanish prompt right after the
      template and its heading. */
  lemma VideoRequestCarriesPrompt(t: Templates, promptEs: string)
    ensures OccursAt(VideoRequest(t, promptEs), promptEs, |t.video| + |VideoHeading|)
  {
    OccursBetween(t.video + VideoHeading, promptEs, VideoClosing);
  }

  /** `_translate_to_english`: one OpenAI translation. Translation never
      raises, so the Gemini retranslation and the return of the Spanish
      text after a Gemini failure are never reached; the Spanish text
      comes back only through the translation's own fallback. */
  function TranslateToEnglish(w: World, promptEs: string): (r: Said)
    ensures Extends(w, r.world)
    ensures CallsSince(w, r.world) == [Call(OpenAI, TranslationPrompt(promptEs, "español", "inglés"))]
    ensures Next(w).Ok? ==> r.text == Strip(Next(w).text)
    ensures Next(w).Err? ==> r.text == promptEs
  {
    TranslateText(w, promptEs, "español", "inglés")
  }

  /** The English prompt is `translate_text`'s handling of the one reply,
      and the Spanish prompt comes back exactly when that call failed or
      its stripped answer is the Spanish prompt itself. */
  lemma TranslateToEnglishFallback(w: World, promptEs: string)
    ensures var r := TranslateToEnglish(w, promptEs);
      && r.text == TranslateReply(promptEs, Decoded(Next(w)))
      && (r.text == promptEs <==> Next(w).Err? || Strip(Next(w).text) == promptEs)
  {
    TranslateTextReadsReply(w, promptEs, "español", "inglés");
  }

  /** What `build_prompt` produces: the result or the exception, the
      instance with its grown retry log, the world after all calls, and the
      waits of the retry loop. */
  datatype Built = Built(result: Result<Generation>, model: ModelA, world: World, waits: seq<int>)

  /** `ModelA.build_prompt`. The video step cannot raise, so the inner
      fallbacks for the video prompt after an OpenRouter success are never
      taken and are not part of the model. */
  function BuildPrompt(m: ModelA, cfg: Config, t: Templates, w: World, idea: string, style: string,
                       personajes: Option<seq<string>>, analysis: Option<string>): (r: Built)
    ensures Extends(w, r.world)
    ensures r.model.currentModel == m.currentModel
    ensures r.model.retry.maxRetries == m.retry.maxRetries && r.model.retry.delay == m.retry.delay
    ensures r.result.Success? ==> Provenance(cfg, m.currentModel, r.result.value)
  {
    BuildFrom(m, cfg, t, w, BuildMessage(m.wording, cfg, t, idea, style, personajes, analysis))
  }

  /** The `try`/`except` of `build_prompt` for a given user message: the
      retried Gemini call, else one OpenRouter call, each followed by the
      video step. */
  function BuildFrom(m: ModelA, cfg: Config, t: Templates, w: World, message: string): (r: Built)
    ensures Extends(w, r.world)
    ensures r.model.currentModel == m.currentModel
    ensures r.model.retry.maxRetries == m.retry.maxRetries && r.model.retry.delay == m.retry.delay
    ensures r.result.Success? ==> Provenance(cfg, m.currentModel, r.result.value)
  {
    var run := CallGemini(m.retry, cfg, w, message);
    var r := AfterPrimary(m, cfg, t, message, run);
    ExtendsTrans(w, run.state, r.world);
    r
  }

  /** What follows the retried Gemini stage. The video step cannot raise,
      so the inner fallbacks for the video prompt after an OpenRouter
      success are never taken and are not part of the model. */
  function AfterPrimary(m: ModelA, cfg: Config, t: Templates, message: string, run: Run<World>): (r: Built)
    ensures Extends(run.state, r.world)
    ensures r.model == m.(retry := run.handler) && r.waits == run.waits
    ensures r.result.Success? ==> Provenance(cfg, m.currentModel, r.result.value)
  {
    var m' := m.(retry := run.handler);
    match run.outcome
    case Ok(promptEs) =>
      var video := GenerateVideoPrompt(cfg, t, run.state, promptEs);
      Built(Success(Generation(promptEs, video.text, m.currentModel, m.currentModel, StatusSuccess, None)),
            m', video.world, run.waits)
    case Err(_) =>
      var fb := OpenRouterGenerate(run.state, message, cfg.modeloBVision, Some(t.systemA));
      assert Extends(run.state, fb.world);
      match fb.outcome
      case Ok(promptEs) =>
        var video := GenerateVideoPrompt(cfg, t, fb.world, promptEs);
        ExtendsTrans(run.state, fb.world, video.world);
        Built(Success(Generation(promptEs, video.text, "openrouter/" + cfg.modeloBVision, m.currentModel,
                                 StatusFailed, Some(cfg.modeloBVision))),
              m', video.world, run.waits)
      case Err(e) => Built(Failure(e), m', fb.world, run.waits)
  }

  /** The user message `build_prompt` sends. */
  function BuildMessage(wd: Wording, cfg: Config, t: Templates, idea: string, style: string,
                        personajes: Option<seq<string>>, analysis: Option<string>): string {
    UserMessage(wd, t, idea, style, CharactersContext(cfg, CharacterList(personajes)), analysis)
  }

  /** The OpenRouter call of the fallback: the user message to the vision
      model with the system prompt, made once and not retried. */
  function FallbackCall(cfg: Config, t: Templates, message: string): Call {
    Call(OpenRouter(cfg.modeloBVision, if SystemGiven(Some(t.systemA)) then Some(t.systemA) else None), message)
  }

  // ------------------------------------------------------------ Gemini stage

  /** `_call_gemini`: the Gemini call under the instance's retry handler. */
  function CallGemini(h: Handler, cfg: Config, w: World, message: string): (run: Run<World>)
    ensures Extends(w, run.state)
    ensures run.handler.maxRetries == h.maxRetries && run.handler.delay == h.delay
  {
    PrimaryRun(h, cfg, w, message);
    Execute(h, GeminiOp(cfg, message), w)
  }

  /** The retried Gemini stage only adds calls, and keeps the handler's
      parameters. */
  lemma PrimaryRun(h: Handler, cfg: Config, w: World, message: string)
    ensures var run := Execute(h, GeminiOp(cfg, message), w);
      && Extends(w, run.state)
      && run.handler.maxRetries == h.maxRetries && run.handler.delay == h.delay
  {
    var n := Remaining(h.maxRetries, 1);
    var run := Execute(h, GeminiOp(cfg, message), w);
    OkOrAllErr(Upcoming(w, n));
    if k: nat :| FirstOk(Upcoming(w, n), k) {
      CallGeminiSucceeds(h, cfg, w, message, k);
      assert run.state.calls[..|w.calls|] == w.calls;
    } else {
      CallGeminiExhausted(h, cfg, w, message);
      assert run.state.calls[..|w.calls|] == w.calls;
    }
  }

  /** Gemini answers first on attempt k+1: that answer, after k+1 calls,
      k log entries and k waits. */
  lemma CallGeminiSucceeds(h: Handler, cfg: Config, w: World, message: string, k: nat)
    requires FirstOk(Upcoming(w, Remaining(h.maxRetries, 1)), k)
    ensures Execute(h, GeminiOp(cfg, message), w)
         == Run(ReplyAt(w.script, |w.calls| + k),
                w.(calls := w.calls + Repeat(GeminiCall(cfg, message), k + 1)),
                h.(errorLog := h.errorLog + FailureLog(Upcoming(w, k), 1)),
                Schedule(h.delay, 1, k))
  {
    var op := GeminiOp(cfg, message);
    var n := Remaining(h.maxRetries, 1);
    GeminiOutcomes(cfg, message, w, n);
    GeminiStates(cfg, message, w, k + 1);
    ExecuteFirstOk(h, op, w, k);
    assert Upcoming(w, n)[..k] == Upcoming(w, k);
  }

  /** Every Gemini attempt fails: the exhaustion error naming the last
      failure, after n calls, n log entries and n-1 waits. */
  lemma CallGeminiExhausted(h: Handler, cfg: Config, w: World, message: string)
    requires AllErr(Upcoming(w, Remaining(h.maxRetries, 1)))
    ensures var n := Remaining(h.maxRetries, 1);
      Execute(h, GeminiOp(cfg, message), w)
        == Run(Err(ExhaustedMessage(h.maxRetries, LastError(w, n))),
               w.(calls := w.calls + Repeat(GeminiCall(cfg, message), n)),
               h.(errorLog := h.errorLog + FailureLog(Upcoming(w, n), 1)),
               Schedule(h.delay, 1, if n == 0 then 0 else n - 1))
  {
    var op := GeminiOp(cfg, message);
    var n := Remaining(h.maxRetries, 1);
    var outs := Outcomes(op, w, n);
    assert outs == Upcoming(w, n) by {
      GeminiOutcomes(cfg, message, w, n);
    }
    assert StateAfter(op, w, n) == w.(calls := w.calls + Repeat(GeminiCall(cfg, message), n)) by {
      GeminiStates(cfg, message, w, n);
    }
    assert LastError(w, n) == if n == 0 then None else Some(ErrorText(outs[n - 1]));
    ExecuteExhausted(h, op, w);
  }

  /** The message of the last of the next n failures, `None` for n = 0. */
  function LastError(w: World, n: nat): Option<string> {
    if n == 0 then None else Some(ErrorText(ReplyAt(w.script, |w.calls| + n - 1)))
  }

  // ------------------------------------------------------------ scenarios

  /** Gemini answers on attempt k+1 (k < max_retries): the result is that
      answer with `success` provenance, reached after exactly k+1 Gemini
      calls, k logged failures and k waits; the video step follows. */
  lemma BuildPrimarySucceeds(m: ModelA, cfg: Config, t: Templates, w: World, message: string, k: nat)
    requires FirstOk(Upcoming(w, Remaining(m.retry.maxRetries, 1)), k)
    ensures var r := BuildFrom(m, cfg, t, w, message);
      var w' := w.(calls := w.calls + Repeat(GeminiCall(cfg, message), k + 1));
      var text := ReplyAt(w.script, |w.calls| + k).text;
      && r.result.Success?
      && r.result.value.primaryStatus == StatusSuccess
      && r.result.value.promptEs == text
      && r.result.value.promptVideo == GenerateVideoPrompt(cfg, t, w', text).text
      && r.world == GenerateVideoPrompt(cfg, t, w', text).world
      && r.model.retry.errorLog == m.retry.errorLog + FailureLog(Upcoming(w, k), 1)
      && r.waits == Schedule(m.retry.delay, 1, k)
  {
    CallGeminiSucceeds(m.retry, cfg, w, message, k);
    assert Upcoming(w, Remaining(m.retry.maxRetries, 1))[k] == ReplyAt(w.script, |w.calls| + k);
  }

  /** What follows n failed Gemini calls made from `w`: the one OpenRouter
      call comes next; its error is raised as is and ends the run, while its
      answer becomes the prompt with `failed` provenance naming the vision
      model. */
  predicate FallbackShape(cfg: Config, t: Templates, w: World, message: string, n: nat, r: Built) {
    var fb := ReplyAt(w.script, |w.calls| + n);
    var calls := w.calls + Repeat(GeminiCall(cfg, message), n) + [FallbackCall(cfg, t, message)];
    && |calls| == |w.calls| + n + 1 <= |r.world.calls|
    && r.world.calls[..|w.calls| + n + 1] == calls
    && (fb.Err? ==> r.result.Failure? && Err(r.result.error) == fb && r.world.calls == calls)
    && (fb.Ok? ==>
          && r.result.Success?
          && r.result.value.primaryStatus == StatusFailed
          && r.result.value.fallbackModel == Some(cfg.modeloBVision)
          && Ok(r.result.value.promptEs) == fb
          && r.result.value.modelUsed == "openrouter/" + cfg.modeloBVision
          && r.result.value.promptVideo == GenerateVideoPrompt(cfg, t, w.(calls := calls), fb.text).text
          && r.world == GenerateVideoPrompt(cfg, t, w.(calls := calls), fb.text).world)
  }

  /** Every Gemini attempt fails: after the n retried calls the single
      OpenRouter call decides the result. */
  lemma BuildExhausted(m: ModelA, cfg: Config, t: Templates, w: World, message: string)
    requires AllErr(Upcoming(w, Remaining(m.retry.maxRetries, 1)))
    ensures FallbackShape(cfg, t, w, message, Remaining(m.retry.maxRetries, 1), BuildFrom(m, cfg, t, w, message))
  {
    var n := Remaining(m.retry.maxRetries, 1);
    CallGeminiExhausted(m.retry, cfg, w, message);
    AfterExhaustedStage(m, cfg, t, message, w, n, CallGemini(m.retry, cfg, w, message));
  }

  /** Read off the failing case of the fallback shape. */
  lemma ShapeFails(cfg: Config, t: Templates, w: World, message: string, n: nat, r: Built)
    requires FallbackShape(cfg, t, w, message, n, r)
    requires ReplyAt(w.script, |w.calls| + n).Err?
    ensures r.result.Failure? && Err(r.result.error) == ReplyAt(w.script, |w.calls| + n)
  {
  }

  /** What follows a failed stage of n Gemini calls made from `w`. */
  lemma AfterExhaustedStage(m: ModelA, cfg: Config, t: Templates, message: string, w: World, n: nat, run: Run<World>)
    requires run.outcome.Err?
    requires run.state == w.(calls := w.calls + Repeat(GeminiCall(cfg, message), n))
    ensures FallbackShape(cfg, t, w, message, n, AfterPrimary(m, cfg, t, message, run))
  {
    NextAfter(w, Repeat(GeminiCall(cfg, message), n));
    AfterPrimaryFallback(m, cfg, t, message, run);
  }

  /** When every Gemini attempt fails, whatever OpenRouter answers, the
      instance's log gains one entry per attempt, numbered from 1, and the
      waits are the doubling schedule between them. */
  lemma BuildExhaustedLog(m: ModelA, cfg: Config, t: Templates, w: World, message: string)
    requires AllErr(Upcoming(w, Remaining(m.retry.maxRetries, 1)))
    ensures var r := BuildFrom(m, cfg, t, w, message);
      var n := Remaining(m.retry.maxRetries, 1);
      && r.model.retry.errorLog == m.retry.errorLog + FailureLog(Upcoming(w, n), 1)
      && r.waits == Schedule(m.retry.delay, 1, if n == 0 then 0 else n - 1)
  {
    CallGeminiExhausted(m.retry, cfg, w, message);
  }

  /** After a failed Gemini stage the result is decided by the one
      OpenRouter call: its error is raised as is. */
  lemma AfterPrimaryFallback(m: ModelA, cfg: Config, t: Templates, message: string, run: Run<World>)
    requires run.outcome.Err?
    ensures var r := AfterPrimary(m, cfg, t, message, run);
      var fb := Next(run.state);
      && r.model == m.(retry := run.handler)
      && |run.state.calls| + 1 <= |r.world.calls|
      && r.world.calls[..|run.state.calls| + 1] == run.state.calls + [FallbackCall(cfg, t, message)]
      && (fb.Err? ==> r.result == Failure(fb.msg) && r.world.calls == run.state.calls + [FallbackCall(cfg, t, message)])
      && (fb.Ok? ==>
            && r.result.Success?
            && r.result.value.primaryStatus == StatusFailed
            && r.result.value.fallbackModel == Some(cfg.modeloBVision)
            && r.result.value.promptEs == fb.text
            && r.result.value.modelUsed == "openrouter/" + cfg.modeloBVision
            && var after := run.state.(calls := run.state.calls + [FallbackCall(cfg, t, message)]);
               && r.result.value.promptVideo == GenerateVideoPrompt(cfg, t, after, fb.text).text
               && r.world == GenerateVideoPrompt(cfg, t, after, fb.text).world)
  {
    var fb := OpenRouterGenerate(run.state, message, cfg.modeloBVision, Some(t.systemA));
    assert fb.world.calls == run.state.calls + [FallbackCall(cfg, t, message)];
    var r := AfterPrimary(m, cfg, t, message, run);
    assert r.world.calls[..|fb.world.calls|] == fb.world.calls;
  }
}
