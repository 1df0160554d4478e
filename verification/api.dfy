/** The provider wrappers of api_integration.py: Gemini model-id
    normalisation, request construction for Gemini and OpenRouter,
    response-text extraction, translation with fall-back to the original
    text, the availability probe and the image-URL placeholder. */
module Api {
  import opened Common
  import opened PyStr
  import opened Config
  import opened Providers

  const GeminiBaseUrl: string := "https://generativelanguage.googleapis.com/v1beta/models"
  const OpenRouterUrl: string := "https://openrouter.ai/api/v1/chat/completions"
  const OpenAIUrl: string := "https://api.openai.com/v1/chat/completions"
  const MaxTokens: int := 2048
  const GeminiTopK: int := 40

  // ------------------------------------------------------------ model ids

  /** First step of the normalisation: the text after the last '/'. */
  function LastSegment(id: string): (r: string)
    ensures !Contains(r, "/")
    ensures !Contains(id, "/") ==> r == id
    ensures Contains(id, "/") ==> |r| < |id| && id[|id| - |r| - 1..] == "/" + r
  {
    if Contains(id, "/") then
      AfterLastSuffix(id, "/");
      AfterLast(id, "/")
    else id
  }

  /** The model id Gemini is addressed with: the last '/'-segment of the
      configured id, cut before its first ':'. (The `models/` branch in
      between never fires; see `ModelsPrefixUnreachable`.) */
  function NormalizeModelId(id: string): (r: string)
    ensures !Contains(r, "/") && !Contains(r, ":")
    ensures StartsWith(LastSegment(id), r)
    ensures !Contains(LastSegment(id), ":") ==> r == LastSegment(id)
    ensures Contains(LastSegment(id), ":") ==> StartsWith(LastSegment(id), r + ":")
  {
    var seg := LastSegment(id);
    if Contains(seg, ":") then
      var parts := Split(seg, ":");
      JoinHead(parts, ":");
      NotContainsSlice(seg, "/", 0, |parts[0]|);
      assert seg[0..|parts[0]|] == parts[0];
      assert seg == parts[0] + ":" + Join(parts[1..], ":");
      assert seg[..|parts[0] + ":"|] == parts[0] + ":";
      parts[0]
    else seg
  }

  /** After the last-segment step no '/' is left, so the id can never
      start with "models/": that branch of the normalisation is dead. */
  lemma ModelsPrefixUnreachable(id: string)
    ensures !StartsWith(LastSegment(id), "models/")
  {
    var seg := LastSegment(id);
    if StartsWith(seg, "models/") {
      assert OccursAt(seg, "/", 6);
    }
  }

  /** Normalising is idempotent, and an id is left unchanged exactly
      when it holds neither '/' nor ':'. */
  lemma NormalizeFixpoints(id: string)
    ensures NormalizeModelId(NormalizeModelId(id)) == NormalizeModelId(id)
    ensures NormalizeModelId(id) == id <==> (!Contains(id, "/") && !Contains(id, ":"))
  {
  }

  /** The generateContent URL for the configured model. */
  function GeminiUrl(model: string): string {
    GeminiBaseUrl + "/" + NormalizeModelId(model) + ":generateContent"
  }

  // ------------------------------------------------------------ requests

  /** Python truthiness of an optional system prompt. */
  predicate SystemGiven(system: Option<string>) {
    system.Some? && Truthy(system.value)
  }

  /** A JSON string field: missing, `null`, or a string. */
  datatype JsonText = Absent | Null | Text(value: string)

  datatype GeminiPart = GeminiPart(text: JsonText)
  datatype GeminiMessage = GeminiMessage(role: string, parts: seq<GeminiPart>)
  datatype GenerationConfig = GenerationConfig(topK: int, maxOutputTokens: int)
  datatype GeminiPayload = GeminiPayload(contents: seq<GeminiMessage>, generationConfig: GenerationConfig)

  /** The single text Gemini receives. */
  function GeminiText(prompt: string, system: Option<string>): string {
    if SystemGiven(system) then system.value + "\n\n" + prompt else prompt
  }

  /** The `contents` of a Gemini request: one user message with one part,
      whose text is the system prompt, a blank line and the prompt when a
      system prompt is given, and the prompt alone otherwise. */
  function GeminiContents(prompt: string, system: Option<string>): (r: seq<GeminiMessage>)
    ensures |r| == 1 && r[0].role == "user" && |r[0].parts| == 1 && r[0].parts[0].text.Text?
    ensures var t := r[0].parts[0].text.value;
      && |prompt| <= |t| && t[|t| - |prompt|..] == prompt
      && (t == prompt <==> !SystemGiven(system))
      && (SystemGiven(system) ==> t == system.value + "\n\n" + prompt)
  {
    var t := GeminiText(prompt, system);
    [GeminiMessage("user", [GeminiPart(Text(t))])]
  }

  function GeminiRequest(prompt: string, system: Option<string>): GeminiPayload {
    GeminiPayload(GeminiContents(prompt, system), GenerationConfig(GeminiTopK, MaxTokens))
  }

  /** The system prompt, when given, is the text before the first blank
      line of the Gemini text, so it can be read back, as long as it holds
      no blank line and does not end in a newline. */
  lemma GeminiSystemReadBack(prompt: string, system: Option<string>)
    requires SystemGiven(system) && !Contains(system.value, "\n\n")
    requires system.value[|system.value| - 1] != '\n'
    ensures var t := GeminiContents(prompt, system)[0].parts[0].text.value;
      Split(t, "\n\n")[0] == system.value
  {
    var sys := system.value;
    var t := sys + "\n\n" + prompt;
    var parts := Split(t, "\n\n");
    assert t[|sys|..|sys| + 2] == "\n\n";
    assert OccursAt(t, "\n\n", |sys|);
    SplitLeftmost(t, "\n\n", 0);
    var i := IndexFrom(t, "\n\n", 0).value;
    assert t[|sys|..|sys| + 2] == "\n\n";
    assert i <= |sys| by {
      assert OccursAt(t, "\n\n", |sys|);
    }
    if i < |sys| {
      assert t[i..i + 2] == "\n\n";
      assert sys[i..i + 2] == t[i..i + 2];
      assert OccursAt(sys, "\n\n", i);
      assert false;
    }
    assert t[..|sys|] == sys;
    JoinHead(parts, "\n\n");
  }

  /** The Gemini text carries the OpenRouter messages for the same call:
      the system message, a blank line and the user message, or the user
      message alone. */
  lemma GeminiCarriesChat(prompt: string, system: Option<string>)
    ensures var t := GeminiContents(prompt, system)[0].parts[0].text.value;
      var msgs := ChatMessages(prompt, system);
      t == (if |msgs| == 2 then msgs[0].content + "\n\n" + msgs[1].content
            else msgs[0].content)
  {
  }

  datatype ChatMessage = ChatMessage(role: string, content: string)
  datatype ChatPayload = ChatPayload(model: string, messages: seq<ChatMessage>, maxTokens: int)

  /** The OpenRouter `messages`: a system message exactly when a system
      prompt is given, then exactly one user message with the prompt. */
  function ChatMessages(prompt: string, system: Option<string>): (r: seq<ChatMessage>)
    ensures |r| == (if SystemGiven(system) then 2 else 1)
    ensures r[|r| - 1] == ChatMessage("user", prompt)
    ensures SystemGiven(system) ==> r[0] == ChatMessage("system", system.value)
    ensures forall k :: 0 <= k < |r| - 1 ==> r[k].role == "system"
  {
    (if SystemGiven(system) then [ChatMessage("system", system.value)] else [])
      + [ChatMessage("user", prompt)]
  }

  function ChatRequest(prompt: string, model: string, system: Option<string>): ChatPayload {
    ChatPayload(model, ChatMessages(prompt, system), MaxTokens)
  }

  // ------------------------------------------------------------ calls

  /** `GeminiAPI.generate_text(prompt, system_prompt)`: one call to the
      configured Gemini model. */
  function GeminiGenerate(cfg: Config, w: World, prompt: string, system: Option<string>): Answer {
    Invoke(w, Call(Gemini(cfg.modeloA), GeminiText(prompt, system)))
  }

  /** `OpenRouterAPI.generate_text(prompt, model, system_prompt)`: one call;
      a timeout is one failed call. */
  function OpenRouterGenerate(w: World, prompt: string, model: string, system: Option<string>): Answer {
    Invoke(w, Call(OpenRouter(model, if SystemGiven(system) then system else None), prompt))
  }

  // ------------------------------------------------------------ responses

  datatype GeminiContent = GeminiContent(parts: Option<seq<GeminiPart>>)
  datatype GeminiCandidate = GeminiCandidate(content: Option<GeminiContent>)
  /** A decoded Gemini reply; `None` stands for a missing key. */
  datatype GeminiData = GeminiData(candidates: Option<seq<GeminiCandidate>>)

  const NoGeminiText: string := "No se obtuvo texto de la respuesta de Gemini"
  /** `str(IndexError)` for indexing an empty list. */
  const ListIndexError: string := "list index out of range"

  /** The reply has a first candidate whose content has a `parts` list. */
  predicate HasParts(d: GeminiData) {
    && d.candidates.Some? && |d.candidates.value| > 0
    && d.candidates.value[0].content.Some?
    && d.candidates.value[0].content.value.parts.Some?
  }

  /** `str(TypeError)` for `len(None)`. */
  const NoneLenError: string := "object of type 'NoneType' has no len()"

  /** The first part of the first candidate, when there is one. */
  function FirstPart(d: GeminiData): (p: Option<GeminiPart>)
    ensures p.Some? <==> HasParts(d) && |d.candidates.value[0].content.value.parts.value| > 0
  {
    if HasParts(d) && |d.candidates.value[0].content.value.parts.value| > 0
    then Some(d.candidates.value[0].content.value.parts.value[0])
    else None
  }

  /** The text of `candidates[0].content.parts[0]`, `''` when that part has
      no `text` key; a `null` text fails at `len(text)` with `TypeError`,
      an empty `parts` list raises `IndexError`, and a reply without
      candidates, content or parts raises. */
  function ExtractGemini(d: GeminiData): (r: Outcome)
    ensures r.Ok? <==> FirstPart(d).Some? && !FirstPart(d).value.text.Null?
    ensures r.Ok? && FirstPart(d).value.text.Text? ==> r.text == FirstPart(d).value.text.value
    ensures r.Ok? && FirstPart(d).value.text.Absent? ==> r.text == ""
    ensures r.Err? ==> r.msg == (if !HasParts(d) then NoGeminiText
                                 else if FirstPart(d).None? then ListIndexError
                                 else NoneLenError)
  {
    if d.candidates.Some? && |d.candidates.value| > 0 then
      var candidate := d.candidates.value[0];
      if candidate.content.Some? && candidate.content.value.parts.Some? then
        var parts := candidate.content.value.parts.value;
        if |parts| == 0 then Err(ListIndexError)
        else match parts[0].text
          case Absent => Ok("")
          case Null => Err(NoneLenError)
          case Text(t) => Ok(t)
      else Err(NoGeminiText)
    else Err(NoGeminiText)
  }

  /** A well-formed Gemini reply carrying `t`, from which extraction
      reads `t` back. */
  function GeminiReply(t: string): (d: GeminiData)
    ensures ExtractGemini(d) == Ok(t)
  {
    GeminiData(Some([GeminiCandidate(Some(GeminiContent(Some([GeminiPart(Text(t))]))))]))
  }

  datatype ReplyMessage = ReplyMessage(content: JsonText)
  datatype ChatChoice = ChatChoice(message: Option<ReplyMessage>)
  /** A decoded chat-completion reply; `None` stands for a missing key. */
  datatype ChatData = ChatData(choices: Option<seq<ChatChoice>>)

  const NoOpenRouterText: string := "No se obtuvo texto de OpenRouter"
  const NoTranslation: string := "No se obtuvo traducción"

  /** The reply has a first choice. */
  predicate HasChoice(d: ChatData) {
    d.choices.Some? && |d.choices.value| > 0
  }

  /** `choices[0].message.content` when `choices` is non-empty (a missing
      key raises `KeyError`, whose text is the quoted key, and a `null`
      content fails at `len(text)` with `TypeError`); otherwise the given
      error. */
  function ExtractChat(d: ChatData, noText: string): (r: Outcome)
    ensures r.Ok? <==> HasChoice(d) && d.choices.value[0].message.Some?
                       && d.choices.value[0].message.value.content.Text?
    ensures r.Ok? ==> r.text == d.choices.value[0].message.value.content.value
    ensures r.Err? ==> r.msg == (if !HasChoice(d) then noText
                                 else if d.choices.value[0].message.None? then "'message'"
                                 else if d.choices.value[0].message.value.content.Absent? then "'content'"
                                 else NoneLenError)
  {
    if d.choices.Some? && |d.choices.value| > 0 then
      match d.choices.value[0].message
      case None => Err("'message'")
      case Some(m) =>
        match m.content
        case Absent => Err("'content'")
        case Null => Err(NoneLenError)
        case Text(t) => Ok(t)
    else Err(noText)
  }

  /** A well-formed chat-completion reply carrying `t`, from which
      extraction reads `t` back. */
  function ChatReply(t: string): (d: ChatData)
    ensures forall noText :: ExtractChat(d, noText) == Ok(t)
  {
    ChatData(Some([ChatChoice(Some(ReplyMessage(Text(t))))]))
  }

  /** The text `OpenRouterAPI.generate_text` returns for a decoded reply. */
  function ExtractOpenRouter(d: ChatData): Outcome {
    ExtractChat(d, NoOpenRouterText)
  }

  /** `OpenAIAPI.translate_text` on a reply that was received (`Success`)
      or failed in transport (`Failure`): the stripped translation, or
      the original text whenever anything goes wrong. It never raises. */
  function TranslateReply(text: string, reply: Result<ChatData>): (r: string)
    ensures (reply.Failure? || ExtractChat(reply.value, NoTranslation).Err?) ==> r == text
    ensures (reply.Success? && ExtractChat(reply.value, NoTranslation).Ok?) ==>
      r == Strip(ExtractChat(reply.value, NoTranslation).text)
  {
    match reply
    case Failure(_) => text
    case Success(d) =>
      match ExtractChat(d, NoTranslation)
      case Ok(t) => Strip(t)
      case Err(_) => text
  }

  function TranslationPrompt(text: string, fromLang: string, toLang: string): string {
    "Traduce el siguiente texto de " + fromLang + " a " + toLang
      + ". \nSolo devuelve el texto traducido, sin explicaciones adicionales.\n\nTexto original:\n" + text
  }

  datatype Said = Said(text: string, world: World)

  /** `translate_text` as one scripted OpenAI call: the stripped reply, or
      the original text when the call fails. */
  function TranslateText(w: World, text: string, fromLang: string, toLang: string): (r: Said)
    ensures Extends(w, r.world) && CallsSince(w, r.world) == [Call(OpenAI, TranslationPrompt(text, fromLang, toLang))]
    ensures r.text == (if Next(w).Ok? then Strip(Next(w).text) else text)
  {
    var a := Invoke(w, Call(OpenAI, TranslationPrompt(text, fromLang, toLang)));
    match a.outcome
    case Ok(t) => Said(Strip(t), a.world)
    case Err(_) => Said(text, a.world)
  }

  /** A scripted outcome as the decoded reply it stands for: a reply
      carrying the text, or a failed request. */
  function Decoded(o: Outcome): (r: Result<ChatData>)
    ensures r.Success? <==> o.Ok?
    ensures o.Ok? ==> ExtractChat(r.value, NoTranslation) == Ok(o.text)
  {
    match o
    case Ok(t) => Success(ChatReply(t))
    case Err(e) => Failure(e)
  }

  /** The scripted translation is `translate_text`'s handling of the
      reply its one call received. */
  lemma TranslateTextReadsReply(w: World, text: string, fromLang: string, toLang: string)
    ensures TranslateText(w, text, fromLang, toLang).text == TranslateReply(text, Decoded(Next(w)))
  {
  }

  // ------------------------------------------------------------ probes

  datatype Probe = Probe(flags: map<string, bool>, world: World)

  /** `APIIntegration.validate_apis()`: a "test" call to each provider, each
      flag true when its call did not raise. Translation never raises, so
      the OpenAI flag is always true, whatever its call returned. */
  function ValidateApis(cfg: Config, w: World): (r: Probe)
    ensures r.flags.Keys == {"gemini", "openrouter", "openai"}
    ensures r.flags["gemini"] <==> ReplyAt(w.script, |w.calls|).Ok?
    ensures r.flags["openrouter"] <==> ReplyAt(w.script, |w.calls| + 1).Ok?
    ensures r.flags["openai"]
    ensures Extends(w, r.world) && CallsSince(w, r.world) == [
      Call(Gemini(cfg.modeloA), "test"),
      Call(OpenRouter(cfg.modeloBVision, None), "test"),
      Call(OpenAI, TranslationPrompt("test", "es", "en"))]
  {
    var c1 := Call(Gemini(cfg.modeloA), "test");
    var c2 := Call(OpenRouter(cfg.modeloBVision, None), "test");
    var c3 := Call(OpenAI, TranslationPrompt("test", "es", "en"));
    var g := GeminiGenerate(cfg, w, "test", None);
    var o := OpenRouterGenerate(g.world, "test", cfg.modeloBVision, None);
    var t := TranslateText(o.world, "test", "es", "en");
    assert g.world == w.(calls := w.calls + [c1]);
    assert o.world == w.(calls := w.calls + [c1, c2]) && o.outcome == ReplyAt(w.script, |w.calls| + 1) by {
      assert w.calls + [c1] + [c2] == w.calls + [c1, c2];
    }
    assert t.world == w.(calls := w.calls + [c1, c2, c3]) by {
      assert t.world == o.world.(calls := o.world.calls + [c3]);
      assert w.calls + [c1, c2] + [c3] == w.calls + [c1, c2, c3];
    }
    assert (w.calls + [c1, c2, c3])[|w.calls|..] == [c1, c2, c3];
    ProbeKeysDistinct();
    Probe(map["gemini" := g.outcome.Ok?, "openrouter" := o.outcome.Ok?, "openai" := true], t.world)
  }

  /** The three flag names are distinct. */
  lemma ProbeKeysDistinct()
    ensures "gemini" != "openrouter" && "gemini" != "openai" && "openrouter" != "openai"
  {
    assert "gemini"[0] != "openrouter"[0] && "gemini"[0] != "openai"[0];
    assert "openrouter"[4] != "openai"[4];
  }

  /** Each flag of `validate_apis` is whether that provider's own client,
      called on "test" in turn, succeeded. */
  lemma ValidateApisProbes(cfg: Config, w: World)
    ensures var g := GeminiGenerate(cfg, w, "test", None);
      var o := OpenRouterGenerate(g.world, "test", cfg.modeloBVision, None);
      var r := ValidateApis(cfg, w);
      && r.flags["gemini"] == g.outcome.Ok?
      && r.flags["openrouter"] == o.outcome.Ok?
      && r.world == TranslateText(o.world, "test", "es", "en").world
  {
  }

  // ------------------------------------------------------------ image URL

  const DefaultImageInstruction: string :=
    "Describe esta imagen con enfoque fotográfico: \n- Pose exacta del sujeto\n- Prendas de vestir (textura/color)\n- Entorno detallado\n- Iluminación y composición de cámara\n- Atmósfera general\n\nSé técnico y directo."

  const ImagePlaceholderHead: string := "Imagen analizada. Prompt personalizado: "

  /** `VisionAnalyzer.analyze_image_url`: no provider is called; the result
      is a placeholder embedding the first 100 characters of the
      instruction, which is the default one when `prompt` is falsy. */
  function AnalyzeImageUrl(imageUrl: string, prompt: Option<string>): (r: string)
    ensures var instruction := if SystemGiven(prompt) then prompt.value else DefaultImageInstruction;
      var shown := Min(100, |instruction|);
      && |r| == |ImagePlaceholderHead| + shown + 3
      && StartsWith(r, ImagePlaceholderHead)
      && r[|ImagePlaceholderHead|..|ImagePlaceholderHead| + shown] == instruction[..shown]
      && r[|r| - 3..] == "..."
  {
    var instruction := if SystemGiven(prompt) then prompt.value else DefaultImageInstruction;
    var shown := Slice(instruction, 0, 100);
    var r := ImagePlaceholderHead + shown + "...";
    assert r[|ImagePlaceholderHead|..|ImagePlaceholderHead| + |shown|] == shown;
    r
  }

  /** A truthy prompt of at most 100 characters is quoted whole, and the
      image URL plays no part in the result. */
  lemma AnalyzeImageUrlQuotes(imageUrl: string, otherUrl: string, prompt: Option<string>)
    requires SystemGiven(prompt) && |prompt.value| <= 100
    ensures AnalyzeImageUrl(imageUrl, prompt) == ImagePlaceholderHead + prompt.value + "..."
    ensures AnalyzeImageUrl(imageUrl, prompt) == AnalyzeImageUrl(otherUrl, prompt)
  {
    var r := AnalyzeImageUrl(imageUrl, prompt);
    var h := |ImagePlaceholderHead|;
    assert r[..h] == ImagePlaceholderHead;
    assert r[h..h + |prompt.value|] == prompt.value;
    assert r == r[..h] + r[h..h + |prompt.value|] + r[|r| - 3..];
  }
}
