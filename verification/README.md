# Prompt chain for photographic and animation prompts, in Dafny

The service turns a user's idea into a detailed photographic prompt in
Spanish plus a camera-movement suggestion. It does this through a chain of
text providers. Gemini builds the prompt under a retry handler with
exponential backoff. One OpenRouter call is the fallback when Gemini keeps
failing. A vision model on OpenRouter can analyse a reference image first,
switching to a backup model when the configured one fails. A derived video
suggestion degrades in three levels and never fails. The HTTP handlers read
three marked sections out of a model reply and answer with the provenance
of the text. Prompts can be saved as favorites, which are kept in a CSV
store.

This project models that logic as immutable data and pure functions:

- **Provider calls.** Every provider call is one step on a `World`, a
  scripted sequence of `Ok(text)` / `Err(msg)` outcomes plus the log of
  calls made so far. This makes the number, order and content of the calls
  exact.
- **Retry loop.** The loop is generic over the operation it repeats. It is
  related to a reference definition, "run the operation n times in a row",
  which gives the error log, the wait schedule and the final state
  exactly.
- **Waits.** The waits are returned as a list of seconds and are never
  slept.
- **Python strings.** Python's `split`, `strip`, clamped slicing, `in`,
  `startswith` and `str(int)` are modelled in `PyStr`, so the marker
  parser can be stated and proved in the source's own terms.
- **Favorites.** The store is a `seq<Record>` in file order.

Modules: `Common` (Option, Outcome, Result), `PyStr`, `Config`
(`ModelConfig`), `Providers` (the scripted world), `Api` (the provider
wrappers), `Retry` (`RetryHandler`), `PromptBuilder` (`ModelA`), `Vision`
(`ModelB`), `Animation` (`AnimationModule`), `Orchestrator`
(`PromptChainOrchestrator`), `Sections` (the marker parser), `Routes` (the
prompt handlers) and `Favorites` (`CSVHandler`).

## Model

| member | source | states |
|---|---|---|
| Config.FromEnv | models.py:14-37 | Each of the eleven settings is the value of its environment variable when that is set (`MODELO_A_LOGICO` for the primary model) and its own default otherwise: the sentinel "not_configured" for an API key, 3 attempts and 2 seconds for the retry settings |
| Config.ValidateKeys | models.py:40-46 | Exactly the keys openrouter, gemini, openai; each flag is false iff that key equals the sentinel |
| Config.UnsetKeyInvalid | models.py:14-16 | A key variable that is not set validates as false; one set to "" still validates as true |
| Config.Ready | main.py:97-104 | The health check's `ready` holds iff none of the three keys is the sentinel |
| Config.DefaultsAreThreeAndTwo | models.py:29-30 | With nothing set, 3 attempts and a 2-second delay, and the service is not ready |
| Providers.Invoke | api_integration.py:74-91 | One provider call records exactly that call, leaves the script alone, and receives the next scripted outcome |
| Api.NormalizeModelId | api_integration.py:50-56 | The Gemini model id is the last "/"-segment cut before its first ":": when the segment holds a ":" the id followed by ":" starts the segment, otherwise the id is the whole segment; it holds neither "/" nor ":" |
| Api.LastSegment | api_integration.py:51-52 | With a "/" in the id, the result is what follows the last "/": the id ends with "/" and the result, which holds no "/"; an id without "/" is kept as is |
| Api.ModelsPrefixUnreachable | api_integration.py:53-54 | After taking the last segment the id can never start with "models/", so that branch is dead |
| Api.NormalizeFixpoints | api_integration.py:50-56 | Normalising is idempotent, and an id is left unchanged iff it holds neither "/" nor ":" |
| Api.GeminiContents | api_integration.py:34-45 | One user message with one text part: exactly the system prompt, a blank line and the prompt when a truthy system prompt is given, and the prompt alone otherwise |
| Api.GeminiSystemReadBack | api_integration.py:36-40 | A system prompt without a blank line and not ending in a newline is the text before the first blank line of the Gemini text, so it can be told apart from the prompt |
| Api.GeminiCarriesChat | api_integration.py:34-45 | The Gemini text is the OpenRouter messages of the same call joined by a blank line: the system message, a blank line and the user message, or the user message alone |
| Api.ChatMessages | api_integration.py:131-142 | A system message first iff the system prompt is truthy, then exactly one user message carrying the prompt |
| Api.ExtractGemini | api_integration.py:86-93 | Succeeds iff there is a first part and its text is not JSON null; the text is that part's text, or "" when it has no text key; an empty parts list raises IndexError, a null text raises TypeError at `len(text)`, and a reply without candidates, content or parts raises the "no text" error |
| Api.GeminiReply | api_integration.py:86-91 | A Gemini reply built around a text gives that text back on extraction |
| Api.ExtractChat | api_integration.py:158-163 | A success exactly when the first choice has a message with string content, and then it is that content; otherwise the "no text" error without choices, the quoted missing key "'message'" or "'content'", or the TypeError text "object of type 'NoneType' has no len()" for a null content |
| Api.ChatReply | api_integration.py:158-161 | A chat reply built around a text gives that text back on extraction, whatever the "no text" message |
| Api.TranslateReply | api_integration.py:225-236 | The stripped translation when the reply carries one; the original text on any failure, so it never raises |
| Api.TranslateText | api_integration.py:183-236 | Exactly one OpenAI call with the translation request; its stripped answer, or the original text when that call fails |
| Api.TranslateTextReadsReply | api_integration.py:225-236 | The scripted translation is exactly `translate_text`'s handling of the reply its one call received |
| Api.ValidateApis | api_integration.py:284-319 | Exactly the keys gemini/openrouter/openai; the first two are true iff their "test" call answered; openai is always true; the three calls are made in that order |
| Api.ValidateApisProbes | api_integration.py:284-319 | Each flag is whether that provider's own client, called on "test" after the probes before it, succeeded; the world after is the one the translation probe leaves |
| Api.AnalyzeImageUrl | api_integration.py:253-269 | No call is made; the placeholder head, then the first 100 characters of the instruction (the default one when the prompt is falsy), then "..." |
| Api.AnalyzeImageUrlQuotes | api_integration.py:253-269 | A truthy instruction of at most 100 characters is quoted whole between the head and "...", and the image URL plays no part |
| Retry.NewHandler | prompts_handler.py:18-22 | A given non-zero count or delay is kept; a missing or zero one becomes the configured value; the log starts empty |
| Retry.FailureLog | prompts_handler.py:38-42 | One entry per failed attempt, numbered consecutively from the first attempt, carrying the error text and the model "unknown" |
| Retry.Loop | prompts_handler.py:28-50 | The log only grows at the end, by at most one entry per remaining attempt and by exactly that many when the loop fails; waits are only appended |
| Retry.LoopFirstOk | prompts_handler.py:28-47 | From any attempt, when the k-th remaining run is the first success: that outcome, the state after k+1 runs, k log entries and the backoff waits for those k failures |
| Retry.LoopAllErr | prompts_handler.py:28-50 | From any attempt, when every remaining run fails: the exhaustion error with the last message, the state after all runs, one entry per run and no wait after the final one |
| Retry.ExecuteFirstOk | prompts_handler.py:28-47 | A first success on attempt k+1 is returned at once: exactly k+1 runs, the log grows by k entries numbered 1..k, and the waits are delay·2^(i-1) for i = 1..k |
| Retry.ExecuteExhausted | prompts_handler.py:28-50 | When all max_retries attempts fail: "Fallos después de N intentos: <last error>", one log entry per attempt, max-1 waits totalling delay·(2^(max-1)-1) |
| Retry.ScheduleSum | prompts_handler.py:44-47 | The c waits from attempt a add up to delay·2^(a-1)·(2^c-1) |
| Retry.ExecuteReachedState | prompts_handler.py:28-33 | The loop never runs the operation more than max_retries times |
| PromptBuilder.NewModelA | prompts_handler.py:55-58 | The instance reports the configured Gemini model and starts with an empty log and the configured retry parameters |
| PromptBuilder.CharacterList | prompts_handler.py:70 | A non-empty list is kept as given; None or an empty list becomes ["ninguno"] |
| PromptBuilder.CharactersContext | prompts_handler.py:142-151 | Starts with Andy's line iff "andy" is named; is "Sin personajes específicos" iff neither "andy" nor "cony" is named |
| PromptBuilder.CharactersContextByMembership | prompts_handler.py:146-149 | The context depends only on whether "andy" and "cony" occur, not on order, repetition or other names such as "ambos" |
| PromptBuilder.CharactersContextSplits | prompts_handler.py:142-151 | With single-line profiles, splitting the context on "\n" gives the selected lines, Andy's first, or the default text alone |
| PromptBuilder.CharactersContextLines | prompts_handler.py:142-151 | Andy's line is among the context lines iff "andy" is named and Cony's iff "cony" is; naming both gives Andy then Cony |
| PromptBuilder.UserMessage | prompts_handler.py:153-182 | The message starts with the idea/style/characters head; the image heading follows the head iff the analysis is truthy; it ends with the instructions, the system prompt and the closing |
| PromptBuilder.UserMessageMentions | prompts_handler.py:157-180 | The idea, style, character context, system prompt and (when truthy) the analysis each occur at their place in the message |
| PromptBuilder.ImageSectionInserted | prompts_handler.py:170-174 | With a truthy analysis the message is the plain one with the image section inserted after the head; otherwise it is the plain one |
| PromptBuilder.SpanishSeparated | prompts_handler.py:171-177 | The image heading and the instructions heading differ, so the image section is recognisable |
| PromptBuilder.GeminiRuns | prompts_handler.py:184-191 | n Gemini attempts receive the next n scripted outcomes and record n identical calls with the user message |
| PromptBuilder.CallGeminiSucceeds | prompts_handler.py:184-191 | A first Gemini success on attempt k+1 gives that text after exactly k+1 calls, k log entries and k waits |
| PromptBuilder.CallGeminiExhausted | prompts_handler.py:184-191 | When every attempt fails: max_retries calls, the exhaustion error with the last message, the full log and the waits |
| PromptBuilder.GenerateVideoPrompt | prompts_handler.py:212-239 | Never fails: the Gemini text after one call; else the OpenRouter text after a second call to the vision model; else the fixed sentence |
| PromptBuilder.VideoRequestCarriesPrompt | prompts_handler.py:215-220 | The video request contains the Spanish prompt after the template and heading |
| PromptBuilder.TranslateToEnglish | prompts_handler.py:193-210 | One OpenAI call; the stripped translation, or the Spanish prompt itself when that call fails |
| PromptBuilder.TranslateToEnglishFallback | prompts_handler.py:193-210 | The English prompt is `translate_text`'s handling of the one reply; the Spanish prompt comes back exactly when that call failed or its stripped answer is the Spanish prompt itself |
| PromptBuilder.BuildPrompt | prompts_handler.py:60-140 | Only calls are added; model name and retry parameters are kept; a result always has consistent provenance (success: no fallback, model_used is the primary; failed: fallback and model_used name the vision model) |
| PromptBuilder.AfterPrimary | prompts_handler.py:83-140 | After the Gemini stage the instance keeps the stage's log and waits, and a result has consistent provenance |
| PromptBuilder.BuildPrimarySucceeds | prompts_handler.py:83-99 | A Gemini success on attempt k+1 gives status "success", that text, the video step from the world after k+1 calls, k log entries and k waits |
| PromptBuilder.BuildExhausted | prompts_handler.py:101-140 | When every Gemini attempt fails, one unretried OpenRouter call follows the n Gemini calls; its error is raised, or its text is returned with status "failed", model "openrouter/" plus the vision model, that model as fallback, and the video prompt generated from the text in the world after the fallback call |
| PromptBuilder.ShapeFails | prompts_handler.py:138-140 | When the fallback call fails too, the build raises that call's error |
| PromptBuilder.AfterPrimaryFallback | prompts_handler.py:101-140 | After a failed Gemini stage the next call is the fallback; its failure is the build's failure and no further call is made; its answer is the Spanish prompt, followed by the video step on it in the world after the fallback call |
| PromptBuilder.BuildExhaustedLog | prompts_handler.py:38-47 | An exhausted build adds one log entry per attempt, numbered from 1, to the log the instance already had, and waits before each retry |
| Vision.NewModelB | prompts_handler.py:244-247 | The instance starts on the configured vision model with an empty log |
| Vision.AnalyzeOnce | prompts_handler.py:303-332 | The current model first; on failure the backup model once; the model switches only when the backup answers; a failing backup's error is raised |
| Vision.AnalyzeImage | prompts_handler.py:249-301 | The retried analysis keeps the retry parameters and the analysis prompt; what it returns is stated by Vision.AnalysisFirstTry, Vision.AnalysisSwitches, Vision.AnalysisLaterTry and Vision.AnalysisExhausted |
| Vision.AttemptsKeepModel | prompts_handler.py:315-332 | Over any number of attempts the model is the original or the backup, stays on the backup once there, and each attempt makes one or two calls |
| Vision.AnalysisKeepsModel | prompts_handler.py:292-332 | After the whole analysis the model is the original or the backup (sticky), with at most two calls per attempt |
| Vision.AnalysisFirstTry | prompts_handler.py:303-314 | A first answer is returned after one call to the current model, with the instance unchanged and no wait |
| Vision.AnalysisSwitches | prompts_handler.py:315-329 | A failure then a backup answer switches the instance to the backup model after exactly two calls |
| Vision.VisionFailures | prompts_handler.py:303-332 | n attempts in which both models fail raise the backup's errors, call the current model then the backup in each attempt, and leave the model as it was |
| Vision.AnalysisLaterTry | prompts_handler.py:290-332 | Both models fail attempts 1..k and attempt k+1 answers: that answer (the current model's, else the backup's) is returned, the instance is on the backup exactly when the current model failed attempt k+1, two calls per failed attempt and then one or two, the log gains the backup's k errors numbered from 1, and the waits are those after attempts 1..k |
| Retry.ExecuteLaterOkIs | prompts_handler.py:28-47 | k failed attempts reaching a known state, followed by a success, give that success and its state, the k failures logged from 1, and the waits after attempts 1..k |
| Vision.AnalysisExhausted | prompts_handler.py:291-301 | When every allowed attempt fails on both models: the exhaustion error quoting the backup's last error, the model unchanged, two calls per attempt, one log entry per attempt with the backup's error, and the backoff waits between attempts |
| Animation.GenerateAnimationPrompt | prompts_handler.py:340-381 | Exactly one Gemini call; its text when it answers, the fixed sentence when it fails; it never raises |
| Animation.RequestCarriesPhoto | prompts_handler.py:361-374 | The animation request contains the photo prompt after the template and heading |
| Animation.FallbackOnlyOnFailure | prompts_handler.py:347-356 | The fixed sentence is returned iff the call failed or returned that very sentence |
| Orchestrator.AnalysisStage | prompts_handler.py:407-424 | Without an image nothing happens; an analysis is handed on only when the vision step answered |
| Orchestrator.ProcessRequest | prompts_handler.py:391-444 | A result has consistent provenance for the instance's primary model, and the primary model never changes |
| Orchestrator.NoImageIsBuildAlone | prompts_handler.py:407-444 | Without an image (None or empty bytes) the request is exactly the build on the unchanged world, so its failure is the request's failure |
| Orchestrator.ImageFailureIsHarmless | prompts_handler.py:410-434 | A failing analysis does not fail the request: the build runs without analysis from the world the analysis left |
| Orchestrator.AnalysisFeedsBuild | prompts_handler.py:419-434 | A successful analysis is passed to the build, which runs from the world the analysis left; waits are the analysis's then the build's |
| PyStr.Split | main.py:195-206 | Python's split: at least one part; more than one iff the separator occurs; joining the parts back gives the string; no part holds the separator |
| PyStr.SplitLeftmost | main.py:196-206 | Part k starts where the parts before it and their separators end, and stops at the leftmost occurrence of the separator from there (the last part at the end of the string), so the cuts are Python's even for a separator that overlaps itself |
| PyStr.AfterLastSuffix | api_integration.py:52 | The last part of a split on a separator that occurs ends the string, right after an occurrence of the separator |
| PyStr.SplitOnlyOnce | main.py:196-206 | A string holding the separator exactly once splits into the text before it and the text after it |
| PyStr.Strip | main.py:199-206 | The stripped text is no longer than the original and neither starts nor ends with whitespace |
| PyStr.StripPadded | main.py:199-206 | Whitespace padding around a text without surrounding whitespace is exactly what strip removes |
| PyStr.StripClean | main.py:199-206 | A text with no whitespace at either end is its own strip |
| PyStr.StripIdempotent | main.py:199-206 | Stripping twice is stripping once |
| PyStr.StripEmptyIff | main.py:162-163 | A string strips to "" iff it is all whitespace |
| PyStr.Slice | main.py:207-210 | Python's clamped slice: its length and its characters |
| PyStr.Lower | csv_handler.py:111-117 | Lower-casing keeps the length and maps each character on its own |
| PyStr.NatToStringValue | prompts_handler.py:50 | The decimal text of a count reads back as that count |
| Sections.ReadMarked | main.py:196-206 | Without "PROMPT_EN:" the ES and EN parts are empty; without "PROMPT_VIDEO:" after the first "PROMPT_EN:" the EN part is empty; without "PROMPT_VIDEO:" at all there is no video part, and with it there is one |
| Sections.ReadDirect | main.py:195-210 | Without "PROMPT_ES:" the sections are the slices [0:200], [200:400], [400:600] |
| Sections.ReadFallback | main.py:401-411 | Without "PROMPT_ES:" the sections are the same three slices |
| Sections.Finish | main.py:212-215 | An empty ES part becomes [0:150], an empty EN part [150:300] and an empty video part the default sentence "Zoom lento al sujeto, luz cálida suave, duración 5s."; non-empty parts are kept |
| Sections.ReadMarkedLayout | main.py:197-206 | With each marker once and in order, the parts are the stripped texts between the markers and after the last |
| Sections.ReadLayout | main.py:195-206 | The same for a whole reply, whatever precedes "PROMPT_ES:", for both handlers |
| Sections.HandlersAgree | main.py:401-420 | The two handlers' parses differ only in the missing-video default and give the same sections after the fallbacks |
| Sections.UnmarkedReply | main.py:207-215 | An unmarked reply gives [0:200]; [200:400] or else [150:300]; [400:600] or else the default suggestion |
| Routes.StyleLabel | main.py:251-258 | Each of the four named styles gets its own label from the map; any other style gets "Composición visual" |
| Routes.StyleLabelGeneric | main.py:251-258 | The label is "Composición visual" iff the style is none of the four named styles |
| Routes.ModelInfoOfBuild | main.py:344-353 | For a consistent build: "Primary: p (success)"; or "Primary: p (failed)" followed by " — Fallback: f" iff f is non-empty; or model_used without a primary |
| Routes.DirectError | main.py:222-233 | The error response is not a success, names the model "error" and model_info "Primary: OpenRouter (failed)", quotes only the first 100 characters of the error in both prompts and the message, and has the video text "Error generando animación" |
| Routes.PromptsOpenRouter | main.py:159-233 | A blank idea is answered with the caught 400 error's text and no call; otherwise exactly one call to the vision model; on an answer, the sections read from it with the `or` fallbacks, model_used "openrouter/" and the vision model, model_info "Primary: OpenRouter (<vision model>)" and the message "Generado con OpenRouter"; on a failure the error response quoting it |
| Routes.PromptsOpenRouterLayout | main.py:195-219 | A reply with each marker once and in order and non-blank parts is answered with success and the stripped texts between the markers |
| Routes.BothFailed | main.py:426-435 | When the fallback fails too: not a success, model "error", no model_info, video text "Error"; both prompts quote the first 100 characters of the error and the message the first 150 |
| Routes.AfterProcess | main.py:336-435 | A build result is answered on the same world; a build failure adds exactly one direct OpenRouter call; the handler always responds |
| Routes.GeneratePrompts | main.py:325-366 | A blank or whitespace idea is a 400 error with nothing called; any other idea always gets a response |
| Routes.BuildSuccessResponse | main.py:355-363 | A successful build is answered with its prompts, an empty English prompt, its model_info and no further call |
| Routes.BuildFailureResponse | main.py:367-435 | A failed build is answered from the direct call: success iff it answered, with the fallback parse, model_info and the message "Generado con fallback OpenRouter"; otherwise the double-failure response |
| Routes.FallbackInfoMatchesBuild | main.py:413 | The handler's own fallback reports the same model_info as a build that fell back inside the orchestrator |
| Favorites.Add | csv_handler.py:66-83 | Exactly one record is appended and earlier records are unchanged; it carries the given ID, title, character, Spanish prompt, video prompt and date, and the English prompt or "" when none is given |
| Favorites.GetById | csv_handler.py:163-167 | None iff no record has the ID; otherwise the first record that has it |
| Favorites.AddThenGet | csv_handler.py:72-82 | A record added under a fresh ID is what looking that ID up returns |
| Favorites.Keep | csv_handler.py:135 | No kept record has the ID, and every record without the ID is kept |
| Favorites.Delete | csv_handler.py:131-149 | "Prompt no encontrado" iff no record has the ID; otherwise the store without those records |
| Favorites.KeepLength | csv_handler.py:134-141 | Deleting removes exactly as many records as carry the ID, and none iff the ID is absent |
| Favorites.DeleteThenGet | csv_handler.py:135 | After a delete the ID is no longer found |
| Favorites.KeepAppend | csv_handler.py:135 | Deleting keeps the remaining records in their order |
| Favorites.MatchingMembers | csv_handler.py:110-122 | A record is in the reference result iff it is in the store and matches |
| Favorites.AnyFieldMatches | csv_handler.py:116-119 | True iff some non-empty field contains the lower-cased query once lower-cased |
| Favorites.Search | csv_handler.py:110-122 | The result is the matching records, in store order, each once |
| Favorites.Apply | csv_handler.py:195-204 | An update never changes the ID or the creation date |
| Favorites.Update | csv_handler.py:185-206 | "Prompt no encontrado" iff the ID is absent; otherwise a store of the same length |
| Favorites.UpdateOnlyFirst | csv_handler.py:185-204 | Only the first record with the ID changes; it takes every truthy given field and keeps every other field, its ID and its date |
| Favorites.UpdateThenGet | csv_handler.py:185-206 | After an update, looking the ID up returns the updated record |
| Favorites.TallyCounts | csv_handler.py:249-252 | The per-character counts are exactly the multiplicities of the Personaje column |
| Favorites.GetStats | csv_handler.py:246-263 | The total is the record count; exactly the characters that occur are counted, each by its number of records; the last date is the final record's, or None for an empty store |

## Left out

- Real HTTP, JSON decoding and `requests` exceptions: every provider call is one scripted outcome, and a timeout is one failed call. The OpenRouter timeout path recurses without bound and is not modelled.
- `asyncio`, `to_thread` and `sleep`: the retry loop returns its waits as a list of seconds instead of sleeping.
- Temperatures, `topP` and other float generation parameters: they are only passed through. The payload models keep `topK` and `max_tokens`.
- The fixed instruction texts (`PromptTemplates`, the Spanish wording of the user message, the image-analysis prompt and the handlers' own request text) are parameters of the model rather than literals. Only their shape matters to the proofs.
- Environment and `.env` loading, and `int()` parsing of the numeric settings: the configuration is a given map of strings and integers.
- The image bytes' temporary file: the image is never sent to a provider, so only whether one was given matters.
- CSV reading and writing, timestamp IDs, `isoformat` dates and JSON export: the store is the record sequence, and IDs and dates are given strings. `get_all_prompts` is the store itself.
- The `except` branches that return `success: False` in `csv_handler.py` are not modelled: they guard only the file I/O that is left out.
- The FastAPI app, CORS, lifespan, exception handlers, the favorites endpoints, `/api/generate-with-image`, the config endpoint and the health endpoint apart from its `ready` flag, and the mock templates of `/api/prompts-funcional` and `/api/debug-prompts`. Only `style_map` and the idea check of those handlers are modelled.
- The nested fallbacks for the video prompt in `build_prompt` (prompts_handler.py:115-127) are not modelled: `_generate_video_prompt` never raises, so they are never taken.
- The Gemini fallback of `_translate_to_english` is not modelled: `translate_text` never raises.
- The `'unknown'` defaults of `model_info` and `model_used` are not modelled: `build_prompt` always sets those keys.
- PyStr.Lower: folds only the ASCII letters, not all of Unicode as Python's `str.lower()` does.
- PyStr.Strip: its own contract gives only the length bound and the clean ends. Which characters are removed is stated by PyStr.StripPadded and PyStr.StripEmptyIff.
- Api.GeminiSystemReadBack: stated only for a system prompt without a blank line that does not end in a newline; for any other the first blank line of the text lies elsewhere, so the read-back does not hold.
- Routes.PromptsOpenRouter: the text of the caught `HTTPException` is taken to be "400: " followed by the detail, which is how the web framework renders it.
- Favorites.GetStats: the per-character counts adding up to the total is stated through the multiset of the Personaje column, which has one element per record, not as a sum over the map.
- Api.TranslateReply: a `null` content fails in `translate_text` at `.strip()` with a different TypeError text than the one Api.ExtractChat gives; the text is only logged, so the model does not distinguish it.
