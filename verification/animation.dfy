/** `AnimationModule` (prompts_handler.py): one Gemini request for a
    motion suggestion built around the photographic prompt, degrading to a
    fixed sentence when that request fails. */
module Animation {
  import opened Common
  import opened PyStr
  import opened Config
  import opened Providers
  import opened Api

  const PhotoHeading: string := "\n\nPrompt fotográfico:\n"
  const AnimationInstructions: string := "\n\nBasándote en este prompt, genera una sugerencia detallada de animación especificando:\n1. Tipo de movimiento de cámara (Zoom, Pan, Tilt, Dolly, Orbit)\n2. Dirección y velocidad del movimiento\n3. Acciones del sujeto (parpadeos, movimiento corporal, gesticulación)\n4. Efectos especiales (bokeh, light leak, color grading)\n5. Duración aproximada\n6. Transiciones (fade, dissolve, wipe)\n\nResponde en UN párrafo compacto implementable en WAN 2.2 o Luma AI."

  /** The sentence returned when the Gemini request fails. */
  const AnimationFallback: string :=
    "Cámara realiza movimiento suave con zoom gradual. Sujeto con parpadeos naturales. Duración: 4-6 segundos. Transición fade-in/out."

  /** `_analyze_for_animation`'s request: the video template, the heading,
      the photographic prompt, then the instructions. */
  function AnimationRequest(t: Templates, photo: string): string {
    t.video + PhotoHeading + photo + AnimationInstructions
  }

  /** `generate_animation_prompt`: the Gemini text (possibly empty) when
      the one request answers, the fixed sentence otherwise; it never
      raises and never tries another provider. */
  function GenerateAnimationPrompt(cfg: Config, t: Templates, w: World, photo: string): (r: Said)
    ensures Extends(w, r.world)
    ensures CallsSince(w, r.world) == [Call(Gemini(cfg.modeloA), AnimationRequest(t, photo))]
    ensures Next(w).Ok? ==> r.text == Next(w).text
    ensures Next(w).Err? ==> r.text == AnimationFallback
  {
    var g := GeminiGenerate(cfg, w, AnimationRequest(t, photo), None);
    assert g.world.calls[..|w.calls|] == w.calls;
    match g.outcome
    case Ok(text) => Said(text, g.world)
    case Err(_) => Said(AnimationFallback, g.world)
  }

  /** The request carries the photographic prompt right after the template
      and the heading. */
  lemma RequestCarriesPhoto(t: Templates, photo: string)
    ensures OccursAt(AnimationRequest(t, photo), photo, |t.video| + |PhotoHeading|)
  {
    OccursBetween(t.video + PhotoHeading, photo, AnimationInstructions);
  }

  /** The fixed sentence comes back exactly when Gemini fails, unless
      Gemini itself answers with that very sentence. */
  lemma FallbackOnlyOnFailure(cfg: Config, t: Templates, w: World, photo: string)
    ensures var r := GenerateAnimationPrompt(cfg, t, w, photo);
      r.text == AnimationFallback <==> (Next(w).Err? || Next(w).text == AnimationFallback)
  {
  }
}
