/** `ModelConfig` (models.py): configuration read once from the environment
    at start-up, and the key-validation predicate over it. */
module Config {

  /** The process environment: text variables, and the two numeric
      variables as the integers `int()` makes of them. */
  datatype Env = Env(vars: map<string, string>, numbers: map<string, int>)

  datatype Config = Config(
    openrouterKey: string,
    geminiKey: string,
    openaiKey: string,
    modeloA: string,        // primary text model (Gemini)
    modeloBVision: string,  // vision model, also the OpenRouter fallback model
    modeloAnimacion: string,
    maxRetries: int,
    retryDelaySeconds: int,
    modoEstetico: string,
    perfilAndy: string,
    perfilCony: string
  )

  /** `PromptTemplates`: the system prompt of the text model, the system
      prompt of the vision model, and the animation instructions. Their
      wording is fixed text; the model treats it as given. */
  datatype Templates = Templates(systemA: string, systemB: string, video: string)

  /** The value an unset API key takes. */
  const NotConfigured: string := "not_configured"

  const DefaultMaxRetries: int := 3
  const DefaultRetryDelaySeconds: int := 2

  const DefaultModeloA: string := "gemini-2.5-pro"
  const DefaultModeloBVision: string := "qwen/qwen-2-vl-72b-instruct"
  const DefaultModeloAnimacion: string := "wan/wan-2.1-t2v-480p"
  const DefaultModoEstetico: string := "oscuro_lava"
  const DefaultPerfilAndy: string := "29 años, rubia, ojos azules, física atlético-femenino, sensual, alegre"
  const DefaultPerfilCony: string := "21 años, latina, piel canela, ojos verdes, cabello negro, física atlético-femenino, mirada seductora"

  /** `os.getenv(name, default)` */
  function GetEnv(env: Env, name: string, default: string): string {
    if name in env.vars then env.vars[name] else default
  }

  function GetNumber(env: Env, name: string, default: int): int {
    if name in env.numbers then env.numbers[name] else default
  }

  /** The class attributes of `ModelConfig`, evaluated against `env`. */
  function FromEnv(env: Env): (c: Config)
    ensures "OPENROUTER_API_KEY" in env.vars ==> c.openrouterKey == env.vars["OPENROUTER_API_KEY"]
    ensures "OPENROUTER_API_KEY" !in env.vars ==> c.openrouterKey == NotConfigured
    ensures "GEMINI_API_KEY" in env.vars ==> c.geminiKey == env.vars["GEMINI_API_KEY"]
    ensures "GEMINI_API_KEY" !in env.vars ==> c.geminiKey == NotConfigured
    ensures "OPENAI_API_KEY" in env.vars ==> c.openaiKey == env.vars["OPENAI_API_KEY"]
    ensures "OPENAI_API_KEY" !in env.vars ==> c.openaiKey == NotConfigured
    ensures "MODELO_A_LOGICO" in env.vars ==> c.modeloA == env.vars["MODELO_A_LOGICO"]
    ensures "MODELO_A_LOGICO" !in env.vars ==> c.modeloA == DefaultModeloA
    ensures "MODELO_B_VISION" in env.vars ==> c.modeloBVision == env.vars["MODELO_B_VISION"]
    ensures "MODELO_B_VISION" !in env.vars ==> c.modeloBVision == DefaultModeloBVision
    ensures "MODELO_ANIMACION" in env.vars ==> c.modeloAnimacion == env.vars["MODELO_ANIMACION"]
    ensures "MODELO_ANIMACION" !in env.vars ==> c.modeloAnimacion == DefaultModeloAnimacion
    ensures "MAX_RETRIES" in env.numbers ==> c.maxRetries == env.numbers["MAX_RETRIES"]
    ensures "MAX_RETRIES" !in env.numbers ==> c.maxRetries == DefaultMaxRetries
    ensures "RETRY_DELAY_SECONDS" in env.numbers ==> c.retryDelaySeconds == env.numbers["RETRY_DELAY_SECONDS"]
    ensures "RETRY_DELAY_SECONDS" !in env.numbers ==> c.retryDelaySeconds == DefaultRetryDelaySeconds
    ensures "MODO_ESTETICO" in env.vars ==> c.modoEstetico == env.vars["MODO_ESTETICO"]
    ensures "MODO_ESTETICO" !in env.vars ==> c.modoEstetico == DefaultModoEstetico
    ensures "PERFIL_ANDY" in env.vars ==> c.perfilAndy == env.vars["PERFIL_ANDY"]
    ensures "PERFIL_ANDY" !in env.vars ==> c.perfilAndy == DefaultPerfilAndy
    ensures "PERFIL_CONY" in env.vars ==> c.perfilCony == env.vars["PERFIL_CONY"]
    ensures "PERFIL_CONY" !in env.vars ==> c.perfilCony == DefaultPerfilCony
  {
    Config(
      GetEnv(env, "OPENROUTER_API_KEY", NotConfigured),
      GetEnv(env, "GEMINI_API_KEY", NotConfigured),
      GetEnv(env, "OPENAI_API_KEY", NotConfigured),
      GetEnv(env, "MODELO_A_LOGICO", DefaultModeloA),
      GetEnv(env, "MODELO_B_VISION", DefaultModeloBVision),
      GetEnv(env, "MODELO_ANIMACION", DefaultModeloAnimacion),
      GetNumber(env, "MAX_RETRIES", DefaultMaxRetries),
      GetNumber(env, "RETRY_DELAY_SECONDS", DefaultRetryDelaySeconds),
      GetEnv(env, "MODO_ESTETICO", DefaultModoEstetico),
      GetEnv(env, "PERFIL_ANDY", DefaultPerfilAndy),
      GetEnv(env, "PERFIL_CONY", DefaultPerfilCony)
    )
  }

  /** The configuration of a process started with an empty environment. */
  function Defaults(): Config {
    FromEnv(Env(map[], map[]))
  }

  /** `ModelConfig.validate_keys()`: one flag per provider, each false
      exactly when that key still holds the sentinel. */
  function ValidateKeys(c: Config): (r: map<string, bool>)
    ensures r.Keys == {"openrouter", "gemini", "openai"}
    ensures r["openrouter"] <==> c.openrouterKey != NotConfigured
    ensures r["gemini"] <==> c.geminiKey != NotConfigured
    ensures r["openai"] <==> c.openaiKey != NotConfigured
  {
    map["openrouter" := c.openrouterKey != NotConfigured,
        "gemini" := c.geminiKey != NotConfigured,
        "openai" := c.openaiKey != NotConfigured]
  }

  /** The `ready` flag of the health-check endpoint: every flag of
      `validate_keys()` is true. */
  function Ready(c: Config): (r: bool)
    ensures r <==> (c.openrouterKey != NotConfigured && c.geminiKey != NotConfigured
                    && c.openaiKey != NotConfigured)
  {
    var keys := ValidateKeys(c);
    forall k | k in keys :: keys[k]
  }

  /** An API key variable that is not set validates as not configured;
      one that is set to anything but the sentinel (even "") validates. */
  lemma UnsetKeyInvalid(env: Env)
    ensures var flags := ValidateKeys(FromEnv(env));
      && ("OPENROUTER_API_KEY" !in env.vars ==> !flags["openrouter"])
      && ("GEMINI_API_KEY" !in env.vars ==> !flags["gemini"])
      && ("OPENAI_API_KEY" !in env.vars ==> !flags["openai"])
      && ("OPENAI_API_KEY" in env.vars && env.vars["OPENAI_API_KEY"] == "" ==> flags["openai"])
  {
  }

  /** With nothing set, the retry parameters are 3 attempts and 2 seconds,
      and the service does not report itself ready. */
  lemma DefaultsAreThreeAndTwo()
    ensures Defaults().maxRetries == 3 && Defaults().retryDelaySeconds == 2
    ensures !Ready(Defaults())
  {
  }
}
