// Application configuration read from the environment
// (backend/internal/config/config.go), with the environment as a map from
// variable names to values.
module AppConfig {
  import opened Wrappers

  datatype Config = Config(port: string, whisperPath: string, piperPath: string, minilmPath: string,
                           stt: bool, tts: bool, embeddings: bool)

  type Env = map<string, string>

  /** os.Getenv: the value of a set variable, "" for an unset one. */
  function Getenv(env: Env, key: string): string {
    if key in env then env[key] else ""
  }

  /** getEnv: the variable's value when it is non-empty, else the default. */
  function GetEnv(env: Env, key: string, default: string): (v: string)
    ensures Getenv(env, key) != "" ==> v == Getenv(env, key)
    ensures Getenv(env, key) == "" ==> v == default
  {
    var value := Getenv(env, key);
    if value != "" then value else default
  }

  /** strconv.ParseBool: the spellings it accepts for each truth value. */
  function ParseBool(s: string): (r: Option<bool>)
    ensures r == Some(true) <==> s in {"1", "t", "T", "TRUE", "true", "True"}
    ensures r == Some(false) <==> s in {"0", "f", "F", "FALSE", "false", "False"}
  {
    if s in {"1", "t", "T", "TRUE", "true", "True"} then Some(true)
    else if s in {"0", "f", "F", "FALSE", "false", "False"} then Some(false)
    else None
  }

  /** getBoolEnv: the parsed value when the variable is set, non-empty and
      parses; the default otherwise. */
  function GetBoolEnv(env: Env, key: string, default: bool): (b: bool)
    ensures ParseBool(Getenv(env, key)).Some? ==> b == ParseBool(Getenv(env, key)).value
    ensures ParseBool(Getenv(env, key)).None? ==> b == default
  {
    var value := Getenv(env, key);
    if value != "" then
      match ParseBool(value)
      case Some(v) => v
      case None => default
    else default
  }

  /** LoadConfig over an environment: a variable that is set and non-empty
      gives its field, so the port and the three model paths are never
      empty. */
  function LoadConfig(env: Env): (c: Config)
    ensures c.port != "" && c.whisperPath != "" && c.piperPath != "" && c.minilmPath != ""
    ensures Getenv(env, "PORT") != "" ==> c.port == env["PORT"]
    ensures Getenv(env, "WHISPER_MODEL_PATH") != "" ==> c.whisperPath == env["WHISPER_MODEL_PATH"]
    ensures Getenv(env, "PIPER_MODEL_PATH") != "" ==> c.piperPath == env["PIPER_MODEL_PATH"]
    ensures Getenv(env, "MINILM_MODEL_PATH") != "" ==> c.minilmPath == env["MINILM_MODEL_PATH"]
  {
    Config(
      GetEnv(env, "PORT", "8765"),
      GetEnv(env, "WHISPER_MODEL_PATH", "./models/whisper-base"),
      GetEnv(env, "PIPER_MODEL_PATH", "./models/piper"),
      GetEnv(env, "MINILM_MODEL_PATH", "./models/minilm"),
      GetBoolEnv(env, "ENABLE_STT", true),
      GetBoolEnv(env, "ENABLE_TTS", true),
      GetBoolEnv(env, "ENABLE_EMBEDDINGS", true))
  }

  /** With nothing set, every field takes its documented default. */
  lemma EmptyEnvironmentDefaults()
    ensures LoadConfig(map[]) == Config("8765", "./models/whisper-base", "./models/piper", "./models/minilm", true, true, true)
  {
  }

  /** A variable that is set but empty counts as unset. */
  lemma EmptyValueIsUnset(env: Env, key: string, default: string, flag: bool)
    requires key in env && env[key] == ""
    ensures GetEnv(env, key, default) == GetEnv(env - {key}, key, default)
    ensures GetBoolEnv(env, key, flag) == GetBoolEnv(env - {key}, key, flag)
  {
  }

  /** A flag that does not parse ("yes", say) keeps the default. */
  lemma UnparsableFlagKeepsDefault(env: Env)
    requires "ENABLE_STT" in env && env["ENABLE_STT"] == "yes"
    ensures LoadConfig(env).stt
  {
    assert ParseBool("yes").None?;
  }

  /** Each field depends only on its own variable: two environments that
      agree on a variable give the same value for its field. */
  lemma FieldsAreIndependent(e1: Env, e2: Env)
    ensures Getenv(e1, "PORT") == Getenv(e2, "PORT") ==> LoadConfig(e1).port == LoadConfig(e2).port
    ensures Getenv(e1, "WHISPER_MODEL_PATH") == Getenv(e2, "WHISPER_MODEL_PATH") ==>
      LoadConfig(e1).whisperPath == LoadConfig(e2).whisperPath
    ensures Getenv(e1, "PIPER_MODEL_PATH") == Getenv(e2, "PIPER_MODEL_PATH") ==>
      LoadConfig(e1).piperPath == LoadConfig(e2).piperPath
    ensures Getenv(e1, "MINILM_MODEL_PATH") == Getenv(e2, "MINILM_MODEL_PATH") ==>
      LoadConfig(e1).minilmPath == LoadConfig(e2).minilmPath
    ensures Getenv(e1, "ENABLE_STT") == Getenv(e2, "ENABLE_STT") ==> LoadConfig(e1).stt == LoadConfig(e2).stt
    ensures Getenv(e1, "ENABLE_TTS") == Getenv(e2, "ENABLE_TTS") ==> LoadConfig(e1).tts == LoadConfig(e2).tts
    ensures Getenv(e1, "ENABLE_EMBEDDINGS") == Getenv(e2, "ENABLE_EMBEDDINGS") ==>
      LoadConfig(e1).embeddings == LoadConfig(e2).embeddings
  {
  }
}
