/**
 Provider resolution (src/utils.py): a compound model identifier of the form
 `provider/model-name` selects a language-model backend, and the Google
 backend first copies GEMINI_API_KEY into GOOGLE_API_KEY when only the former
 is set. Backend construction is reduced to a tag carrying the model name and
 temperature.
 */
module Providers {
  import opened Values

  /** The sampling temperature: passed through to the backend, never computed with. */
  type Temperature = real

  const DefaultTemperature: Temperature := 0.1

  const GeminiKeyVar := "GEMINI_API_KEY"
  const GoogleKeyVar := "GOOGLE_API_KEY"

  /** The error raised when `split("/", 1)` yields one piece and cannot be unpacked into two names. */
  const UnpackError := ValueError("not enough values to unpack (expected 2, got 1)")

  /** The providers that select a backend. */
  const SupportedProviders: set<string> := {"google", "gemini", "openai", "groq"}

  datatype Backend = Google | OpenAI | Groq

  /** A constructed chat model: which backend, which model name, which temperature. */
  datatype Llm = Llm(backend: Backend, model: string, temperature: Temperature)

  function UnsupportedMessage(provider: string): string
  {
    "Unsupported LLM provider: " + provider
  }

  /** Position of the first occurrence of `c` in `s`, if any. */
  function IndexOf(s: string, c: char): (r: Option<nat>)
    ensures r.None? <==> c !in s
    ensures r.Some? ==> r.value < |s| && s[r.value] == c && c !in s[..r.value]
  {
    if s == [] then None
    else if s[0] == c then Some(0)
    else
      match IndexOf(s[1..], c)
      case None => None
      case Some(i) =>
        assert s[..i + 1] == [s[0]] + s[1..][..i];
        Some(i + 1)
  }

  /** `model_string.split("/", 1)`: the pieces before and after the first `/`. */
  function ExtractProviderAndModel(modelString: string): (parts: seq<string>)
    ensures |parts| == 1 || |parts| == 2
    ensures |parts| == 1 <==> '/' !in modelString
    ensures |parts| == 1 ==> parts[0] == modelString
    ensures |parts| == 2 ==> '/' !in parts[0] && parts[0] + "/" + parts[1] == modelString
  {
    match IndexOf(modelString, '/')
    case None => [modelString]
    case Some(i) =>
      assert modelString == modelString[..i] + "/" + modelString[i + 1..];
      [modelString[..i], modelString[i + 1..]]
  }

  /** The backend `get_llm_by_provider` constructs, or the error it raises. */
  function Resolve(modelString: string, temperature: Temperature := DefaultTemperature): (r: Outcome<Llm>)
    ensures r.Returned? <==> '/' in modelString && ExtractProviderAndModel(modelString)[0] in SupportedProviders
    ensures r.Returned? ==>
      r.value.model == ExtractProviderAndModel(modelString)[1] && r.value.temperature == temperature
  {
    var parts := ExtractProviderAndModel(modelString);
    if |parts| != 2 then Raised(UnpackError)
    else
      var provider, model := parts[0], parts[1];
      if provider == "google" || provider == "gemini" then Returned(Llm(Google, model, temperature))
      else if provider == "openai" then Returned(Llm(OpenAI, model, temperature))
      else if provider == "groq" then Returned(Llm(Groq, model, temperature))
      else if provider == "groq" then
        // the second `groq` branch of the source can never be taken
        assert false; Returned(Llm(Groq, model, temperature))
      else Raised(ValueError(UnsupportedMessage(provider)))
  }

  /** The GEMINI_API_KEY to GOOGLE_API_KEY copy: made only when the first is
      set and non-empty and the second is absent or empty; no other variable
      is ever written. */
  function MigrateGeminiKey(env: Env): (env': Env)
    ensures forall k :: k != GoogleKeyVar ==> (k in env' <==> k in env)
    ensures forall k :: k != GoogleKeyVar && k in env ==> env'[k] == env[k]
    ensures env' != env <==> EnvSet(env, GeminiKeyVar) && !EnvSet(env, GoogleKeyVar)
    ensures env' != env ==> GoogleKeyVar in env' && env'[GoogleKeyVar] == env[GeminiKeyVar]
    ensures EnvSet(env', GoogleKeyVar) <==> EnvSet(env, GoogleKeyVar) || EnvSet(env, GeminiKeyVar)
  {
    if EnvSet(env, GeminiKeyVar) && !EnvSet(env, GoogleKeyVar) then
      var env' := env[GoogleKeyVar := env[GeminiKeyVar]];
      assert env'[GoogleKeyVar] != "" && (GoogleKeyVar !in env || env[GoogleKeyVar] == "");
      env'
    else env
  }

  /** Whether the provider part of `modelString` selects the Google backend. */
  predicate SelectsGoogle(modelString: string)
  {
    var parts := ExtractProviderAndModel(modelString);
    |parts| == 2 && (parts[0] == "google" || parts[0] == "gemini")
  }

  /** The environment after `get_llm_by_provider(modelString, ...)`. */
  function EnvAfter(modelString: string, env: Env): Env
  {
    if SelectsGoogle(modelString) then MigrateGeminiKey(env) else env
  }

  /** `get_llm_by_provider(model_string, temperature)`, reading and updating
      the process environment, which is passed in and handed back. */
  method GetLlmByProvider(modelString: string, env: Env, temperature: Temperature := DefaultTemperature)
    returns (llm: Outcome<Llm>, env': Env)
    ensures llm == Resolve(modelString, temperature)
    ensures env' == EnvAfter(modelString, env)
  {
    env' := env;
    var parts := ExtractProviderAndModel(modelString);
    if |parts| != 2 {
      llm := Raised(UnpackError);
      return;
    }
    var provider, model := parts[0], parts[1];
    if provider == "google" || provider == "gemini" {
      var geminiKey := EnvGet(env', GeminiKeyVar);
      var googleKey := EnvGet(env', GoogleKeyVar);
      if geminiKey.Some? && geminiKey.value != "" && !(googleKey.Some? && googleKey.value != "") {
        env' := env'[GoogleKeyVar := geminiKey.value];
      }
      llm := Returned(Llm(Google, model, temperature));
    } else if provider == "openai" {
      llm := Returned(Llm(OpenAI, model, temperature));
    } else if provider == "groq" {
      llm := Returned(Llm(Groq, model, temperature));
    } else if provider == "groq" {
      assert false;
      llm := Returned(Llm(Groq, model, temperature));
    } else {
      llm := Raised(ValueError(UnsupportedMessage(provider)));
    }
  }

  /** The split is the unique one at the first `/`: any provider without a `/`
      followed by `/` and a model name is recovered exactly. */
  lemma {:induction false} SplitRoundTrip(provider: string, model: string)
    requires '/' !in provider
    ensures ExtractProviderAndModel(provider + "/" + model) == [provider, model]
  {
    var s := provider + "/" + model;
    var i := IndexOf(s, '/');
    assert s[|provider|] == '/';
    assert s[..|provider|] == provider;
    assert i.Some?;
    if i.value < |provider| {
      assert false;
    } else if i.value > |provider| {
      assert false;
    }
    assert s[|provider| + 1..] == model;
  }

  /** Without a `/` the single piece cannot be unpacked: `get_llm_by_provider`
      fails before any provider is examined and leaves the environment alone. */
  lemma NoSlashFailsUnpacking(modelString: string, temperature: Temperature, env: Env)
    requires '/' !in modelString
    ensures Resolve(modelString, temperature) == Raised(UnpackError)
    ensures EnvAfter(modelString, env) == env
  {
  }

  /** "google" and "gemini" are aliases: the same backend, model and
      temperature, and the same environment update. */
  lemma {:induction false} GoogleGeminiAlias(model: string, temperature: Temperature, env: Env)
    ensures Resolve("google/" + model, temperature) == Resolve("gemini/" + model, temperature)
    ensures Resolve("google/" + model, temperature) == Returned(Llm(Google, model, temperature))
    ensures EnvAfter("google/" + model, env) == EnvAfter("gemini/" + model, env) == MigrateGeminiKey(env)
  {
    assert "google/" + model == "google" + "/" + model;
    assert "gemini/" + model == "gemini" + "/" + model;
    SplitRoundTrip("google", model);
    SplitRoundTrip("gemini", model);
  }

  /** "openai" selects OpenAI and "groq" selects Groq; neither touches the environment. */
  lemma {:induction false} OpenAIAndGroq(model: string, temperature: Temperature, env: Env)
    ensures Resolve("openai/" + model, temperature) == Returned(Llm(OpenAI, model, temperature))
    ensures Resolve("groq/" + model, temperature) == Returned(Llm(Groq, model, temperature))
    ensures EnvAfter("openai/" + model, env) == env && EnvAfter("groq/" + model, env) == env
  {
    assert "openai/" + model == "openai" + "/" + model;
    assert "groq/" + model == "groq" + "/" + model;
    SplitRoundTrip("openai", model);
    SplitRoundTrip("groq", model);
  }

  /** Any other provider is rejected with an error naming it, and the
      environment is left alone. */
  lemma {:induction false} UnsupportedProvider(provider: string, model: string, temperature: Temperature, env: Env)
    requires '/' !in provider && provider !in SupportedProviders
    ensures Resolve(provider + "/" + model, temperature) == Raised(ValueError("Unsupported LLM provider: " + provider))
    ensures EnvAfter(provider + "/" + model, env) == env
  {
    SplitRoundTrip(provider, model);
  }
}
