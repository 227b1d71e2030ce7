/**
 * The credential lookups of src/config/settings.py.
 *
 * The process environment is a map from variable names to values; a name
 * outside the map is unset (`os.getenv` returns `None`). Raising
 * `ValueError` becomes a `Failure`.
 */
module Settings {
  import opened Wrappers

  type Env = map<string, string>

  datatype ValueError = ValueError(message: string)

  const ApiKeyVar: string := "API_KEY_OPENAI"
  const AccountVar: string := "MT4_ACCOUNT"
  const ServerVar: string := "MT4_SERVER"
  const PasswordVar: string := "MT4_PASSWORD"

  /** `os.getenv(name)`. */
  function GetEnv(env: Env, name: string): Option<string> {
    if name in env then Some(env[name]) else None
  }

  /** Python's `not value` for an optional string: `None` and `""` are falsy. */
  predicate Falsy(value: Option<string>) {
    value.None? || value.value == ""
  }

  /** A variable that is set to a non-empty value. */
  predicate IsSetNonEmpty(env: Env, name: string) {
    name in env && |env[name]| > 0
  }

  /** `Settings.api_openai_key`: rejects only an unset variable; an empty value is returned as it is. */
  function ApiOpenaiKey(env: Env): (r: Result<string, ValueError>)
    ensures r.Failure? <==> ApiKeyVar !in env
    ensures r.Success? ==> r.value == env[ApiKeyVar]
    ensures r.Failure? ==> r.error == ValueError("API_KEY_OPENAI is not set")
  {
    var openaiKey := GetEnv(env, ApiKeyVar);
    if openaiKey.None? then Failure(ValueError("API_KEY_OPENAI is not set"))
    else Success(openaiKey.value)
  }

  /** `Settings.mt4_credentials`: rejects an unset or empty value of any of the three variables. */
  function Mt4Credentials(env: Env): (r: Result<map<string, string>, ValueError>)
    ensures r.Success? <==> IsSetNonEmpty(env, AccountVar) && IsSetNonEmpty(env, ServerVar) && IsSetNonEmpty(env, PasswordVar)
    ensures r.Success? ==> r.value.Keys == {"account", "server", "password"}
    ensures r.Success? ==> r.value["account"] == env[AccountVar] && r.value["server"] == env[ServerVar] && r.value["password"] == env[PasswordVar]
    ensures r.Failure? ==> r.error == ValueError("One or more MT4 credentials are not set")
  {
    var account := GetEnv(env, AccountVar);
    var server := GetEnv(env, ServerVar);
    var password := GetEnv(env, PasswordVar);
    if Falsy(account) || Falsy(server) || Falsy(password) then
      Failure(ValueError("One or more MT4 credentials are not set"))
    else
      Success(map["account" := account.value, "server" := server.value, "password" := password.value])
  }

  /**
   * The two lookups differ in what they reject: an empty value is a valid
   * OpenAI key but an invalid MT4 credential.
   */
  lemma EmptyValueAcceptedOnlyForApiKey(env: Env)
    requires ApiKeyVar in env && env[ApiKeyVar] == ""
    requires AccountVar in env && env[AccountVar] == ""
    ensures ApiOpenaiKey(env) == Success("")
    ensures Mt4Credentials(env).Failure?
  {
  }
}
