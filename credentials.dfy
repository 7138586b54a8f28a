/**
 * Resolution of the API credentials.
 *
 * Each credential is the explicit argument when that is present and
 * non-empty, and otherwise the value of its environment variable. Both must
 * end up present and non-empty. The process environment is passed in as a map.
 */
module Credentials {
  import opened Wrappers

  const CLIENT_ID_VAR: string := "SPOTIFY_CLIENT_ID"
  const CLIENT_SECRET_VAR: string := "SPOTIFY_CLIENT_SECRET"

  datatype ClientCredentials = ClientCredentials(clientId: string, clientSecret: string)

  /** Raised before any use of the service when a credential cannot be resolved. */
  datatype CredentialsError = MissingCredentials

  /** Python truthiness of an optional string: present and not empty. */
  predicate Truthy(v: Option<string>) {
    v.Some? && v.value != ""
  }

  /** `env.get(name)`: the variable's value, or nothing when it is unset. */
  function Lookup(env: map<string, string>, name: string): Option<string> {
    if name in env then Some(env[name]) else None
  }

  /** `arg or env.get(name)`. */
  function Resolve(arg: Option<string>, env: map<string, string>, name: string): Option<string> {
    if Truthy(arg) then arg else Lookup(env, name)
  }

  /**
   * Both credentials resolved with the explicit argument taking precedence
   * over the environment; an error when either is missing or empty.
   */
  function ResolveCredentials(clientId: Option<string>, clientSecret: Option<string>, env: map<string, string>)
    : (r: Result<ClientCredentials, CredentialsError>)
    ensures r.Ok? <==>
      (Truthy(clientId) || (CLIENT_ID_VAR in env && env[CLIENT_ID_VAR] != "")) &&
      (Truthy(clientSecret) || (CLIENT_SECRET_VAR in env && env[CLIENT_SECRET_VAR] != ""))
    ensures r.Ok? ==> r.value.clientId != "" && r.value.clientSecret != ""
    ensures r.Ok? ==> r.value.clientId == if Truthy(clientId) then clientId.value else env[CLIENT_ID_VAR]
    ensures r.Ok? ==> r.value.clientSecret == if Truthy(clientSecret) then clientSecret.value else env[CLIENT_SECRET_VAR]
  {
    var id := Resolve(clientId, env, CLIENT_ID_VAR);
    var secret := Resolve(clientSecret, env, CLIENT_SECRET_VAR);
    if !Truthy(id) || !Truthy(secret) then Err(MissingCredentials)
    else Ok(ClientCredentials(id.value, secret.value))
  }

  /** Non-empty explicit arguments are used as they are, whatever the environment holds. */
  lemma ExplicitArgumentsWin(clientId: string, clientSecret: string, env: map<string, string>)
    requires clientId != "" && clientSecret != ""
    ensures ResolveCredentials(Some(clientId), Some(clientSecret), env) == Ok(ClientCredentials(clientId, clientSecret))
  {
  }

  /** An empty argument counts as absent: the environment supplies the value, and nothing at all is an error. */
  lemma EmptyArgumentFallsBack(clientSecret: string, env: map<string, string>)
    requires clientSecret != ""
    ensures ResolveCredentials(Some(""), Some(clientSecret), env) == ResolveCredentials(None, Some(clientSecret), env)
    ensures CLIENT_ID_VAR !in env ==> ResolveCredentials(Some(""), Some(clientSecret), env) == Err(MissingCredentials)
  {
  }
}
