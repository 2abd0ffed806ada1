/**
 * The process environment the scripts read after loading `.env`, and the
 * private-key fallback that the allowance manager and the credential
 * generator share: `privateKey || process.env.PRIVATE_KEY`, then
 * `if (!key) throw new Error('PRIVATE_KEY missing')`.
 */
module Config {
  import opened Wrappers

  /** The environment, as the variables that are set. */
  type Env = map<string, string>

  const PRIVATE_KEY_VAR := "PRIVATE_KEY"

  /** `process.env[name]`: undefined when the variable is not set. */
  function EnvGet(env: Env, name: string): Option<string> {
    if name in env then Some(env[name]) else None
  }

  /** ToBoolean on an optional string: true exactly for a non-empty string (undefined and "" are falsy). */
  predicate NonEmpty(s: Option<string>): (b: bool)
    ensures s.None? ==> !b
    ensures s.Some? ==> (b <==> |s.value| > 0)
  {
    s.Some? && s.value != ""
  }

  /** `a || b` on optional strings. */
  function Or(a: Option<string>, b: Option<string>): (r: Option<string>)
    ensures NonEmpty(a) ==> r == a
    ensures !NonEmpty(a) ==> r == b
    ensures NonEmpty(r) <==> NonEmpty(a) || NonEmpty(b)
  {
    if NonEmpty(a) then a else b
  }

  /** Why a component could not be built from its key. */
  datatype KeyError =
    | MissingKey   // thrown as Error('PRIVATE_KEY missing'): no non-empty key from the argument or the environment
    | InvalidKey   // thrown by the wallet library: it refused the key material

  /**
   * The key a component is built from: the constructor argument when it is a
   * non-empty string, otherwise PRIVATE_KEY from the environment when that is
   * non-empty, otherwise a MissingKey failure.
   */
  function ResolvePrivateKey(privateKey: Option<string>, env: Env): (r: Result<string, KeyError>)
    ensures r.Success? <==> NonEmpty(privateKey) || NonEmpty(EnvGet(env, PRIVATE_KEY_VAR))
    ensures r.Failure? ==> r.error == MissingKey
    ensures r.Success? ==> r.value != ""
    ensures NonEmpty(privateKey) ==> r == Success(privateKey.value)
    ensures !NonEmpty(privateKey) && r.Success? ==> PRIVATE_KEY_VAR in env && r.value == env[PRIVATE_KEY_VAR]
  {
    var key := Or(privateKey, EnvGet(env, PRIVATE_KEY_VAR));
    if !NonEmpty(key) then Failure(MissingKey) else Success(key.value)
  }
}
