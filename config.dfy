/**
 * Process configuration: `process.env` as a finite map from the variables the
 * code reads to their values, and the `env.A || env.B || ...` alias chains the
 * code uses to read it.
 */
module Config {

  /** The environment variables the core reads, by their names. */
  datatype EnvVar =
    | NEXT_PUBLIC_SUPABASE_URL | SUPABASE_URL | NEXT_PUBLIC_SUPABASE_PROJECT_URL
    | NEXT_PUBLIC_SUPABASE_ANON_KEY | SUPABASE_ANON_KEY | PUBLIC_SUPABASE_ANON_KEY
    | SUPABASE_SERVICE_ROLE_KEY
    | GEMINI_API_KEY_TEXT | GEMINI_API_KEY_IMAGE

  type Env = map<EnvVar, string>

  /** The value of one variable, with an unset variable read as "" (both are falsy). */
  function Lookup(env: Env, name: EnvVar): string {
    if name in env then env[name] else ""
  }

  /**
   * `env[names[0]] || env[names[1]] || ... || ""`: the value of the first alias
   * that is set to a non-empty string, or "" when none is.
   */
  function FirstNonEmpty(env: Env, names: seq<EnvVar>): (r: string)
    ensures r == "" <==> forall i :: 0 <= i < |names| ==> Lookup(env, names[i]) == ""
    ensures r != "" ==>
      exists i :: 0 <= i < |names| && Lookup(env, names[i]) == r &&
        forall j :: 0 <= j < i ==> Lookup(env, names[j]) == ""
  {
    if names == [] then ""
    else if Lookup(env, names[0]) != "" then
      Lookup(env, names[0])
    else
      var r := FirstNonEmpty(env, names[1..]);
      assert forall i :: 1 <= i < |names| ==> names[i] == names[1..][i - 1];
      r
  }

  /** An alias that is set wins over every alias listed after it. */
  lemma EarlierAliasWins(env: Env, names: seq<EnvVar>, k: nat)
    requires k < |names| && Lookup(env, names[k]) != ""
    requires forall j :: 0 <= j < k ==> Lookup(env, names[j]) == ""
    ensures FirstNonEmpty(env, names) == Lookup(env, names[k])
  {
  }
}
