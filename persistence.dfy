/**
 * The memoised persistence accessor: a process-wide cached datastore handle,
 * built on first use from the datastore URL and access key found in the
 * environment under several aliases. `createClient` is foreign: whether it
 * returns or throws is an input.
 */
module Persistence {
  import opened Wrappers
  import opened Config

  const UrlAliases: seq<EnvVar> :=
    [NEXT_PUBLIC_SUPABASE_URL, SUPABASE_URL, NEXT_PUBLIC_SUPABASE_PROJECT_URL]

  const KeyAliases: seq<EnvVar> :=
    [NEXT_PUBLIC_SUPABASE_ANON_KEY, SUPABASE_ANON_KEY, PUBLIC_SUPABASE_ANON_KEY, SUPABASE_SERVICE_ROLE_KEY]

  /** The datastore URL: the first non-empty URL alias, else "". */
  function SupabaseUrl(env: Env): (url: string)
    ensures url == "" <==> forall i :: 0 <= i < |UrlAliases| ==> Lookup(env, UrlAliases[i]) == ""
    ensures Lookup(env, NEXT_PUBLIC_SUPABASE_URL) != "" ==> url == Lookup(env, NEXT_PUBLIC_SUPABASE_URL)
    ensures url != "" ==>
      exists i :: 0 <= i < |UrlAliases| && url == Lookup(env, UrlAliases[i]) &&
        forall j :: 0 <= j < i ==> Lookup(env, UrlAliases[j]) == ""
  {
    FirstNonEmpty(env, UrlAliases)
  }

  /** The access key: the first non-empty key alias, else "". */
  function SupabaseKey(env: Env): (key: string)
    ensures key == "" <==> forall i :: 0 <= i < |KeyAliases| ==> Lookup(env, KeyAliases[i]) == ""
    ensures Lookup(env, NEXT_PUBLIC_SUPABASE_ANON_KEY) != "" ==> key == Lookup(env, NEXT_PUBLIC_SUPABASE_ANON_KEY)
    ensures key != "" ==>
      exists i :: 0 <= i < |KeyAliases| && key == Lookup(env, KeyAliases[i]) &&
        forall j :: 0 <= j < i ==> Lookup(env, KeyAliases[j]) == ""
  {
    FirstNonEmpty(env, KeyAliases)
  }

  /** Both connection values are present, so construction is attempted. */
  predicate Configured(env: Env) {
    SupabaseUrl(env) != "" && SupabaseKey(env) != ""
  }

  /** What the foreign `createClient(url, key)` call does on this attempt. */
  datatype Construction = Constructs | Throws

  /** A datastore handle; each successful construction yields a new object. */
  class Client {
    const url: string
    const key: string

    constructor (url: string, key: string)
      ensures this.url == url && this.key == key
    {
      this.url := url;
      this.key := key;
    }
  }

  /** The module state of the accessor: the environment it reads and the cache it fills. */
  class Accessor {
    const env: Env
    var cachedClient: Option<Client>

    constructor (env: Env)
      ensures this.env == env && cachedClient == None
    {
      this.env := env;
      cachedClient := None;
    }

    /**
     * The cache after one call, relative to the cache before it: a cached handle
     * is kept, and an empty cache is filled exactly when configuration is present
     * and construction succeeds.
     */
    ghost predicate Settled(prior: Option<Client>, construction: Construction)
      reads this
    {
      && (prior.Some? ==> cachedClient == prior)
      && (cachedClient.Some? <==> prior.Some? || (Configured(env) && construction == Constructs))
    }

    /** `getSupabase()`. */
    method GetSupabase(construction: Construction) returns (h: Option<Client>)
      modifies this
      ensures h == cachedClient
      ensures Settled(old(cachedClient), construction)
      ensures old(cachedClient).Some? ==> h == old(cachedClient)
      ensures old(cachedClient).None? && !Configured(env) ==> h == None
      ensures old(cachedClient).None? && Configured(env) && construction == Throws ==> h == None
      ensures old(cachedClient).None? && Configured(env) && construction == Constructs ==>
        h.Some? && fresh(h.value) && h.value.url == SupabaseUrl(env) && h.value.key == SupabaseKey(env)
    {
      if cachedClient.Some? {
        return cachedClient;
      }
      var url := SupabaseUrl(env);
      var key := SupabaseKey(env);
      if url == "" || key == "" {
        return None;
      }
      match construction
      case Throws =>
        return None;
      case Constructs =>
        var c := new Client(url, key);
        cachedClient := Some(c);
        return cachedClient;
    }
  }

  /**
   * Two successive calls in one process: once a handle has been returned every
   * later call returns that same handle; a failed or unconfigured call leaves the
   * cache empty, so a later call with configuration present tries again.
   */
  method TwoCalls(env: Env, first: Construction, second: Construction)
    returns (h1: Option<Client>, h2: Option<Client>)
    ensures h1.Some? ==> h2 == h1
    ensures h1.Some? <==> Configured(env) && first == Constructs
    ensures h1.None? ==> (h2.Some? <==> Configured(env) && second == Constructs)
    ensures h2.Some? ==> h2.value.url == SupabaseUrl(env) && h2.value.key == SupabaseKey(env)
  {
    var accessor := new Accessor(env);
    h1 := accessor.GetSupabase(first);
    h2 := accessor.GetSupabase(second);
  }
}
