/**
 * Axios request configs as the code builds them: object literals whose keys
 * (`url`, `method`, `params`, `data`, `headers`, `skipAuth`) map to values.
 * Object spread is map union, so the merge rule of `fetch` is stated on maps.
 */
module Config {
  import opened Wrappers

  /** A value under one key of a request config. */
  datatype ConfigValue =
    | Str(s: string)
    | Bool(b: bool)
    | Dict(entries: map<string, string>)

  /** The keys present on a request-config object and their values. */
  type RequestConfig = map<string, ConfigValue>

  /** JavaScript truthiness of a config value. */
  predicate Truthy(v: ConfigValue) {
    match v
    case Str(s) => s != ""
    case Bool(b) => b
    case Dict(_) => true
  }

  /**
   * `{ ...base, ...(override ?? {}) }`: every key of the override wins, every
   * key only the base has is kept, and no other key appears.
   */
  function Merge(base: RequestConfig, override: Option<RequestConfig>): (r: RequestConfig)
    ensures override.None? ==> r == base
    ensures override.Some? ==> r.Keys == base.Keys + override.value.Keys
    ensures override.Some? ==> forall k :: k in override.value ==> r[k] == override.value[k]
    ensures forall k :: k in base && (override.None? || k !in override.value) ==> r[k] == base[k]
  {
    match override
    case None => base
    case Some(o) => base + o
  }

  /** Merging the same override twice changes nothing more than merging it once. */
  lemma MergeIdempotent(base: RequestConfig, override: Option<RequestConfig>)
    ensures Merge(Merge(base, override), override) == Merge(base, override)
  {
    if override.Some? {
      var once := Merge(base, override);
      var twice := Merge(once, override);
      assert twice.Keys == once.Keys;
      assert forall k :: k in twice ==> twice[k] == once[k];
    }
  }

  /** An empty override leaves the base config as it is. */
  lemma MergeEmptyOverride(base: RequestConfig)
    ensures Merge(base, Some(map[])) == base
  {
    assert Merge(base, Some(map[])).Keys == base.Keys;
  }

  /** `config.headers`, read as a dictionary (absent headers read as `{}`). */
  function Headers(c: RequestConfig): map<string, string> {
    if "headers" in c && c["headers"].Dict? then c["headers"].entries else map[]
  }

  /** `config.skipAuth` is truthy. */
  predicate SkipsAuth(c: RequestConfig) {
    "skipAuth" in c && Truthy(c["skipAuth"])
  }

  /** `config.headers?.Authorization` is truthy. */
  predicate HasAuthorization(c: RequestConfig) {
    "Authorization" in Headers(c) && Headers(c)["Authorization"] != ""
  }
}
