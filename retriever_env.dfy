/** The start-up check shared by the medical journal searcher and indexer: eight settings
    must be set and non-empty, and the index name defaults to "medical_journal". */
module RetrieverEnv {
  import opened Strings
  import opened PyValue
  import opened Config

  /** The `required_vars` dict, in its declaration order. */
  const RequiredNames: seq<string> := ["ES_URL", "ES_USER", "ES_PASSWORD", "ES_CERT_FINGERPRINT",
    "IBM_CLOUD_API_KEY", "IBM_CLOUD_ENDPOINT", "IBM_CLOUD_PROJECT_ID", "MEDICAL_JOURNAL_INDEX_NAME"]

  const IndexNameVar := "MEDICAL_JOURNAL_INDEX_NAME"
  const DefaultIndexName := "medical_journal"

  /** The value the module reads for a required name: `os.getenv(name)`, with the default
      for the index name. */
  function Required(env: Env, name: string): Option<string> {
    if name == IndexNameVar then Some(GetEnv(env, name, DefaultIndexName)) else GetEnvOpt(env, name)
  }

  /** `bool(value)` for a setting: set and not empty. */
  predicate IsSet(x: Option<string>) {
    x.Some? && x.value != ""
  }

  /** `[var for var, value in required_vars.items() if not value]` over `names`. */
  function MissingAmong(env: Env, names: seq<string>): (r: seq<string>)
    ensures forall n :: n in r <==> n in names && !IsSet(Required(env, n))
    ensures IsSubsequence(r, names)
  {
    if names == [] then []
    else
      var rest := MissingAmong(env, names[1..]);
      if !IsSet(Required(env, names[0])) then
        var r := [names[0]] + rest;
        assert r[1..] == rest;
        r
      else rest
  }

  function Missing(env: Env): (r: seq<string>)
    ensures forall n :: n in r <==> n in RequiredNames && !IsSet(Required(env, n))
    ensures IsSubsequence(r, RequiredNames)
  {
    MissingAmong(env, RequiredNames)
  }

  /** The import-time check: a ValueError naming every missing setting, joined by ", ", in
      declaration order; otherwise the index name to use. */
  function CheckEnvironment(env: Env): (r: Outcome<string>)
    ensures r.Raised? <==> exists n :: n in RequiredNames && !IsSet(Required(env, n))
    ensures r.Raised? ==>
      r.exc == ValueError("Missing required environment variables: " + Join(", ", Missing(env)))
    ensures r.Returned? ==> r.value == GetEnv(env, IndexNameVar, DefaultIndexName) && r.value != ""
  {
    var missing := Missing(env);
    if missing != [] then
      assert missing[0] in missing;
      Raised(ValueError("Missing required environment variables: " + Join(", ", missing)))
    else
      assert IndexNameVar in RequiredNames;
      Returned(GetEnv(env, IndexNameVar, DefaultIndexName))
  }

  /** Leaving the index name unset never makes the check fail on its account: it is reported
      only when set to the empty string. */
  lemma IndexNameOnlyMissingWhenEmpty(env: Env)
    ensures IndexNameVar in Missing(env) <==> IndexNameVar in env && env[IndexNameVar] == ""
  {
    assert IndexNameVar in RequiredNames;
  }
}
