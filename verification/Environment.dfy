/** The process environment as the program reads it through `os.getenv`, and
    the validator that both entry points run before anything else. */
module Environment {
  import opened Results

  /** Variables of the process environment. A name outside the map is unset. */
  type Env = map<string, string>

  const OpenAiKey: string := "OPENAI_API_KEY"
  const GoogleKey: string := "GOOGLE_API_KEY"
  const PdfPath: string := "PDF_PATH"
  const DatabaseUrl: string := "DATABASE_URL"
  const CollectionName: string := "PG_VECTOR_COLLECTION_NAME"
  const EmbeddingsModel: string := "OPENAI_EMBEDDINGS_MODEL"
  const OpenAiLlmModel: string := "OPENAI_LLM_MODEL"
  const GoogleLlmModel: string := "GOOGLE_LLM_MODEL"

  /** `os.getenv(key)` is truthy: the variable exists and is not empty. */
  predicate IsSet(env: Env, key: string) {
    key in env && env[key] != ""
  }

  /** `os.getenv(key, default)`: the default replaces only an ABSENT variable;
      a variable set to the empty string yields the empty string. */
  function GetOr(env: Env, key: string, default: string): (v: string)
    ensures key !in env ==> v == default
    ensures key in env ==> v == env[key]
  {
    if key in env then env[key] else default
  }

  const DefaultEmbeddingsModel: string := "text-embedding-3-small"

  /** The embedding model both entry points construct: the configured
      name, or the default when the variable is absent. */
  function EmbeddingsModelName(env: Env): (name: string)
    ensures EmbeddingsModel !in env ==> name == DefaultEmbeddingsModel
    ensures EmbeddingsModel in env ==> name == env[EmbeddingsModel]
  {
    GetOr(env, EmbeddingsModel, DefaultEmbeddingsModel)
  }

  /** Index `i` names the first key of `keys` that is not set. */
  ghost predicate FirstUnset(env: Env, keys: seq<string>, i: int) {
    && 0 <= i < |keys|
    && !IsSet(env, keys[i])
    && forall j | 0 <= j < i :: IsSet(env, keys[j])
  }

  /** The position of the first unset key at or after `from`, walking the
      list in order as the validators' `for` loops do. */
  function FirstUnsetFrom(env: Env, keys: seq<string>, from: nat): (r: Option<nat>)
    requires from <= |keys|
    ensures r.None? <==> forall j | from <= j < |keys| :: IsSet(env, keys[j])
    ensures r.Some? ==> from <= r.value < |keys| && !IsSet(env, keys[r.value])
    ensures r.Some? ==> forall j | from <= j < r.value :: IsSet(env, keys[j])
    decreases |keys| - from
  {
    if from == |keys| then None
    else if !IsSet(env, keys[from]) then Some(from)
    else FirstUnsetFrom(env, keys, from + 1)
  }

  /** `check_required_environments` / `check_required_enviroments`: passes
      exactly when every key is set, and otherwise fails naming the first
      key of the list that is absent or empty. */
  function CheckRequired(env: Env, keys: seq<string>): (r: Outcome)
    ensures r.Pass? <==> forall i | 0 <= i < |keys| :: IsSet(env, keys[i])
    ensures r.Fail? ==> exists i :: FirstUnset(env, keys, i) && r.error == MissingVariable(keys[i])
  {
    match FirstUnsetFrom(env, keys, 0)
    case None => Pass
    case Some(i) =>
      assert FirstUnset(env, keys, i);
      Fail(MissingVariable(keys[i]))
  }

  /** The failing key is determined: whenever some key is unset, the
      validator names exactly the first one. */
  lemma CheckRequiredNamesFirst(env: Env, keys: seq<string>, i: nat)
    requires FirstUnset(env, keys, i)
    ensures CheckRequired(env, keys) == Fail(MissingVariable(keys[i]))
  {
    var r := CheckRequired(env, keys);
    var k :| FirstUnset(env, keys, k) && r.error == MissingVariable(keys[k]);
    assert k == i;
  }
}
