/**
 * Process configuration and the password check shared by the routes: the
 * environment is a parameter (a map from variable name to value), the
 * defaults are the source's constants.
 */
module Config {
  import opened Outcomes
  import opened Text
  import opened JsValues

  /** `process.env`: the variables that are set, with their values. */
  type Env = map<string, string>

  /** `process.env.NAME` is truthy: set and not empty. */
  predicate IsSet(env: Env, name: string)
  {
    name in env && env[name] != ""
  }

  /** `process.env.NAME || fallback` */
  function EnvOr(env: Env, name: string, fallback: string): string
  {
    if IsSet(env, name) then env[name] else fallback
  }

  /** `process.env.NAME || undefined`, for the optional namespace. */
  function EnvOpt(env: Env, name: string): Option<string>
  {
    if IsSet(env, name) then Some(env[name]) else None
  }

  const OpenAiKeyVar := "OPENAI_API_KEY"
  const PineconeKeyVar := "PINECONE_API_KEY"
  const PineconeIndexVar := "PINECONE_INDEX"

  /** The variables the vector routes need, in the order they are reported. */
  const RequiredVars: seq<string> := [OpenAiKeyVar, PineconeKeyVar, PineconeIndexVar]

  /** The settings read once at start-up. */
  datatype Settings = Settings(
    embeddingModel: string,
    chatModel: string,
    chatPassword: string,
    embedPassword: string,
    index: Option<string>,
    namespace: Option<string>)

  const DefaultEmbeddingModel := "text-embedding-3-small"
  const DefaultChatModel := "gpt-4o-mini"
  const DefaultChatPassword := "120996"
  const DefaultEmbedPassword := "01648728"

  /** The settings for an environment; an unset or empty variable takes its
      default, a set one is taken as it is. The index is taken whenever the
      variable exists, the namespace only when it is not empty. */
  function LoadSettings(env: Env): (s: Settings)
    ensures s.chatPassword != "" && s.embedPassword != ""
    ensures s.embeddingModel != "" && s.chatModel != ""
    ensures IsSet(env, "EMBEDDING_MODEL") ==> s.embeddingModel == env["EMBEDDING_MODEL"]
    ensures !IsSet(env, "EMBEDDING_MODEL") ==> s.embeddingModel == DefaultEmbeddingModel
    ensures IsSet(env, "OPENAI_CHAT_MODEL") ==> s.chatModel == env["OPENAI_CHAT_MODEL"]
    ensures !IsSet(env, "OPENAI_CHAT_MODEL") ==> s.chatModel == DefaultChatModel
    ensures IsSet(env, "CHAT_PASSWORD") ==> s.chatPassword == env["CHAT_PASSWORD"]
    ensures !IsSet(env, "CHAT_PASSWORD") ==> s.chatPassword == DefaultChatPassword
    ensures IsSet(env, "EMBED_PASSWORD") ==> s.embedPassword == env["EMBED_PASSWORD"]
    ensures !IsSet(env, "EMBED_PASSWORD") ==> s.embedPassword == DefaultEmbedPassword
    ensures s.index.Some? <==> PineconeIndexVar in env
    ensures s.index.Some? ==> s.index.value == env[PineconeIndexVar]
    ensures s.namespace.Some? <==> IsSet(env, "PINECONE_NAMESPACE")
    ensures s.namespace.Some? ==> s.namespace.value == env["PINECONE_NAMESPACE"]
    ensures env == map[] ==> s == Settings(DefaultEmbeddingModel, DefaultChatModel, DefaultChatPassword,
                                           DefaultEmbedPassword, None, None)
  {
    Settings(
      EnvOr(env, "EMBEDDING_MODEL", DefaultEmbeddingModel),
      EnvOr(env, "OPENAI_CHAT_MODEL", DefaultChatModel),
      EnvOr(env, "CHAT_PASSWORD", DefaultChatPassword),
      EnvOr(env, "EMBED_PASSWORD", DefaultEmbedPassword),
      if PineconeIndexVar in env then Some(env[PineconeIndexVar]) else None,
      EnvOpt(env, "PINECONE_NAMESPACE"))
  }

  /** The test `!process.env.NAME` as a function of the name. */
  function UnsetIn(env: Env): string -> bool
  {
    name => !IsSet(env, name)
  }

  /** The required variables that are not set, in the fixed order. */
  function MissingVars(env: Env): seq<string>
  {
    Filter(RequiredVars, UnsetIn(env))
  }

  /** The configuration error message for a non-empty list of missing names. */
  function ConfigMessage(missing: seq<string>): string
  {
    "Variáveis de ambiente ausentes: " + Join(missing, ", ")
  }

  /** assertVectorConfig(): `None` when all three variables are set, otherwise
      the message that lists exactly the missing ones. */
  method AssertVectorConfig(env: Env) returns (err: Option<string>)
    ensures err.None? <==> IsSet(env, OpenAiKeyVar) && IsSet(env, PineconeKeyVar) && IsSet(env, PineconeIndexVar)
    ensures err.Some? ==> err.value == ConfigMessage(MissingVars(env))
  {
    var missing: seq<string> := [];
    if !IsSet(env, OpenAiKeyVar) { missing := missing + [OpenAiKeyVar]; }
    assert missing == (if IsSet(env, OpenAiKeyVar) then [] else [OpenAiKeyVar]);
    if !IsSet(env, PineconeKeyVar) { missing := missing + [PineconeKeyVar]; }
    if !IsSet(env, PineconeIndexVar) { missing := missing + [PineconeIndexVar]; }
    MissingVarsUnrolled(env);
    assert missing == MissingVars(env);
    if |missing| > 0 {
      err := Some(ConfigMessage(missing));
    } else {
      err := None;
    }
  }

  /** The missing list, spelled out one variable at a time. */
  lemma MissingVarsUnrolled(env: Env)
    ensures MissingVars(env)
      == (if IsSet(env, OpenAiKeyVar) then [] else [OpenAiKeyVar])
       + (if IsSet(env, PineconeKeyVar) then [] else [PineconeKeyVar])
       + (if IsSet(env, PineconeIndexVar) then [] else [PineconeIndexVar])
  {
    var p := UnsetIn(env);
    var rest := RequiredVars[1..];
    assert rest == [PineconeKeyVar, PineconeIndexVar];
    assert rest[1..] == [PineconeIndexVar];
    assert rest[1..][1..] == [];
    assert Filter(rest[1..], p) == (if p(PineconeIndexVar) then [PineconeIndexVar] else []) + Filter(rest[1..][1..], p);
    assert Filter(rest, p) == (if p(PineconeKeyVar) then [PineconeKeyVar] else []) + Filter(rest[1..], p);
  }

  /** The missing list names exactly the unset required variables, in the order
      of the required list. */
  lemma MissingVarsExact(env: Env)
    ensures forall name :: name in MissingVars(env) <==> name in RequiredVars && !IsSet(env, name)
    ensures IsSubsequence(MissingVars(env), RequiredVars)
    ensures MissingVars(env) == [] <==> forall name :: name in RequiredVars ==> IsSet(env, name)
  {
    FilterSpec(RequiredVars, UnsetIn(env));
    if MissingVars(env) != [] {
      assert MissingVars(env)[0] in MissingVars(env);
    }
  }

  /** The password a request offers: the header when it is a non-empty string,
      otherwise `body?.password` (`header || body?.password`). */
  function Provided(header: Option<string>, body: JsVal): JsVal
  {
    if header.Some? && header.value != "" then Str(header.value) else OptMember(body, "password")
  }

  /** `(provided ?? '') !== expected` fails: the offered password is the expected string. */
  predicate Authorized(header: Option<string>, body: JsVal, expected: string)
  {
    var provided := Provided(header, body);
    (if IsNullish(provided) then Str("") else provided) == Str(expected)
  }

  /** With a non-empty expected password, a request is authorised exactly when a
      non-empty header equals it, or there is no such header and the body's
      `password` is that same string. A header takes precedence: a wrong header
      is refused whatever the body says, and a number is never a password. */
  lemma AuthorizedIff(header: Option<string>, body: JsVal, expected: string)
    requires expected != ""
    ensures Authorized(header, body, expected) <==>
              if header.Some? && header.value != "" then header.value == expected
              else OptMember(body, "password") == Str(expected)
  {
  }
}
