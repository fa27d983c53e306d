/**
 * The chat handler (`POST /chat`, `POST /api/chat`): its validation, the
 * clamping of `topK`, the numbered context blocks built from the matches, the
 * 8000-character cut, the prompts and the answer. The embedding service, the
 * vector index, the chat model and the formatting of scores are parameters.
 */
module Chat {
  import opened Outcomes
  import opened Text
  import opened JsValues
  import opened Canonical
  import opened Config
  import Ingestion

  type Vector = Ingestion.Vector

  const DefaultTopK := 20
  const MinTopK := 1
  const MaxTopK := 30
  const ContextLimit := 8000
  const Temperature: real := 0.2
  const BlockSeparator := "\n\n"

  // ---------------------------------------------------------------------
  // Reading the request.
  // ---------------------------------------------------------------------

  /** `(req.body && req.body.question) ? String(req.body.question) : ''` */
  function Question(body: JsVal): string
  {
    var q := OptMember(body, "question");
    if Truthy(body) && Truthy(q) then ToStr(q) else ""
  }

  /** A question given as a string is taken as it is; a missing one is empty. */
  lemma QuestionCases(body: JsVal, s: string)
    ensures body.Obj? && "question" !in body.fields ==> Question(body) == ""
    ensures body.Obj? && "question" in body.fields && body.fields["question"] == Str(s) ==> Question(body) == s
    ensures IsNullish(body) ==> Question(body) == ""
  {
  }

  /** `Math.max(1, Math.min(30, Number(req.body?.topK || 20)))`; `None` stands
      for NaN, which both `Math.min` and `Math.max` pass through. */
  function TopK(body: JsVal): (k: Option<int>)
    ensures k.Some? ==> MinTopK <= k.value <= MaxTopK
  {
    var raw := OptMember(body, "topK");
    var n := ToNumber(if Truthy(raw) then raw else Num(DefaultTopK));
    if n.None? then None else Some(Max(MinTopK, Min(MaxTopK, n.value)))
  }

  /** A falsy `topK` (missing, null, 0, "" or false) gives 20; an integer, as
      a number or as its decimal string, is clamped into [1, 30], so one in
      range is kept as it is. */
  lemma TopKCases(body: JsVal, n: int)
    ensures !Truthy(OptMember(body, "topK")) ==> TopK(body) == Some(DefaultTopK)
    ensures n != 0 && OptMember(body, "topK") == Num(n) ==> TopK(body) == Some(Max(MinTopK, Min(MaxTopK, n)))
    ensures OptMember(body, "topK") == Str(IntToString(n)) ==> TopK(body) == Some(Max(MinTopK, Min(MaxTopK, n)))
    ensures MinTopK <= n <= MaxTopK && OptMember(body, "topK") == Num(n) ==> TopK(body) == Some(n)
  {
    ParseIntegerOfIntToString(n);
  }

  // ---------------------------------------------------------------------
  // Matches and context.
  // ---------------------------------------------------------------------

  /** A match as the index returns it; its metadata may be missing. */
  datatype RawMatch = RawMatch(id: string, score: real, metadata: Option<Record>)

  /** `{ id, score, metadata: m.metadata || {} }` */
  datatype Match = Match(id: string, score: real, metadata: Record)

  /** The answer of a query; `matches` may be missing. */
  datatype QueryResult = QueryResult(matches: Option<seq<RawMatch>>)

  /** `(queryRes.matches || []).map(...)`: the matches in the order the index
      gave them, each keeping its id and score, a missing metadata object
      becoming the empty one. */
  function Matches(result: QueryResult): (ms: seq<Match>)
    ensures result.matches.None? ==> ms == []
    ensures result.matches.Some? ==>
      && |ms| == |result.matches.value|
      && forall i :: 0 <= i < |ms| ==>
           var raw := result.matches.value[i];
           && ms[i].id == raw.id && ms[i].score == raw.score
           && (raw.metadata.Some? ==> ms[i].metadata == raw.metadata.value)
           && (raw.metadata.None? ==> ms[i].metadata == map[])
  {
    match result.matches
    case None => []
    case Some(raws) =>
      seq(|raws|, i requires 0 <= i < |raws| => Match(raws[i].id, raws[i].score, raws[i].metadata.GetOr(map[])))
  }

  const ResultPrefix := "# Resultado "

  /** The first line of block `i`: `# Resultado {i + 1} (score: {score})`. */
  function Heading(i: nat, score: string): string
  {
    ResultPrefix + NatToString(i + 1) + " (score: " + score + ")\n"
  }

  /** `contextBlocks`: block `i` is its heading followed by the context rebuilt
      from match `i`'s metadata. `format` is `Number(score).toFixed(3)`. */
  function Blocks(ms: seq<Match>, format: real -> string): (blocks: seq<string>)
    ensures |blocks| == |ms|
  {
    seq(|ms|, i requires 0 <= i < |ms| => Heading(i, format(ms[i].score)) + MetadataContext(ms[i].metadata))
  }

  /** The number a reader of the context takes from a block: the digits after
      `# Resultado `, if the block starts so. */
  function BlockNumber(block: string): Option<nat>
  {
    if |block| >= |ResultPrefix| && block[..|ResultPrefix|] == ResultPrefix
    then Some(DigitsValue(LeadingDigits(block[|ResultPrefix|..])))
    else None
  }

  /** Block `i` is numbered `i + 1`, whatever the score and metadata, and ends
      with the context rebuilt from match `i`; so no two blocks are alike. */
  lemma BlocksNumbered(ms: seq<Match>, format: real -> string)
    ensures forall i :: 0 <= i < |ms| ==> BlockNumber(Blocks(ms, format)[i]) == Some(i + 1)
    ensures forall i :: 0 <= i < |ms| ==>
              var block, context := Blocks(ms, format)[i], MetadataContext(ms[i].metadata);
              |context| <= |block| && block[|block| - |context|..] == context
    ensures forall i, j :: 0 <= i < j < |ms| ==> Blocks(ms, format)[i] != Blocks(ms, format)[j]
  {
    var blocks := Blocks(ms, format);
    forall i | 0 <= i < |ms|
      ensures BlockNumber(blocks[i]) == Some(i + 1)
    {
      BlockNumberOf(i, format(ms[i].score), MetadataContext(ms[i].metadata));
    }
  }

  /** A heading's number is read back from any block it starts. */
  lemma BlockNumberOf(i: nat, score: string, rest: string)
    ensures BlockNumber(Heading(i, score) + rest) == Some(i + 1)
  {
    var n := NatToString(i + 1);
    var tail := " (score: " + score + ")\n" + rest;
    var block := Heading(i, score) + rest;
    assert block == ResultPrefix + (n + tail);
    assert block[|ResultPrefix|..] == n + tail;
    LeadingDigitsOf(n, tail);
    DigitsValueOfNatToString(i + 1);
  }

  /** A heading gives away its block number and its score: no two blocks are
      headed alike. */
  lemma HeadingInjective(i: nat, a: string, j: nat, b: string)
    requires Heading(i, a) == Heading(j, b)
    ensures i == j && a == b
  {
    var prefix := ResultPrefix;
    var ni, nj := NatToString(i + 1), NatToString(j + 1);
    var tailI, tailJ := " (score: " + a + ")\n", " (score: " + b + ")\n";
    assert Heading(i, a) == prefix + (ni + tailI);
    assert Heading(j, b) == prefix + (nj + tailJ);
    assert ni + tailI == Heading(i, a)[|prefix|..] == Heading(j, b)[|prefix|..] == nj + tailJ;
    DigitsThenSpace(ni, tailI, nj, tailJ);
    NatToStringInjective(i + 1, j + 1);
    assert tailI == tailJ;
    assert a == tailI[9..|tailI| - 2] && b == tailJ[9..|tailJ| - 2];
  }

  /** A run of digits followed by a non-digit is determined by the string. */
  lemma DigitsThenSpace(x: string, r: string, y: string, t: string)
    requires AllDigits(x) && AllDigits(y) && |r| > 0 && |t| > 0 && !IsDigit(r[0]) && !IsDigit(t[0])
    requires x + r == y + t
    ensures x == y && r == t
  {
    assert x == (x + r)[..|x|] && y == (y + t)[..|y|];
    assert r == (x + r)[|x|..] && t == (y + t)[|y|..];
  }

  /** `context.slice(0, 8000)` when it is longer than that. */
  function Truncated(s: string): (t: string)
    ensures |t| == Min(|s|, ContextLimit)
    ensures t == s[..|t|]
    ensures |s| <= ContextLimit ==> t == s
  {
    if |s| > ContextLimit then s[..ContextLimit] else s
  }

  /** `let context = contextBlocks.join('\n\n'); if (context.length > 8000) ...` */
  method AssembleContext(blocks: seq<string>) returns (context: string)
    ensures context == Truncated(Join(blocks, BlockSeparator))
  {
    context := Join(blocks, BlockSeparator);
    if |context| > ContextLimit {
      context := context[..ContextLimit];
    }
  }

  /** The context of a query that found something begins with the first
      match's heading; one that found nothing is empty. */
  lemma ContextBegins(ms: seq<Match>, format: real -> string)
    ensures ms == [] ==> Truncated(Join(Blocks(ms, format), BlockSeparator)) == ""
    ensures ms != [] ==>
      var heading := Heading(0, format(ms[0].score));
      var context := Truncated(Join(Blocks(ms, format), BlockSeparator));
      |heading| <= ContextLimit ==> |context| >= |heading| && context[..|heading|] == heading
  {
    if ms != [] {
      var blocks := Blocks(ms, format);
      var heading := Heading(0, format(ms[0].score));
      JoinStartsWithFirst(blocks, BlockSeparator);
      var joined := Join(blocks, BlockSeparator);
      assert blocks[0][..|heading|] == heading;
      assert joined[..|heading|] == heading by {
        assert joined[..|blocks[0]|] == blocks[0];
      }
      if |heading| <= ContextLimit {
        var context := Truncated(joined);
        assert context[..|heading|] == joined[..|heading|];
      }
    }
  }

  // ---------------------------------------------------------------------
  // Prompts and answer.
  // ---------------------------------------------------------------------

  const SystemSentences: seq<string> := [
    "Você é um assistente de suporte técnico de um ERP chamado Pro-Dados Plus. Responda em português de forma objetiva e prática.",
    "Use apenas as informações do CONTEXTO fornecido. Se o contexto não ajudar, admita e sugira passos de diagnóstico.",
    "Se houver passos de comando (ex.: plusinstall), descreva-os com cuidado."
  ]

  /** The system prompt: the three sentences joined with a space. */
  const SystemPrompt := Join(SystemSentences, " ")

  const QuestionHeader := "Pergunta do usuário:\n"
  const ContextHeader := "\n\nCONTEXTO (resultados do banco vetorial):\n"

  /** The user prompt template. */
  function UserPrompt(question: string, context: string): (prompt: string)
    ensures |prompt| == |QuestionHeader| + |question| + |ContextHeader| + |context|
  {
    QuestionHeader + question + ContextHeader + context
  }

  /** The question and the context can be read back from the user prompt at
      their fixed places, so equal prompts for questions of equal length have
      equal questions and contexts. */
  lemma UserPromptParts(question: string, context: string)
    ensures var prompt := UserPrompt(question, context);
      && prompt[..|QuestionHeader|] == QuestionHeader
      && prompt[|QuestionHeader|..|QuestionHeader| + |question|] == question
      && prompt[|QuestionHeader| + |question|..|prompt| - |context|] == ContextHeader
      && prompt[|prompt| - |context|..] == context
  {
    var prompt := UserPrompt(question, context);
    assert prompt == QuestionHeader + question + ContextHeader + context;
  }

  lemma UserPromptInjective(q1: string, c1: string, q2: string, c2: string)
    requires |q1| == |q2| && UserPrompt(q1, c1) == UserPrompt(q2, c2)
    ensures q1 == q2 && c1 == c2
  {
    UserPromptParts(q1, c1);
    UserPromptParts(q2, c2);
  }

  datatype Message = Message(content: Option<string>)
  datatype Choice = Choice(message: Option<Message>)
  datatype Completion = Completion(choices: Option<seq<Choice>>)

  /** `completion.choices?.[0]?.message?.content || ''` */
  function Answer(c: Completion): (a: string)
    ensures a == "" <==> || c.choices.None? || |c.choices.value| == 0
                         || c.choices.value[0].message.None?
                         || c.choices.value[0].message.value.content.None?
                         || c.choices.value[0].message.value.content.value == ""
    ensures a != "" ==> a == c.choices.value[0].message.value.content.value
  {
    if c.choices.Some? && |c.choices.value| > 0 && c.choices.value[0].message.Some?
       && c.choices.value[0].message.value.content.Some?
    then c.choices.value[0].message.value.content.value
    else ""
  }

  // ---------------------------------------------------------------------
  // The handler.
  // ---------------------------------------------------------------------

  datatype ChatCall =
    | EmbedQuestion(texts: seq<string>)
    | QueryIndex(vector: Option<Vector>, topK: Option<int>, includeMetadata: bool)
    | Complete(model: string, temperature: real, system: string, user: string)

  /** The outside world of the handler: `embed` gets the texts, `query` the
      vector and `topK`, `complete` the model and the two prompts. */
  datatype ChatServices = ChatServices(
    embed: seq<string> -> Result<seq<Vector>, string>,
    query: (Option<Vector>, Option<int>) -> Result<QueryResult, string>,
    complete: (string, string, string) -> Result<Completion, string>,
    formatScore: real -> string)

  datatype ChatReply =
    | Answered(answer: string, matches: seq<Match>)
    | Rejected(status: nat, error: string, details: Option<string>)

  datatype ChatRun = ChatRun(calls: seq<ChatCall>, reply: ChatReply)

  const MethodNotAllowed := "Method not allowed"
  const ConfigError := "Configuração inválida"
  const Unauthorized := "Não autorizado"
  const QuestionRequired := "Campo \"question\" é obrigatório"
  const ChatFailure := "Falha ao processar chat"

  /** The three service calls of a validated request and the reply they lead to;
      the first failing call ends the request with a 500. */
  function Answering(svc: ChatServices, question: string, topK: Option<int>, model: string): ChatRun
  {
    var embedded := svc.embed([question]);
    if embedded.Err? then ChatRun([EmbedQuestion([question])], Rejected(500, ChatFailure, Some(embedded.error)))
    else
      var vector := if |embedded.value| > 0 then Some(embedded.value[0]) else None;
      var asked := [EmbedQuestion([question]), QueryIndex(vector, topK, true)];
      var queried := svc.query(vector, topK);
      if queried.Err? then ChatRun(asked, Rejected(500, ChatFailure, Some(queried.error)))
      else
        var matches := Matches(queried.value);
        var context := Truncated(Join(Blocks(matches, svc.formatScore), BlockSeparator));
        var user := UserPrompt(question, context);
        var completed := svc.complete(model, SystemPrompt, user);
        var calls := asked + [Complete(model, Temperature, SystemPrompt, user)];
        if completed.Err? then ChatRun(calls, Rejected(500, ChatFailure, Some(completed.error)))
        else ChatRun(calls, Answered(Answer(completed.value), matches))
  }

  /** A validated request embeds the question first, then queries the index
      with the clamped `topK`, then asks the model; an answer comes only after
      all three, and its matches are the ones the context was built from. */
  lemma AnsweringOrder(svc: ChatServices, question: string, topK: Option<int>, model: string)
    ensures var run := Answering(svc, question, topK, model);
      && 1 <= |run.calls| <= 3
      && run.calls[0] == EmbedQuestion([question])
      && (|run.calls| >= 2 ==> run.calls[1].QueryIndex? && run.calls[1].topK == topK && run.calls[1].includeMetadata)
      && (run.reply.Rejected? ==> run.reply.status == 500 && run.reply.error == ChatFailure)
      && (run.reply.Answered? ==>
            && |run.calls| == 3
            && run.calls[2] == Complete(model, Temperature, SystemPrompt,
                 UserPrompt(question, Truncated(Join(Blocks(run.reply.matches, svc.formatScore), BlockSeparator)))))
  {
  }

  /** The `try` block of the handler after validation: embed, query, build the
      context and the prompts, complete. */
  method AnswerQuestion(svc: ChatServices, question: string, topK: Option<int>, model: string)
    returns (calls: seq<ChatCall>, reply: ChatReply)
    ensures ChatRun(calls, reply) == Answering(svc, question, topK, model)
  {
    calls := [EmbedQuestion([question])];
    var embedded := svc.embed([question]);
    if embedded.Err? {
      return calls, Rejected(500, ChatFailure, Some(embedded.error));
    }
    var vector := if |embedded.value| > 0 then Some(embedded.value[0]) else None;

    calls := calls + [QueryIndex(vector, topK, true)];
    var queried := svc.query(vector, topK);
    if queried.Err? {
      return calls, Rejected(500, ChatFailure, Some(queried.error));
    }
    var matches := Matches(queried.value);

    var context := AssembleContext(Blocks(matches, svc.formatScore));
    var user := UserPrompt(question, context);
    calls := calls + [Complete(model, Temperature, SystemPrompt, user)];
    var completed := svc.complete(model, SystemPrompt, user);
    if completed.Err? {
      return calls, Rejected(500, ChatFailure, Some(completed.error));
    }
    reply := Answered(Answer(completed.value), matches);
  }

  /** The request is a POST, the configuration is complete, the password
      matches and the question is not empty. */
  predicate Accepted(httpMethod: string, env: Env, header: Option<string>, body: JsVal)
  {
    && httpMethod == "POST"
    && Configured(env)
    && Authorized(header, body, LoadSettings(env).chatPassword)
    && Question(body) != ""
  }

  /** The configuration is complete. */
  predicate Configured(env: Env)
  {
    IsSet(env, OpenAiKeyVar) && IsSet(env, PineconeKeyVar) && IsSet(env, PineconeIndexVar)
  }

  /** The guards of the handler in order (method 405, configuration 500,
      password 401, question 400); `None` when the request passes them all. */
  method CheckRequest(httpMethod: string, env: Env, header: Option<string>, body: JsVal)
    returns (refusal: Option<ChatReply>)
    ensures httpMethod != "POST" ==> refusal == Some(Rejected(405, MethodNotAllowed, None))
    ensures httpMethod == "POST" && !Configured(env) ==>
              refusal == Some(Rejected(500, ConfigError, Some(ConfigMessage(MissingVars(env)))))
    ensures httpMethod == "POST" && Configured(env) && !Authorized(header, body, LoadSettings(env).chatPassword) ==>
              refusal == Some(Rejected(401, Unauthorized, None))
    ensures (httpMethod == "POST" && Configured(env) && Authorized(header, body, LoadSettings(env).chatPassword)
             && Question(body) == "") ==> refusal == Some(Rejected(400, QuestionRequired, None))
    ensures refusal.None? <==> Accepted(httpMethod, env, header, body)
  {
    if httpMethod != "POST" {
      return Some(Rejected(405, MethodNotAllowed, None));
    }
    var cfgErr := AssertVectorConfig(env);
    if cfgErr.Some? {
      return Some(Rejected(500, ConfigError, Some(cfgErr.value)));
    }
    if !Authorized(header, body, LoadSettings(env).chatPassword) {
      return Some(Rejected(401, Unauthorized, None));
    }
    if Question(body) == "" {
      return Some(Rejected(400, QuestionRequired, None));
    }
    return None;
  }

  /** handler(req, res): a request the guards refuse gets their reply (405,
      500 with the missing variables, 401, 400, in that order) before any
      service call; an accepted one makes the calls of `Answering` with
      its question, its clamped `topK` and the configured chat model. */
  method ChatHandler(httpMethod: string, env: Env, header: Option<string>, body: JsVal, svc: ChatServices)
    returns (calls: seq<ChatCall>, reply: ChatReply)
    ensures !Accepted(httpMethod, env, header, body) ==> calls == []
    ensures httpMethod != "POST" ==> reply == Rejected(405, MethodNotAllowed, None)
    ensures httpMethod == "POST" && !Configured(env) ==>
              reply == Rejected(500, ConfigError, Some(ConfigMessage(MissingVars(env))))
    ensures httpMethod == "POST" && Configured(env) && !Authorized(header, body, LoadSettings(env).chatPassword) ==>
              reply == Rejected(401, Unauthorized, None)
    ensures (httpMethod == "POST" && Configured(env) && Authorized(header, body, LoadSettings(env).chatPassword)
             && Question(body) == "") ==> reply == Rejected(400, QuestionRequired, None)
    ensures Accepted(httpMethod, env, header, body) ==>
      ChatRun(calls, reply) == Answering(svc, Question(body), TopK(body), LoadSettings(env).chatModel)
  {
    var refusal := CheckRequest(httpMethod, env, header, body);
    if refusal.Some? {
      return [], refusal.value;
    }
    calls, reply := AnswerQuestion(svc, Question(body), TopK(body), LoadSettings(env).chatModel);
  }
}
