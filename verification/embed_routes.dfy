/**
 * The two ingestion routes, `POST /embed-json` and `POST /embed-excel`: their
 * guards, in the order they run, and the reply each outcome gives. The
 * environment, the request and the services are parameters.
 */
module EmbedRoutes {
  import opened Outcomes
  import opened JsValues
  import opened Config
  import opened Ingestion

  const JsonSource := "api:/embed-json"
  const ExcelSource := "api:/embed-excel"

  /** A JSON reply: the success object of an ingestion, or an error object with
      its status code. */
  datatype Reply =
    | Ingested(upserted: nat, index: Option<string>, namespace: Option<string>, model: string)
    | Refused(status: nat, error: string, details: Option<string>)

  function Status(r: Reply): nat
  {
    if r.Ingested? then 200 else r.status
  }

  const ConfigError := "Configuração inválida"
  const Unauthorized := "Não autorizado"
  const NotAnArray := "O corpo da requisição deve ser um array de objetos"
  const JsonFailure := "Falha ao processar embeddings"
  const NoFileError := "Envie um arquivo Excel no campo \"excelFile\""
  const NoSheet := "Arquivo Excel sem planilhas"
  const NoRows := "Não foi possível extrair dados do Excel"
  const ExcelFailure := "Falha ao processar embeddings (Excel)"

  /** The reply for the end of an ingestion. */
  function Finish(s: Settings, outcome: Outcome, failure: string): Reply
  {
    match outcome
    case Done(n) => Ingested(n, s.index, s.namespace, s.embeddingModel)
    case Failed(f) => Refused(500, failure, Some(FailureMessage(f)))
  }

  /** The guards both routes share: configuration, then the embed password. */
  method CheckAccess(env: Env, header: Option<string>, body: JsVal) returns (refusal: Option<Reply>)
    ensures !(IsSet(env, OpenAiKeyVar) && IsSet(env, PineconeKeyVar) && IsSet(env, PineconeIndexVar))
            ==> refusal == Some(Refused(500, ConfigError, Some(ConfigMessage(MissingVars(env)))))
    ensures IsSet(env, OpenAiKeyVar) && IsSet(env, PineconeKeyVar) && IsSet(env, PineconeIndexVar)
            ==> refusal == (if Authorized(header, body, LoadSettings(env).embedPassword) then None
                            else Some(Refused(401, Unauthorized, None)))
  {
    var cfgErr := AssertVectorConfig(env);
    if cfgErr.Some? {
      return Some(Refused(500, ConfigError, Some(cfgErr.value)));
    }
    if !Authorized(header, body, LoadSettings(env).embedPassword) {
      return Some(Refused(401, Unauthorized, None));
    }
    return None;
  }

  /** `POST /embed-json`: the body is the array of tickets. Every refusal comes
      before any service call; otherwise the calls are those of the ingestion
      loop over the body, and the reply reports its outcome. */
  method EmbedJson(env: Env, header: Option<string>, body: JsVal, svc: Services)
    returns (calls: seq<Call>, reply: Reply)
    ensures var configured := IsSet(env, OpenAiKeyVar) && IsSet(env, PineconeKeyVar) && IsSet(env, PineconeIndexVar);
      var authorized := Authorized(header, body, LoadSettings(env).embedPassword);
      && (!configured ==> calls == [] && reply == Refused(500, ConfigError, Some(ConfigMessage(MissingVars(env)))))
      && (configured && !authorized ==> calls == [] && reply == Refused(401, Unauthorized, None))
      && (configured && authorized && !body.Arr? ==> calls == [] && reply == Refused(400, NotAnArray, None))
      && (configured && authorized && body.Arr? ==>
            var run := RunFrom(svc, body.items, JsonSource, 0);
            calls == run.calls && reply == Finish(LoadSettings(env), run.outcome, JsonFailure))
    ensures reply.Ingested? ==> body.Arr? && reply.upserted == |body.items|
  {
    var refusal := CheckAccess(env, header, body);
    if refusal.Some? {
      return [], refusal.value;
    }
    if !body.Arr? {
      return [], Refused(400, NotAnArray, None);
    }
    var outcome;
    calls, outcome := UpsertInBatches(svc, body.items, JsonSource);
    if outcome.Done? {
      RunDoneCounts(svc, body.items, JsonSource, 0);
    }
    reply := Finish(LoadSettings(env), outcome, JsonFailure);
  }

  /** One sheet of a workbook: its name and the rows `sheet_to_json` gives,
      each an object with every column (an empty cell as null). */
  datatype Sheet = Sheet(name: string, rows: seq<JsVal>)

  /** The upload of a request: no file, a file the workbook reader rejected
      (with the message of its error), or the workbook's sheets in order. */
  datatype Upload =
    | NoFile
    | Unreadable(message: string)
    | Workbook(sheets: seq<Sheet>)

  /** The workbook has a first sheet, and that sheet has a name. */
  predicate HasNamedSheet(upload: Upload)
  {
    upload.Workbook? && upload.sheets != [] && upload.sheets[0].name != ""
  }

  /** `POST /embed-excel`: the rows of the workbook's first sheet are the
      tickets. The same access guards come first; then a missing file, a
      workbook without a (named) first sheet and a sheet without rows are each
      refused with 400, before any service call. */
  method EmbedExcel(env: Env, header: Option<string>, body: JsVal, upload: Upload, svc: Services)
    returns (calls: seq<Call>, reply: Reply)
    ensures var configured := IsSet(env, OpenAiKeyVar) && IsSet(env, PineconeKeyVar) && IsSet(env, PineconeIndexVar);
      var authorized := Authorized(header, body, LoadSettings(env).embedPassword);
      && (!configured ==> calls == [] && reply == Refused(500, ConfigError, Some(ConfigMessage(MissingVars(env)))))
      && (configured && !authorized ==> calls == [] && reply == Refused(401, Unauthorized, None))
      && (configured && authorized && upload.NoFile? ==> calls == [] && reply == Refused(400, NoFileError, None))
      && (configured && authorized && upload.Unreadable? ==>
            calls == [] && reply == Refused(500, ExcelFailure, Some(upload.message)))
      && (configured && authorized && upload.Workbook? && !HasNamedSheet(upload) ==>
            calls == [] && reply == Refused(400, NoSheet, None))
      && (configured && authorized && HasNamedSheet(upload) && upload.sheets[0].rows == [] ==>
            calls == [] && reply == Refused(400, NoRows, None))
      && (configured && authorized && HasNamedSheet(upload) && upload.sheets[0].rows != [] ==>
            var run := RunFrom(svc, upload.sheets[0].rows, ExcelSource, 0);
            calls == run.calls && reply == Finish(LoadSettings(env), run.outcome, ExcelFailure))
    ensures reply.Ingested? ==> HasNamedSheet(upload) && 0 < |upload.sheets[0].rows| == reply.upserted
  {
    var refusal := CheckAccess(env, header, body);
    if refusal.Some? {
      return [], refusal.value;
    }
    if upload.NoFile? {
      return [], Refused(400, NoFileError, None);
    }
    if upload.Unreadable? {
      return [], Refused(500, ExcelFailure, Some(upload.message));
    }
    var sheets := upload.sheets;
    if sheets == [] || sheets[0].name == "" {
      return [], Refused(400, NoSheet, None);
    }
    var rows := sheets[0].rows;
    if |rows| == 0 {
      return [], Refused(400, NoRows, None);
    }
    var outcome;
    calls, outcome := UpsertInBatches(svc, rows, ExcelSource);
    if outcome.Done? {
      RunDoneCounts(svc, rows, ExcelSource, 0);
    }
    reply := Finish(LoadSettings(env), outcome, ExcelFailure);
  }
}
