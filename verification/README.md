# Ticket gateway core in Dafny

This project models the deterministic core of a retrieval-augmented support
gateway. Tickets come from a JSON body or from the first sheet of a workbook.
Each ticket is turned into a labelled canonical text. The texts are embedded
in chunks of 100, and each chunk is stored in a vector index. Every stored
vector gets a deterministic id and sanitised metadata. The chat handler
embeds a question and queries the index with a clamped `topK`. It rebuilds a
context from the metadata of the matches, cuts it at 8000 characters, builds
the prompts and returns the model's answer.

The external services are parameters of the model:

- the embedding service, the vector store's upsert and query, and the chat
  completion;
- SHA-256 and the clock;
- the formatting of scores (`toFixed(3)`).

A call to one of them is recorded in a trace of calls. That lets the
contracts state the order of the calls, which inputs they get, and which
calls never happen.

Modules, one per file:

- `Outcomes` (`outcomes.dfy`): `Option` and `Result`.
- `Text` (`text.dfy`): `join`, decimal rendering of integers, filtering, subsequences.
- `JsValues` (`js_values.dfy`): JSON-shaped JavaScript values with truthiness, `String(v)` and `Number(v)`.
- `Canonical` (`canonical.dfy`): `buildCanonicalText` and `buildContextFromMetadata`.
- `RecordId` (`record_id.dfy`): `createDeterministicId`.
- `Metadata` (`metadata.dfy`): `sanitizeMetadata` and the metadata object of an ingested ticket.
- `Config` (`config.dfy`): environment defaults, `assertVectorConfig`, the password check.
- `Ingestion` (`ingestion.dfy`): the batched embed-and-upsert loop shared by both ingestion routes.
- `EmbedRoutes` (`embed_routes.dfy`): `POST /embed-json` and `POST /embed-excel`.
- `Convert` (`convert.dfy`): the `solucao`-length row filter of `POST /convert`.
- `Chat` (`chat.dfy`): the chat handler of `api/chat.js`.

The canonical text and the metadata context differ in one test:

- The canonical text emits a field when its value coerced with `safe` is non-empty.
- The metadata context emits it when the value is truthy.

So a numeric `0`, `false` or an empty array behave differently in the two texts.
`ZeroTitleDiverges`, `FalseClientDiverges` and `EmptyTagsDiverge` exhibit this.
`StoredContextIsCanonicalText` proves that the two texts agree for tickets
whose fields are strings.

## Model

| member | source | states |
|---|---|---|
| Text.JoinStartsWithFirst | server.js:73 | A joined list starts with its first part, so it is empty only when that part is empty. |
| Text.NatToString | api/chat.js:77 | The decimal rendering of a number is a non-empty string of digits. |
| Text.DigitsValueOfNatToString | server.js:77 | Reading back the decimal rendering of a number gives the number. |
| Text.NatToStringInjective | server.js:77 | Distinct numbers have distinct decimal renderings. |
| Text.FilterSpec | server.js:339 | A filter keeps exactly the elements satisfying its test, each as many times as it occurs in the input, in their original order (a subsequence). |
| JsValues.ParseIntegerOfIntToString | api/chat.js:58 | `Number` reads the decimal string of any integer, including a negative one, back as that integer. |
| JsValues.NumberOfStringRoundTrip | server.js:336 | `Number(String(n))` is `n` for every integer. |
| JsValues.FalsyValues | server.js:64 | The falsy values are exactly null, undefined, "", 0 and false. |
| Canonical.BuildCanonicalText | server.js:61-74 | The loop pushes one line per field in table order and returns the joined lines, which is `CanonicalText(item)`. |
| Canonical.BuildContextFromMetadata | server.js:117-129 | The loop over the same nine fields returns `MetadataContext(md)`, the lines of the truthy fields joined with newlines. |
| Canonical.RenderCount | server.js:61-74 | There is exactly one line per field that has a value. |
| Canonical.RenderPrefix | server.js:61-74 | Lines are only appended: the lines of fewer fields are a prefix of the lines of more fields. |
| Canonical.LineOfEntry | server.js:64-72 | A field with a value gives the line `"<heading>: <value>"`, placed right after the lines of the fields before it. |
| Canonical.LineFromEntry | server.js:64-72 | Every line is the line of some field that has a value. |
| Canonical.NoValueNoLines | server.js:61-74 | There are no lines exactly when no field has a value. |
| Canonical.EmptyTextIffNoValue | server.js:73 | With non-empty headings, the joined text is empty exactly when no field has a value. |
| Canonical.OnlyEntryLines | server.js:61-74 | When only one field has a value, the lines are that field's line alone. |
| Canonical.HeadingsNonEmpty | server.js:64-72 | All nine headings are non-empty. |
| Canonical.EmptyTextIffNoLines | server.js:61-74 | The canonical text (or the context) is "" exactly when none of the nine fields passes its test, e.g. an all-null ticket. |
| Canonical.CanonicalTextDeterministic | server.js:63 | The canonical text depends only on the `safe` strings of the nine fields: null, undefined, a missing field and "" are interchangeable. |
| Canonical.RenderExact | server.js:61-74 | The lines are exactly the lines of the fields with a value, in table order, and nothing else. |
| Canonical.ContextMatchesCanonicalOnStrings | api/chat.js:28-40 | When every field is a string, null or undefined, the context rebuilt from a record equals its canonical text. |
| Canonical.SingleFieldText | server.js:61-74 | A record in which no ticket field other than `k` is present, whatever other properties it has, yields field `k`'s line alone, or "" when the field fails its test. |
| Canonical.KeysDistinct | server.js:64-72 | The nine fields read nine different properties. |
| Canonical.OneFieldText | server.js:61-74 | The record whose only property is ticket field `k` with value `v` yields that field's line alone, or "" when `v` fails the test; no premise about the other fields is needed. |
| Canonical.ZeroTitleDiverges | server.js:63-64 | A numeric 0 title is embedded as "Título: 0" but leaves no line in the rebuilt context. |
| Canonical.FalseClientDiverges | api/chat.js:34 | A `false` client name is embedded as "Cliente: false" but leaves no line in the context. |
| Canonical.EmptyTagsDiverge | api/chat.js:38 | An empty tags array gives no canonical line, but the context carries an empty "Tags: " line. |
| RecordId.CreateDeterministicId | server.js:76-79 | The id has 32 lower-case hex digits and is the prefix of the SHA-256 digest of the key. |
| RecordId.IdKeyIsJoin | server.js:77 | The key is nomeCli, titulo, problema, solucao and the index joined with a vertical bar, falsy fields as "". |
| RecordId.JoinFive | server.js:77 | Joining five parts with a vertical bar is their concatenation with four separators. |
| RecordId.IdKeyIndexInjective | server.js:77 | Two positions of the same ticket never share a key. |
| RecordId.SameFieldsSameId | server.js:76-79 | Tickets whose four key fields agree after the falsy-to-"" coercion get the same key and id at the same position. |
| RecordId.FalsyFieldsAreEmpty | server.js:77 | A ticket with only falsy fields has the key of four empty fields: four bars, then the index. |
| RecordId.SeparatorInFieldCollides | server.js:77 | A vertical bar inside a field lets two different tickets share a key, and so an id, at the same position. |
| Metadata.SanitizeMetadata | server.js:81-102 | The loop returns the entries of the input (an empty object for null or undefined) whose values are storable. |
| Metadata.SanitizedSpec | server.js:83-99 | The output's keys are a subset of the input's and its values are unchanged; a key is kept exactly when its value is a string, number, boolean or all-string array. |
| Metadata.DroppedValues | server.js:84-99 | Null, undefined, objects and arrays holding a non-string are dropped. |
| Metadata.SanitizedIdempotent | server.js:81-102 | Sanitising twice is sanitising once. |
| Metadata.IngestMetadataShape | server.js:179-191 | Stored metadata always has `createdAt` and `source`, holds a ticket field exactly when its value is storable (unchanged), and nothing else. |
| Metadata.StoredContextIsCanonicalText | api/chat.js:28-40 | For a ticket whose fields are strings or missing, the context rebuilt from its stored metadata is exactly the text that was embedded. |
| Config.LoadSettings | server.js:36-46 | Each of the two models and two passwords is the variable's value when it is set and not empty, and its default otherwise, so none is ever empty; the index is the variable whenever it exists; the namespace is the variable when it is not empty, and absent otherwise. |
| Config.AssertVectorConfig | server.js:48-59 | The result is null exactly when the three variables are set; otherwise it is the message listing the missing ones. |
| Config.MissingVarsUnrolled | api/chat.js:16-19 | The missing list is built one variable at a time in the fixed order. |
| Config.MissingVarsExact | api/chat.js:15-21 | The missing list names exactly the unset required variables, in the required order, and is empty exactly when all are set. |
| Config.AuthorizedIff | server.js:154-155 | A request is authorised exactly when a non-empty header equals the password, or, with no header, when the body's `password` is that string. |
| Ingestion.Chunk | server.js:171 | A chunk is the slice of at most 100 entries starting at `start`, entry for entry. |
| Ingestion.FirstNullish | server.js:172 | The entry that stops a chunk is null or undefined. |
| Ingestion.FirstNullishIsFirst | server.js:172 | The entry that stops a chunk is the first null or undefined one: every entry before it can be read. |
| Ingestion.UpsertInBatches | server.js:167-197 | The loop's calls and outcome are exactly those of `RunFrom(0)`: per chunk, one embed then one upsert, the first failure ending the loop. |
| Ingestion.EmbeddedAppend | server.js:170-197 | The texts embedded and the records stored by two traces in turn are those of the first followed by those of the second. |
| Ingestion.CoveredAppend | server.js:170-177 | Coverage of consecutive position ranges combines. |
| Ingestion.ChunkPositions | server.js:171-177 | Entry `i` of a chunk is embedded as its canonical text and stored with id index `start + i`, `embeddings[i]` and the chunk's timestamp. |
| Ingestion.PositionCovered | server.js:171-177 | Entry `j` of a chunk is embedded as its canonical text and stored as the record the loop builds for position `start + j`. |
| Ingestion.RunDoneCounts | server.js:168-205 | A completed run reports `upserted` equal to the input length, after exactly `ceil(n/100)` embed calls and as many upsert calls. |
| Ingestion.RunDoneCovers | server.js:170-177 | A completed run embeds the canonical text of every entry once, in input order, and stores every entry's record once, in input order. |
| Ingestion.StoppedAfterStep | server.js:194-197 | A fully handled chunk in front of a failed run adds one chunk to the handled prefix. |
| Ingestion.PrependChunk | server.js:170-197 | A covered full chunk in front of a failed run extends the handled prefix by one chunk. |
| Ingestion.RunCallsByChunk | server.js:170-194 | Completed or not, the `k`-th embed call of a run carries the canonical texts of the chunk starting at `start + 100k` (between 1 and 100 of them, all readable), and the `k`-th upsert call carries as many records, the ones built for that chunk from what its embed call returned. |
| Ingestion.ChunkCallsShift | server.js:194-196 | The two calls of a chunk in front of the rest of a run move each later chunk's calls one chunk on. |
| Ingestion.RunAlternates | server.js:173-194 | Every trace alternates embed and upsert, starting with embed. |
| Ingestion.RunFailedStopsEarly | server.js:206-209 | A failed run has handled whole chunks covering a prefix of the input, then at most one more embed and one more upsert; no later chunk is attempted. |
| EmbedRoutes.CheckAccess | server.js:149-157 | The configuration error (500) comes first, then a wrong password (401). |
| EmbedRoutes.EmbedJson | server.js:147-210 | Guards run in order (500, 401, then 400 for a non-array) with no service call; otherwise the calls are the loop's and the reply reports its outcome, `upserted` being the body's length. |
| EmbedRoutes.EmbedExcel | server.js:213-284 | The same guards, then no file (400), an unreadable workbook (500), no named first sheet (400) and no rows (400), all before any call; otherwise the loop runs over the first sheet's rows. |
| Convert.SolutionFilterSpec | server.js:335-341 | With a positive bound a row is kept exactly when its `solucao` is a string longer than the bound, as many times as it occurs, in input order; with no bound, 0, a negative bound or NaN every row is kept. |
| Convert.MinLengthCases | server.js:335-336 | A missing bound reads as 0; a bound given as an integer's decimal string reads as that integer. |
| Chat.QuestionCases | api/chat.js:57 | A string question is taken as it is; a missing question or a missing body gives "". |
| Chat.TopK | api/chat.js:58 | Whenever `topK` is a number, it lies in [1, 30]. |
| Chat.TopKCases | api/chat.js:58 | A falsy `topK` (missing, 0, "", false, null) gives 20; an integer or its decimal string is clamped into [1, 30]; one in range is kept. |
| Chat.Matches | api/chat.js:71-75 | Matches keep the query's order, ids and scores; a missing list gives none; missing metadata becomes `{}`. |
| Chat.BlocksNumbered | api/chat.js:71-77 | There is one block per match; the number a reader takes after `# Resultado ` in block `i` is `i + 1`, whatever the score and metadata; block `i` ends with the context rebuilt from match `i`'s metadata; no two blocks are equal. |
| Chat.BlockNumberOf | api/chat.js:77 | The digits after `# Resultado ` in a heading read back as its block number, whatever follows the heading. |
| Chat.HeadingInjective | api/chat.js:77 | Two equal headings have the same block number and the same score. |
| Chat.DigitsThenSpace | api/chat.js:77 | A run of digits followed by a non-digit is determined by the string. |
| Chat.Truncated | api/chat.js:79 | The context is a prefix of the joined blocks of length `min(n, 8000)`, equal to it when it has at most 8000 characters. |
| Chat.AssembleContext | api/chat.js:78-79 | The context is the blocks joined with a blank line, cut at 8000 characters. |
| Chat.ContextBegins | api/chat.js:77-79 | With no matches the context is ""; otherwise it begins with the first match's heading. |
| Chat.UserPrompt | api/chat.js:87 | The user prompt has the length of its two headers, the question and the context together. |
| Chat.UserPromptParts | api/chat.js:87 | The prompt is the question header, the question, the context header and the context, each at its fixed place. |
| Chat.UserPromptInjective | api/chat.js:87 | For questions of equal length, equal prompts have equal questions and contexts. |
| Chat.Answer | api/chat.js:98 | The answer is the first choice's message content; it is "" exactly when there is no choice, message or content, or the content is empty. |
| Chat.AnsweringOrder | api/chat.js:61-100 | The question is embedded first, then the index is queried with `topK` and metadata, then the model is asked; an answer comes only after all three calls, and its matches are the ones the prompt's context was built from. |
| Chat.AnswerQuestion | api/chat.js:61-103 | The calls and reply after validation are those of `Answering`; the first failing call gives 500. |
| Chat.CheckRequest | api/chat.js:43-59 | The guards in order: 405 for a non-POST, 500 for missing configuration, 401 for a wrong password, 400 for an empty question; none applies exactly when the request is accepted. |
| Chat.ChatHandler | api/chat.js:42-105 | A refused request makes no service call and gets the reply of the first guard it fails: 405 for a non-POST, 500 naming the missing variables, 401 for a wrong password, 400 for an empty question; an accepted one makes the calls of `Answering` with its question, clamped `topK` and the chat model. |

## Left out

- Numbers are unbounded integers. JavaScript numbers are doubles: integers above 2^53 are rounded, and `String(n)` switches to exponent form from 1e21. For such values the canonical lines, the context lines and the id keys of the model differ from the source's. Floating-point values, `NaN` as a value, `Infinity` and fractional or exponent syntax in `Number(s)` are not modelled. `Number(s)` reads an optional sign followed by decimal digits, and the empty string as 0; any other string is NaN. Leading and trailing whitespace and hexadecimal literals are not accepted.
- Chat.TopK: a fractional `topK` is not modelled, because numbers are integers here.
- Scores and embedding vectors are opaque values. `Number(m.score).toFixed(3)` is the parameter `formatScore`.
- String lengths count Dafny characters, not UTF-16 code units. The 8000-character cut and `solucao.length` therefore differ from JavaScript for text outside the Basic Multilingual Plane.
- `String(v)` of an object is `"[object Object]"` in the model, and `Number(v)` of an object or array is `Number` of that string. In the source, a JSON object with its own `toString` key (and an array holding such an object) makes both `String(v)` and `Number(v)` throw a `TypeError`, because neither that key nor the inherited `valueOf` yields a primitive. The model does not capture this throw. In chat, such a `question` gives the 500 reply "Falha ao processar chat" in the source, where the model goes on with "[object Object]". In ingestion, such a ticket field makes `buildCanonicalText` throw before the chunk's embed call, and the route replies 500, where the model embeds the text.
- Entries that are not objects (numbers, strings, arrays) are read as having no ticket fields. Their own JavaScript properties, such as a string's `length`, are never read by the core.
- HTTP routing, CORS, static pages, the JSON body limit, the request logger and `console` logging are not modelled. So is the `Allow: POST` header of the 405 reply.
- Multer uploads, XLSX parsing and writing, and the disk writes and download of `/convert` are left out. The workbook reaches `EmbedExcel` already read: as no file, a read error with its message, or its sheets with their rows.
- Convert: the JSON parsing, the array check and the file output of `/convert` are left out. Only its solution-length filter (server.js:335-341) is modelled.
- The OpenAI and Pinecone SDKs are parameters: embed, upsert, query and complete. Their internals, retries and the namespace selection (server.js:110-115, api/chat.js:63-64) are not modelled. An SDK error is a `Result` error carrying `err.message`.
- SHA-256 is an uninterpreted parameter returning 64 lower-case hex digits.
- `new Date().toISOString()` is a parameter, read once per chunk.
- The environment is a parameter read per request, where the source reads it once at start-up. For a fixed environment the two agree.
- Ingestion.FailureMessage: the message for a null or undefined ticket follows the V8 `TypeError` wording; other engines word it differently.
- Ingestion.RecordFor: when the embedding service returns fewer vectors than texts, `embeddings[i]` is undefined; the model stores `None`, and what the vector store then does is the store's business.
- Metadata.SanitizeMetadata: the key order of the output object is not modelled, because maps are unordered. String and array arguments to `sanitizeMetadata` are not modelled; the routes always pass an object.
- Canonical.BuildCanonicalText: the nine sequential `if`s of the source are modelled as one loop over the nine-field table, with the same order, test and line.
- Canonical.BuildContextFromMetadata: likewise, one loop over the same table.
- Chat.TopK: `topK` of 0 becomes 20, because `0 || 20` is 20; it is not clamped to 1.
- Chat.TopK: a `topK` object with its own `toString` key makes `Number(...)` throw in the source; the model reads it as NaN (`None`) and does not capture the throw.
- Convert.MinLength: a `filterSolutionMinLen` object with its own `toString` key makes `Number(minLenRaw)` throw in the source, which replies 500 "Erro ao processar dados JSON"; the model reads it as NaN, so `SolutionFilter` keeps every row.
- Chat.ChatHandler: an exception thrown by `String(req.body.question)` or by `Number(req.body?.topK || 20)` inside the `try` is not modelled. A question or `topK` object with its own `toString` key makes the source reply 500 "Falha ao processar chat" before any service call. With a non-empty question the model instead accepts the request: it asks with the question "[object Object]", or queries the index with a NaN `topK` (`None`). When `topK` is such an object and the question is empty or missing, the model replies 400 where the source replies 500, because the source reads `topK` (api/chat.js:58) before it checks the question (api/chat.js:59).
