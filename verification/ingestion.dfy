/**
 * The batched ingestion of tickets shared by `/embed-json` and `/embed-excel`:
 * the input is cut into consecutive chunks of 100, each chunk's canonical texts
 * are embedded in one call, and the chunk's vector records are upserted in one
 * call. The embedding service, the vector store, the clock and SHA-256 are
 * parameters; the calls the loop makes are recorded in a trace.
 */
module Ingestion {
  import opened Outcomes
  import opened Text
  import opened JsValues
  import opened Canonical
  import opened RecordId
  import opened Metadata

  /** BATCH_SIZE */
  const BatchSize := 100

  /** An embedding vector; its numbers are never inspected. */
  type Vector = seq<real>

  /** One record handed to the vector store: `{ id, values, metadata }`.
      `values` is `None` when the embedding service returned fewer vectors than
      texts, which leaves `embeddings[i]` undefined. */
  datatype VectorRecord = VectorRecord(id: string, values: Option<Vector>, metadata: Record)

  /** A call to an external service, in the order the loop makes them. */
  datatype Call =
    | EmbedTexts(texts: seq<string>)
    | UpsertRecords(records: seq<VectorRecord>)

  /** The outside world of the loop. Each service is told the start position of
      the chunk it serves, so that it may answer differently for each chunk. */
  datatype Services = Services(
    sha256: string -> Digest,
    embed: (nat, seq<string>) -> Result<seq<Vector>, string>,
    upsert: (nat, seq<VectorRecord>) -> Result<(), string>,
    clock: nat -> string)

  /** Why an ingestion stopped. */
  datatype Failure =
    | UnreadableItem(item: JsVal)   // a null or undefined entry: reading its `titulo` throws
    | ServiceFailed(message: string)

  datatype Outcome = Done(upserted: nat) | Failed(failure: Failure)

  /** The calls made and how the loop ended. */
  datatype Run = Run(calls: seq<Call>, outcome: Outcome)

  /** `data.slice(start, start + BATCH_SIZE)` */
  function Chunk(data: seq<JsVal>, start: nat): (chunk: seq<JsVal>)
    requires start < |data|
    ensures 0 < |chunk| <= BatchSize
    ensures |chunk| == Min(BatchSize, |data| - start)
    ensures forall i :: 0 <= i < |chunk| ==> chunk[i] == data[start + i]
  {
    data[start..Min(start + BatchSize, |data|)]
  }

  /** Every entry of the chunk can have its fields read. */
  predicate Readable(chunk: seq<JsVal>)
  {
    forall i :: 0 <= i < |chunk| ==> !IsNullish(chunk[i])
  }

  /** The first entry of the chunk whose fields cannot be read. */
  function FirstNullish(chunk: seq<JsVal>): (v: JsVal)
    requires !Readable(chunk)
    ensures IsNullish(v)
  {
    if IsNullish(chunk[0]) then chunk[0]
    else
      assert !Readable(chunk[1..]) by {
        var i :| 0 <= i < |chunk| && IsNullish(chunk[i]);
        assert chunk[1..][i - 1] == chunk[i];
      }
      FirstNullish(chunk[1..])
  }

  /** The entry `FirstNullish` picks is the first null or undefined one: every
      entry before it can be read. */
  lemma {:induction false} FirstNullishIsFirst(chunk: seq<JsVal>)
    requires !Readable(chunk)
    ensures exists k :: 0 <= k < |chunk| && chunk[k] == FirstNullish(chunk) && Readable(chunk[..k])
  {
    if IsNullish(chunk[0]) {
      assert chunk[..0] == [];
    } else {
      var tail := chunk[1..];
      assert !Readable(tail) by {
        var i :| 0 <= i < |chunk| && IsNullish(chunk[i]);
        assert tail[i - 1] == chunk[i];
      }
      FirstNullishIsFirst(tail);
      var k :| 0 <= k < |tail| && tail[k] == FirstNullish(tail) && Readable(tail[..k]);
      assert chunk[..k + 1] == [chunk[0]] + tail[..k];
      assert chunk[k + 1] == FirstNullish(chunk);
    }
  }

  /** `err.message` for a failure: the service's message, or the TypeError that
      reading `item.titulo` of null or undefined raises. */
  function FailureMessage(f: Failure): string
  {
    match f
    case UnreadableItem(item) => "Cannot read properties of " + ToStr(item) + " (reading 'titulo')"
    case ServiceFailed(message) => message
  }

  /** `chunk.map(buildCanonicalText)` */
  function Texts(chunk: seq<JsVal>): seq<string>
    requires Readable(chunk)
  {
    seq(|chunk|, i requires 0 <= i < |chunk| => CanonicalText(AsRecord(chunk[i])))
  }

  /** The vectors an embedding call returned, or none when it failed. */
  function Vectors(answer: Result<seq<Vector>, string>): seq<Vector>
  {
    if answer.Ok? then answer.value else []
  }

  /** The record built for entry `i` of the chunk that starts at `start`. */
  function RecordFor(svc: Services, data: seq<JsVal>, source: string, start: nat, embeddings: seq<Vector>, i: nat): VectorRecord
    requires start + i < |data| && !IsNullish(data[start + i])
  {
    var item := AsRecord(data[start + i]);
    VectorRecord(
      CreateDeterministicId(svc.sha256, item, start + i),
      if i < |embeddings| then Some(embeddings[i]) else None,
      IngestMetadata(item, svc.clock(start), source))
  }

  /** `chunk.map((item, i) => ({ id, values, metadata }))` */
  function Records(svc: Services, data: seq<JsVal>, source: string, start: nat, embeddings: seq<Vector>): seq<VectorRecord>
    requires start < |data| && Readable(Chunk(data, start))
  {
    var chunk := Chunk(data, start);
    seq(|chunk|, i requires 0 <= i < |chunk| => RecordFor(svc, data, source, start, embeddings, i))
  }

  /** The outcome of the rest of a run, once `total` records were upserted before it. */
  function After(total: nat, outcome: Outcome): Outcome
  {
    match outcome
    case Done(n) => Done(total + n)
    case Failed(f) => Failed(f)
  }

  /** What the loop does from the chunk that starts at `start` on. */
  function RunFrom(svc: Services, data: seq<JsVal>, source: string, start: nat): Run
    decreases |data| - start
  {
    if start >= |data| then Run([], Done(0))
    else
      var chunk := Chunk(data, start);
      if !Readable(chunk) then Run([], Failed(UnreadableItem(FirstNullish(chunk))))
      else
        var texts := Texts(chunk);
        var embedded := svc.embed(start, texts);
        if embedded.Err? then Run([EmbedTexts(texts)], Failed(ServiceFailed(embedded.error)))
        else
          var records := Records(svc, data, source, start, embedded.value);
          var stored := svc.upsert(start, records);
          if stored.Err? then Run([EmbedTexts(texts), UpsertRecords(records)], Failed(ServiceFailed(stored.error)))
          else
            var rest := RunFrom(svc, data, source, start + BatchSize);
            Run([EmbedTexts(texts), UpsertRecords(records)] + rest.calls, After(|records|, rest.outcome))
  }

  /** The loop of `/embed-json` and `/embed-excel`, from `for (let start = 0; ...)`
      to the last `totalUpserted += records.length`; a thrown error ends it. */
  method UpsertInBatches(svc: Services, data: seq<JsVal>, source: string) returns (calls: seq<Call>, outcome: Outcome)
    ensures Run(calls, outcome) == RunFrom(svc, data, source, 0)
  {
    calls := [];
    var totalUpserted: nat := 0;
    var start: nat := 0;
    while start < |data|
      invariant RunFrom(svc, data, source, 0)
                == Run(calls + RunFrom(svc, data, source, start).calls,
                       After(totalUpserted, RunFrom(svc, data, source, start).outcome))
      decreases |data| - start
    {
      var chunk := Chunk(data, start);
      if !Readable(chunk) {
        outcome := Failed(UnreadableItem(FirstNullish(chunk)));
        RunFromStops(svc, data, source, start);
        return;
      }
      var texts := Texts(chunk);
      calls := calls + [EmbedTexts(texts)];
      var embedded := svc.embed(start, texts);
      if embedded.Err? {
        outcome := Failed(ServiceFailed(embedded.error));
        RunFromStops(svc, data, source, start);
        return;
      }
      var records := Records(svc, data, source, start, embedded.value);
      calls := calls + [UpsertRecords(records)];
      var stored := svc.upsert(start, records);
      if stored.Err? {
        outcome := Failed(ServiceFailed(stored.error));
        RunFromStops(svc, data, source, start);
        return;
      }
      RunFromContinues(svc, data, source, start);
      AfterAfter(totalUpserted, |records|, RunFrom(svc, data, source, start + BatchSize).outcome);
      totalUpserted := totalUpserted + |records|;
      start := start + BatchSize;
    }
    outcome := Done(totalUpserted);
  }

  /** One chunk of a run, spelled out. */
  lemma RunFromStep(svc: Services, data: seq<JsVal>, source: string, start: nat)
    requires start < |data|
    ensures var chunk := Chunk(data, start);
      var run := RunFrom(svc, data, source, start);
      if !Readable(chunk) then run == Run([], Failed(UnreadableItem(FirstNullish(chunk))))
      else
        var texts := Texts(chunk);
        var embedded := svc.embed(start, texts);
        if embedded.Err? then run == Run([EmbedTexts(texts)], Failed(ServiceFailed(embedded.error)))
        else
          var records := Records(svc, data, source, start, embedded.value);
          var stored := svc.upsert(start, records);
          var rest := RunFrom(svc, data, source, start + BatchSize);
          if stored.Err? then run == Run([EmbedTexts(texts), UpsertRecords(records)], Failed(ServiceFailed(stored.error)))
          else run == Run([EmbedTexts(texts), UpsertRecords(records)] + rest.calls, After(|records|, rest.outcome))
  {
  }

  /** A chunk that cannot be read, or whose embed or upsert call fails, ends the run. */
  lemma RunFromStops(svc: Services, data: seq<JsVal>, source: string, start: nat)
    requires start < |data|
    ensures var chunk := Chunk(data, start);
      var run := RunFrom(svc, data, source, start);
      && (!Readable(chunk) ==> run == Run([], Failed(UnreadableItem(FirstNullish(chunk)))))
      && (Readable(chunk) && svc.embed(start, Texts(chunk)).Err? ==>
            run == Run([EmbedTexts(Texts(chunk))], Failed(ServiceFailed(svc.embed(start, Texts(chunk)).error))))
      && (Readable(chunk) && svc.embed(start, Texts(chunk)).Ok? ==>
            var records := Records(svc, data, source, start, svc.embed(start, Texts(chunk)).value);
            svc.upsert(start, records).Err? ==>
              run == Run([EmbedTexts(Texts(chunk)), UpsertRecords(records)], Failed(ServiceFailed(svc.upsert(start, records).error))))
  {
  }

  /** A chunk whose calls succeed is followed by the rest of the run. */
  lemma RunFromContinues(svc: Services, data: seq<JsVal>, source: string, start: nat)
    requires start < |data| && Readable(Chunk(data, start))
    requires svc.embed(start, Texts(Chunk(data, start))).Ok?
    requires svc.upsert(start, Records(svc, data, source, start, svc.embed(start, Texts(Chunk(data, start))).value)).Ok?
    ensures var records := Records(svc, data, source, start, svc.embed(start, Texts(Chunk(data, start))).value);
      var rest := RunFrom(svc, data, source, start + BatchSize);
      RunFrom(svc, data, source, start)
        == Run([EmbedTexts(Texts(Chunk(data, start))), UpsertRecords(records)] + rest.calls, After(|records|, rest.outcome))
  {
  }

  lemma AfterAfter(a: nat, b: nat, outcome: Outcome)
    ensures After(a, After(b, outcome)) == After(a + b, outcome)
  {
  }

  // ---------------------------------------------------------------------
  // What a run does.
  // ---------------------------------------------------------------------

  /** The texts sent to the embedding service, in call order. */
  function Embedded(calls: seq<Call>): seq<string>
  {
    if |calls| == 0 then []
    else (if calls[0].EmbedTexts? then calls[0].texts else []) + Embedded(calls[1..])
  }

  /** The records sent to the vector store, in call order. */
  function Upserted(calls: seq<Call>): seq<VectorRecord>
  {
    if |calls| == 0 then []
    else (if calls[0].UpsertRecords? then calls[0].records else []) + Upserted(calls[1..])
  }

  /** The calls alternate embed, upsert, embed, upsert, ... */
  predicate Alternating(calls: seq<Call>)
  {
    forall j :: 0 <= j < |calls| ==> (calls[j].EmbedTexts? <==> j % 2 == 0)
  }

  /** The start of the chunk that holds position `p`. */
  function ChunkStartOf(p: nat): nat
  {
    p - p % BatchSize
  }

  /** The record the loop builds for the entry at position `p` of the input: its
      id is derived from the entry and `p`, its vector is the one the embedding
      service returned at `p`'s offset within its chunk, and its metadata is
      stamped with the chunk's clock reading. */
  function RecordAt(svc: Services, data: seq<JsVal>, source: string, p: nat): VectorRecord
    requires p < |data| && Readable(Chunk(data, ChunkStartOf(p)))
  {
    var start := ChunkStartOf(p);
    var embeddings := Vectors(svc.embed(start, Texts(Chunk(data, start))));
    RecordFor(svc, data, source, start, embeddings, p - start)
  }

  lemma EmbeddedAppend(a: seq<Call>, b: seq<Call>)
    ensures Embedded(a + b) == Embedded(a) + Embedded(b)
    ensures Upserted(a + b) == Upserted(a) + Upserted(b)
  {
    if |a| > 0 {
      assert (a + b)[1..] == a[1..] + b;
      EmbeddedAppend(a[1..], b);
    } else {
      assert a + b == b;
    }
  }

  lemma ChunkStartInChunk(start: nat, p: nat)
    requires start % BatchSize == 0 && start <= p < start + BatchSize
    ensures ChunkStartOf(p) == start
  {
  }

  /** `ceil(n / 100)`: the number of chunks of `n` entries. */
  function NumBatches(n: nat): nat
  {
    (n + BatchSize - 1) / BatchSize
  }

  lemma NumBatchesStep(n: nat)
    requires n > 0
    ensures NumBatches(n) == 1 + NumBatches(if n > BatchSize then n - BatchSize else 0)
  {
  }

  /** The entry at position `p` was embedded as `text` and stored as `record`:
      it can be read, `text` is its canonical text and `record` the record the
      loop builds for that position. */
  predicate Covered(svc: Services, data: seq<JsVal>, source: string, p: nat, text: string, record: VectorRecord)
  {
    && p < |data|
    && !IsNullish(data[p])
    && Readable(Chunk(data, ChunkStartOf(p)))
    && text == CanonicalText(AsRecord(data[p]))
    && record == RecordAt(svc, data, source, p)
  }

  /** Positions `start`, `start + 1`, ... were embedded as `texts` and stored as `records`. */
  predicate CoveredFrom(svc: Services, data: seq<JsVal>, source: string, start: nat, texts: seq<string>, records: seq<VectorRecord>)
  {
    && |texts| == |records|
    && forall j :: 0 <= j < |texts| ==> Covered(svc, data, source, start + j, texts[j], records[j])
  }

  lemma CoveredAppend(svc: Services, data: seq<JsVal>, source: string, start: nat,
                      texts: seq<string>, records: seq<VectorRecord>, more: seq<string>, moreRecords: seq<VectorRecord>)
    requires CoveredFrom(svc, data, source, start, texts, records)
    requires CoveredFrom(svc, data, source, start + |texts|, more, moreRecords)
    ensures CoveredFrom(svc, data, source, start, texts + more, records + moreRecords)
  {
    forall j | |texts| <= j < |texts| + |more|
      ensures Covered(svc, data, source, start + j, (texts + more)[j], (records + moreRecords)[j])
    {
      var k := j - |texts|;
      assert start + j == start + |texts| + k;
      assert (texts + more)[j] == more[k] && (records + moreRecords)[j] == moreRecords[k];
    }
  }

  /** The texts and the records of one readable chunk, entry by entry. */
  lemma ChunkPositions(svc: Services, data: seq<JsVal>, source: string, start: nat)
    requires start % BatchSize == 0 && start < |data| && Readable(Chunk(data, start))
    ensures var chunk := Chunk(data, start);
      var texts := Texts(chunk);
      var records := Records(svc, data, source, start, Vectors(svc.embed(start, texts)));
      CoveredFrom(svc, data, source, start, texts, records)
  {
    var chunk := Chunk(data, start);
    var texts := Texts(chunk);
    var records := Records(svc, data, source, start, Vectors(svc.embed(start, texts)));
    forall j | 0 <= j < |chunk|
      ensures Covered(svc, data, source, start + j, texts[j], records[j])
    {
      PositionCovered(svc, data, source, start, j);
    }
  }

  /** Entry `j` of a readable chunk, on its own. */
  lemma PositionCovered(svc: Services, data: seq<JsVal>, source: string, start: nat, j: nat)
    requires start % BatchSize == 0 && start < |data| && Readable(Chunk(data, start))
    requires j < |Chunk(data, start)|
    ensures var texts := Texts(Chunk(data, start));
      var records := Records(svc, data, source, start, Vectors(svc.embed(start, texts)));
      Covered(svc, data, source, start + j, texts[j], records[j])
  {
    var chunk := Chunk(data, start);
    var texts := Texts(chunk);
    var embeddings := Vectors(svc.embed(start, texts));
    var records := Records(svc, data, source, start, embeddings);
    var p := start + j;
    ChunkStartInChunk(start, p);
    assert chunk[j] == data[p] && !IsNullish(chunk[j]);
    assert ChunkStartOf(p) == start && p - start == j;
    assert texts[j] == CanonicalText(AsRecord(data[p]));
    assert records[j] == RecordFor(svc, data, source, start, embeddings, j);
    assert RecordAt(svc, data, source, p) == RecordFor(svc, data, source, start, embeddings, p - start);
    assert Covered(svc, data, source, p, texts[j], records[j]);
  }

  /** Calls `2k` and `2k + 1` of a trace that starts at `start` serve the
      chunk that starts `k` chunks later: the embed call carries the canonical
      texts of that chunk, between 1 and 100 of them, and the upsert call, when
      there is one, carries as many records, built from what the embed
      returned. */
  predicate ChunkCalls(svc: Services, data: seq<JsVal>, source: string, start: nat, calls: seq<Call>, k: nat)
  {
    var at := start + k * BatchSize;
    && 2 * k < |calls|
    && at < |data|
    && Readable(Chunk(data, at))
    && calls[2 * k] == EmbedTexts(Texts(Chunk(data, at)))
    && 0 < |calls[2 * k].texts| == Min(BatchSize, |data| - at)
    && (2 * k + 1 < |calls| ==>
          && calls[2 * k + 1] == UpsertRecords(Records(svc, data, source, at, Vectors(svc.embed(at, Texts(Chunk(data, at))))))
          && |calls[2 * k + 1].records| == |calls[2 * k].texts|)
  }

  /** Every call of a run, completed or not, is cut at the chunk boundaries:
      the `k`-th embed and upsert calls serve entries `start + 100k` to
      `start + 100k + 99` (or to the end of the input). */
  lemma RunCallsByChunk(svc: Services, data: seq<JsVal>, source: string, start: nat)
    ensures var calls := RunFrom(svc, data, source, start).calls;
      forall k: nat :: 2 * k < |calls| ==> ChunkCalls(svc, data, source, start, calls, k)
  {
    forall k: nat | 2 * k < |RunFrom(svc, data, source, start).calls|
      ensures ChunkCalls(svc, data, source, start, RunFrom(svc, data, source, start).calls, k)
    {
      ChunkCallsAt(svc, data, source, start, k);
    }
  }

  /** The calls of the `k`-th chunk of a run, by induction on `k`. */
  lemma {:induction false} ChunkCallsAt(svc: Services, data: seq<JsVal>, source: string, start: nat, k: nat)
    requires 2 * k < |RunFrom(svc, data, source, start).calls|
    ensures ChunkCalls(svc, data, source, start, RunFrom(svc, data, source, start).calls, k)
    decreases k
  {
    var calls := RunFrom(svc, data, source, start).calls;
    if k == 0 {
      FirstChunkCalls(svc, data, source, start);
    } else {
      TailCalls(svc, data, source, start);
      ChunkCallsAt(svc, data, source, start + BatchSize, k - 1);
      ChunkCallsShift(svc, data, source, start, calls[..2], calls[2..], k);
      assert calls[..2] + calls[2..] == calls;
    }
  }

  /** The first two calls of a run serve its first chunk. */
  lemma FirstChunkCalls(svc: Services, data: seq<JsVal>, source: string, start: nat)
    requires 0 < |RunFrom(svc, data, source, start).calls|
    ensures ChunkCalls(svc, data, source, start, RunFrom(svc, data, source, start).calls, 0)
  {
    var calls := RunFrom(svc, data, source, start).calls;
    assert start < |data|;
    var chunk := Chunk(data, start);
    RunFromStep(svc, data, source, start);
    assert Readable(chunk);
    var texts := Texts(chunk);
    var embedded := svc.embed(start, texts);
    assert calls[0] == EmbedTexts(texts) && |texts| == |chunk|;
    if 1 < |calls| {
      assert embedded.Ok? && Vectors(embedded) == embedded.value;
      var records := Records(svc, data, source, start, embedded.value);
      assert calls[1] == UpsertRecords(records) && |records| == |chunk|;
    }
    assert start + 0 * BatchSize == start;
  }

  /** A run with more than two calls goes on with the run of the next chunk. */
  lemma TailCalls(svc: Services, data: seq<JsVal>, source: string, start: nat)
    requires 2 < |RunFrom(svc, data, source, start).calls|
    ensures RunFrom(svc, data, source, start).calls[2..] == RunFrom(svc, data, source, start + BatchSize).calls
  {
    assert start < |data|;
    RunFromStep(svc, data, source, start);
  }

  /** Two calls in front of a trace move its chunks one place on. */
  lemma ChunkCallsShift(svc: Services, data: seq<JsVal>, source: string, start: nat,
                        head: seq<Call>, rest: seq<Call>, k: nat)
    requires |head| == 2 && k > 0
    requires ChunkCalls(svc, data, source, start + BatchSize, rest, k - 1)
    ensures ChunkCalls(svc, data, source, start, head + rest, k)
  {
    assert start + BatchSize + (k - 1) * BatchSize == start + k * BatchSize;
    assert (head + rest)[2 * k] == rest[2 * (k - 1)];
    if 2 * k + 1 < |head + rest| {
      assert (head + rest)[2 * k + 1] == rest[2 * (k - 1) + 1];
    }
  }

  /** A run that completes reports one upsert per entry, and its trace is one
      embed call and one upsert call per chunk of 100, in that order. */
  lemma {:induction false} RunDoneCounts(svc: Services, data: seq<JsVal>, source: string, start: nat)
    requires start <= |data|
    requires RunFrom(svc, data, source, start).outcome.Done?
    ensures RunFrom(svc, data, source, start).outcome.upserted == |data| - start
    ensures |RunFrom(svc, data, source, start).calls| == 2 * NumBatches(|data| - start)
    decreases |data| - start
  {
    if start < |data| {
      RunFromStep(svc, data, source, start);
      var run := RunFrom(svc, data, source, start);
      var chunk := Chunk(data, start);
      var next := start + BatchSize;
      var rest := RunFrom(svc, data, source, next);
      assert run.calls[2..] == rest.calls;
      assert rest.outcome.Done? && run.outcome.upserted == |chunk| + rest.outcome.upserted;
      if next <= |data| {
        RunDoneCounts(svc, data, source, next);
      } else {
        assert rest == Run([], Done(0));
      }
      NumBatchesStep(|data| - start);
    }
  }

  /** A run that completes embeds every text once and upserts every record once,
      in input order: the `j`-th text embedded is the canonical text of entry
      `start + j`, and the `j`-th record upserted is the record for that
      position. */
  lemma {:induction false} RunDoneCovers(svc: Services, data: seq<JsVal>, source: string, start: nat)
    requires start % BatchSize == 0 && start <= |data|
    requires RunFrom(svc, data, source, start).outcome.Done?
    ensures var calls := RunFrom(svc, data, source, start).calls;
      && |Embedded(calls)| == |data| - start
      && CoveredFrom(svc, data, source, start, Embedded(calls), Upserted(calls))
    decreases |data| - start
  {
    if start < |data| {
      RunFromStep(svc, data, source, start);
      var calls := RunFrom(svc, data, source, start).calls;
      var chunk := Chunk(data, start);
      var texts := Texts(chunk);
      var records := Records(svc, data, source, start, Vectors(svc.embed(start, texts)));
      var head := [EmbedTexts(texts), UpsertRecords(records)];
      var next := start + BatchSize;
      var rest := RunFrom(svc, data, source, next).calls;
      assert calls == head + rest;
      if next <= |data| {
        RunDoneCovers(svc, data, source, next);
      } else {
        assert rest == [];
      }
      EmbeddedAppend(head, rest);
      assert Embedded(head) == texts && Upserted(head) == records by {
        assert head[1..][1..] == [];
      }
      ChunkPositions(svc, data, source, start);
      CoveredAppend(svc, data, source, start, texts, records, Embedded(rest), Upserted(rest));
    }
  }

  /** The conclusion of `RunFailedStopsEarly` for `done` completed chunks. */
  predicate StoppedAfter(svc: Services, data: seq<JsVal>, source: string, start: nat, calls: seq<Call>, done: nat)
  {
    && start + done * BatchSize < |data|
    && 2 * done <= |calls| <= 2 * done + 2
    && |Embedded(calls[..2 * done])| == done * BatchSize
    && CoveredFrom(svc, data, source, start, Embedded(calls[..2 * done]), Upserted(calls[..2 * done]))
  }

  /** One more completed chunk in front of a failed run. */
  lemma StoppedAfterStep(svc: Services, data: seq<JsVal>, source: string, start: nat, rest: seq<Call>, done: nat)
    requires start % BatchSize == 0 && start < |data|
    requires Readable(Chunk(data, start))
    requires StoppedAfter(svc, data, source, start + BatchSize, rest, done)
    ensures var texts := Texts(Chunk(data, start));
      var records := Records(svc, data, source, start, Vectors(svc.embed(start, texts)));
      StoppedAfter(svc, data, source, start, [EmbedTexts(texts), UpsertRecords(records)] + rest, done + 1)
  {
    ChunkPositions(svc, data, source, start);
    var texts := Texts(Chunk(data, start));
    var records := Records(svc, data, source, start, Vectors(svc.embed(start, texts)));
    PrependChunk(svc, data, source, start, texts, records, rest, done);
  }

  /** `StoppedAfterStep` for any full chunk's texts and records. */
  lemma PrependChunk(svc: Services, data: seq<JsVal>, source: string, start: nat,
                     texts: seq<string>, records: seq<VectorRecord>, rest: seq<Call>, done: nat)
    requires |texts| == BatchSize && CoveredFrom(svc, data, source, start, texts, records)
    requires StoppedAfter(svc, data, source, start + BatchSize, rest, done)
    ensures StoppedAfter(svc, data, source, start, [EmbedTexts(texts), UpsertRecords(records)] + rest, done + 1)
  {
    var head := [EmbedTexts(texts), UpsertRecords(records)];
    var restPrefix := rest[..2 * done];
    assert (done + 1) * BatchSize == done * BatchSize + BatchSize;
    assert (head + rest)[..2 * (done + 1)] == head + restPrefix;
    EmbeddedAppend(head, restPrefix);
    assert Embedded(head) == texts && Upserted(head) == records by {
      assert head[1..][1..] == [];
    }
    CoveredAppend(svc, data, source, start, texts, records, Embedded(restPrefix), Upserted(restPrefix));
  }

  /** Every trace alternates an embed call and an upsert call. */
  lemma {:induction false} RunAlternates(svc: Services, data: seq<JsVal>, source: string, start: nat)
    ensures Alternating(RunFrom(svc, data, source, start).calls)
    decreases |data| - start
  {
    if start < |data| {
      RunFromStep(svc, data, source, start);
      var calls := RunFrom(svc, data, source, start).calls;
      var rest := RunFrom(svc, data, source, start + BatchSize).calls;
      RunAlternates(svc, data, source, start + BatchSize);
      forall j | 0 <= j < |calls|
        ensures calls[j].EmbedTexts? <==> j % 2 == 0
      {
        if j >= 2 {
          assert calls[j] == rest[j - 2];
        }
      }
    }
  }

  /** A run that fails has fully handled some number `done` of chunks before the
      failing one: its trace is their embed and upsert calls, which cover the
      first `done` chunks in order, followed by at most the failing chunk's own
      embed and upsert calls. No later chunk is touched. */
  lemma {:induction false} RunFailedStopsEarly(svc: Services, data: seq<JsVal>, source: string, start: nat)
    requires start % BatchSize == 0 && start <= |data|
    requires RunFrom(svc, data, source, start).outcome.Failed?
    ensures exists done: nat :: StoppedAfter(svc, data, source, start, RunFrom(svc, data, source, start).calls, done)
    decreases |data| - start
  {
    RunFromStep(svc, data, source, start);
    var calls := RunFrom(svc, data, source, start).calls;
    var chunk := Chunk(data, start);
    assert calls[..0] == [];
    if !Readable(chunk) || svc.embed(start, Texts(chunk)).Err? {
      assert |calls| <= 1;
      assert StoppedAfter(svc, data, source, start, calls, 0);
    } else {
      var texts := Texts(chunk);
      var records := Records(svc, data, source, start, Vectors(svc.embed(start, texts)));
      if svc.upsert(start, records).Err? {
        assert |calls| == 2;
        assert StoppedAfter(svc, data, source, start, calls, 0);
      } else {
        var next := start + BatchSize;
        var rest := RunFrom(svc, data, source, next).calls;
        assert calls == [EmbedTexts(texts), UpsertRecords(records)] + rest;
        RunFailedStopsEarly(svc, data, source, next);
        var done: nat :| StoppedAfter(svc, data, source, next, rest, done);
        StoppedAfterStep(svc, data, source, start, rest, done);
      }
    }
  }
}
