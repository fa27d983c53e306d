/**
 * The metadata stored beside each vector: `sanitizeMetadata`, which keeps only
 * the values the vector store accepts, and the metadata object the ingestion
 * routes build for a ticket.
 */
module Metadata {
  import opened Outcomes
  import opened JsValues
  import opened Canonical

  /** Every element of an array is a string (`value.every(v => typeof v === 'string')`). */
  predicate AllStrings(items: seq<JsVal>)
  {
    forall i :: 0 <= i < |items| ==> items[i].Str?
  }

  /** A value the vector store accepts: a string, a number, a boolean, or an
      array of strings. */
  predicate Storable(v: JsVal)
  {
    v.Str? || v.Num? || v.Bool? || (v.Arr? && AllStrings(v.items))
  }

  /** The entries of `m` whose values are storable. */
  function Sanitized(m: Record): Record
  {
    map key | key in m && Storable(m[key]) :: m[key]
  }

  /** sanitizeMetadata(input); `None` stands for a null or undefined input, which
      `input || {}` reads as an empty object. */
  method SanitizeMetadata(input: Option<Record>) returns (out: Record)
    ensures out == Sanitized(input.GetOr(map[]))
  {
    var source := input.GetOr(map[]);
    out := map[];
    var pending := source.Keys;
    while pending != {}
      invariant pending <= source.Keys
      invariant out == map key | key in source && key !in pending && Storable(source[key]) :: source[key]
      decreases pending
    {
      var key :| key in pending;
      var value := source[key];
      pending := pending - {key};
      if IsNullish(value) {
        continue;
      }
      if value.Str? || value.Num? || value.Bool? {
        out := out[key := value];
        continue;
      }
      if value.Arr? {
        if AllStrings(value.items) {
          out := out[key := value];
        }
        continue;
      }
    }
  }

  /** The sanitiser never invents a key or changes a value, and keeps a key
      exactly when its value is storable. */
  lemma SanitizedSpec(m: Record)
    ensures Sanitized(m).Keys <= m.Keys
    ensures forall key :: key in Sanitized(m) ==> Sanitized(m)[key] == m[key]
    ensures forall key :: key in m ==> (key in Sanitized(m) <==> Storable(m[key]))
  {
  }

  /** What is dropped: null and undefined, objects, and arrays holding anything
      other than strings. */
  lemma DroppedValues(m: Record, key: string)
    requires key in m
    requires IsNullish(m[key]) || m[key].Obj? || (m[key].Arr? && exists i :: 0 <= i < |m[key].items| && !m[key].items[i].Str?)
    ensures key !in Sanitized(m)
  {
  }

  /** Sanitising twice is sanitising once. */
  lemma SanitizedIdempotent(m: Record)
    ensures Sanitized(Sanitized(m)) == Sanitized(m)
  {
  }

  const CreatedAtKey := "createdAt"
  const SourceKey := "source"

  /** The keys of the nine ticket fields. */
  const FieldKeys: set<string> := set k | 0 <= k < |TicketFields| :: TicketFields[k].key

  /** The metadata object the ingestion routes build for one ticket, before
      sanitising: the nine ticket fields as read (a missing one as undefined),
      `createdAt` and `source`. */
  function RawMetadata(item: Record, timestamp: string, source: string): Record
  {
    (map key | key in FieldKeys :: Get(item, key))[CreatedAtKey := Str(timestamp)][SourceKey := Str(source)]
  }

  /** The stored metadata of a ticket. */
  function IngestMetadata(item: Record, timestamp: string, source: string): Record
  {
    Sanitized(RawMetadata(item, timestamp, source))
  }

  /** The stored metadata always has `createdAt` and `source`, holds a ticket
      field exactly when its value is storable (unchanged), and nothing else. */
  lemma IngestMetadataShape(item: Record, timestamp: string, source: string)
    ensures IngestMetadata(item, timestamp, source).Keys <= FieldKeys + {CreatedAtKey, SourceKey}
    ensures CreatedAtKey in IngestMetadata(item, timestamp, source)
    ensures SourceKey in IngestMetadata(item, timestamp, source)
    ensures IngestMetadata(item, timestamp, source)[CreatedAtKey] == Str(timestamp)
    ensures IngestMetadata(item, timestamp, source)[SourceKey] == Str(source)
    ensures forall key :: key in FieldKeys ==>
              (key in IngestMetadata(item, timestamp, source) <==> Storable(Get(item, key)))
    ensures forall key :: key in FieldKeys && key in IngestMetadata(item, timestamp, source) ==>
              IngestMetadata(item, timestamp, source)[key] == Get(item, key)
  {
    assert CreatedAtKey !in FieldKeys && SourceKey !in FieldKeys by {
      forall k | 0 <= k < |TicketFields|
        ensures TicketFields[k].key != CreatedAtKey && TicketFields[k].key != SourceKey
      {
      }
    }
  }

  /** A ticket whose nine fields are strings, null or undefined is stored so that
      the context rebuilt from its metadata at query time is exactly the text
      that was embedded for it. */
  lemma StoredContextIsCanonicalText(item: Record, timestamp: string, source: string)
    requires forall k :: 0 <= k < |TicketFields| ==>
               var v := Get(item, TicketFields[k].key); v.Str? || IsNullish(v)
    ensures MetadataContext(IngestMetadata(item, timestamp, source)) == CanonicalText(item)
  {
    var md := IngestMetadata(item, timestamp, source);
    IngestMetadataShape(item, timestamp, source);
    forall k | 0 <= k < |TicketFields|
      ensures var v := Get(md, TicketFields[k].key); v.Str? || IsNullish(v)
      ensures Safe(Get(md, TicketFields[k].key)) == Safe(Get(item, TicketFields[k].key))
    {
      assert TicketFields[k].key in FieldKeys;
    }
    ContextMatchesCanonicalOnStrings(md);
    CanonicalTextDeterministic(md, item);
  }
}
