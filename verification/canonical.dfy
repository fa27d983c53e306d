/**
 * The labelled-line text built from a ticket: the canonical text that is
 * embedded at ingestion, and the context block rebuilt from stored metadata
 * at query time. Both use the same nine fields, labels and order; they differ
 * only in the test that decides whether a field produces a line.
 */
module Canonical {
  import opened Outcomes
  import opened Text
  import opened JsValues

  /** A ticket field: the property read and the heading printed before its value. */
  datatype Field = Field(key: string, heading: string)

  /** The nine ticket fields, in the order their lines appear. */
  const TicketFields: seq<Field> := [
    Field("titulo", "Título"),
    Field("problema", "Problema"),
    Field("solucao", "Solução"),
    Field("menuSistema", "Menu do Sistema"),
    Field("nomeCli", "Cliente"),
    Field("nomeFuncionarioCliente", "Funcionário do Cliente"),
    Field("respAbertura", "Atendente"),
    Field("Comentario", "Comentário"),
    Field("Tags", "Tags")
  ]

  /** The line separator of both texts. */
  const NewLine := "\n"

  /** The `safe` coercion of buildCanonicalText: null and undefined become "". */
  function Safe(v: JsVal): string
  {
    if IsNullish(v) then "" else ToStr(v)
  }

  /** Which test decides that a field produces a line. */
  datatype Rule =
    | SafeString  // canonical text: the coerced string is non-empty
    | JsTruthy    // metadata context: the value is truthy

  predicate Emits(rule: Rule, v: JsVal)
  {
    match rule
    case SafeString => Safe(v) != ""
    case JsTruthy => Truthy(v)
  }

  /** The value text printed after the label. */
  function Shown(rule: Rule, v: JsVal): string
  {
    match rule
    case SafeString => Safe(v)
    case JsTruthy => ToStr(v)
  }

  /** The template `${heading}: ${value}` of every line. */
  function Line(heading: string, value: string): string
  {
    heading + ": " + value
  }

  /** What one field contributes: its heading, and the value text when the
      field produces a line. */
  datatype Entry = Entry(heading: string, value: Option<string>)

  /** The value text of a field that produces a line, or nothing. */
  function Cell(rule: Rule, v: JsVal): Option<string>
  {
    if Emits(rule, v) then Some(Shown(rule, v)) else None
  }

  /** The entries of the nine fields of a record, in table order. */
  function Entries(rule: Rule, r: Record): (es: seq<Entry>)
    ensures |es| == |TicketFields|
  {
    seq(|TicketFields|, i requires 0 <= i < |TicketFields| =>
      Entry(TicketFields[i].heading, Cell(rule, Get(r, TicketFields[i].key))))
  }

  /** The lines of the first `n` entries: `"<heading>: <value>"` for each entry
      that has a value, in order. */
  function Render(es: seq<Entry>, n: nat): seq<string>
    requires n <= |es|
  {
    if n == 0 then []
    else Render(es, n - 1) + (if es[n - 1].value.Some? then [Line(es[n - 1].heading, es[n - 1].value.value)] else [])
  }

  /** How many of the first `n` entries have a value. */
  function Emitted(es: seq<Entry>, n: nat): nat
    requires n <= |es|
  {
    if n == 0 then 0 else Emitted(es, n - 1) + (if es[n - 1].value.Some? then 1 else 0)
  }

  /** buildCanonicalText, as a function of the ticket. */
  function CanonicalText(item: Record): string
  {
    Join(Render(Entries(SafeString, item), |TicketFields|), NewLine)
  }

  /** buildContextFromMetadata, as a function of the metadata. */
  function MetadataContext(md: Record): string
  {
    Join(Render(Entries(JsTruthy, md), |TicketFields|), NewLine)
  }

  // ---------------------------------------------------------------------
  // The two builders as the source runs them: a local list that each field's
  // test may push one line onto, field by field in table order, joined at
  // the end.
  // ---------------------------------------------------------------------

  /** buildCanonicalText(item) */
  method BuildCanonicalText(item: Record) returns (text: string)
    ensures text == CanonicalText(item)
  {
    var parts: seq<string> := [];
    for i := 0 to |TicketFields|
      invariant parts == Render(Entries(SafeString, item), i)
    {
      var field := TicketFields[i];
      if Safe(Get(item, field.key)) != "" {
        parts := parts + [Line(field.heading, Safe(Get(item, field.key)))];
      }
    }
    text := Join(parts, NewLine);
  }

  /** buildContextFromMetadata(md) */
  method BuildContextFromMetadata(md: Record) returns (text: string)
    ensures text == MetadataContext(md)
  {
    var lines: seq<string> := [];
    for i := 0 to |TicketFields|
      invariant lines == Render(Entries(JsTruthy, md), i)
    {
      var field := TicketFields[i];
      if Truthy(Get(md, field.key)) {
        lines := lines + [Line(field.heading, ToStr(Get(md, field.key)))];
      }
    }
    text := Join(lines, NewLine);
  }

  // ---------------------------------------------------------------------
  // What the lines are: one per entry with a value, in order, and nothing else.
  // ---------------------------------------------------------------------

  /** There is exactly one line per entry with a value. */
  lemma {:induction false} RenderCount(es: seq<Entry>, n: nat)
    requires n <= |es|
    ensures |Render(es, n)| == Emitted(es, n)
  {
    if n > 0 {
      RenderCount(es, n - 1);
    }
  }

  /** The lines of fewer entries are a prefix of the lines of more entries. */
  lemma {:induction false} RenderPrefix(es: seq<Entry>, m: nat, n: nat)
    requires m <= n <= |es|
    ensures |Render(es, m)| <= |Render(es, n)|
    ensures Render(es, n)[..|Render(es, m)|] == Render(es, m)
  {
    if m < n {
      RenderPrefix(es, m, n - 1);
      var front := Render(es, n - 1);
      assert Render(es, n)[..|front|] == front;
    }
  }

  /** An entry with a value gives the line `"<heading>: <value>"`, placed right
      after the lines of the entries before it. */
  lemma LineOfEntry(es: seq<Entry>, k: nat, n: nat)
    requires k < n <= |es|
    requires es[k].value.Some?
    ensures Emitted(es, k) < |Render(es, n)|
    ensures Render(es, n)[Emitted(es, k)] == Line(es[k].heading, es[k].value.value)
  {
    RenderCount(es, k);
    RenderPrefix(es, k + 1, n);
    var upto := Render(es, k + 1);
    assert upto[|Render(es, k)|] == Line(es[k].heading, es[k].value.value);
    assert Render(es, n)[Emitted(es, k)] == upto[Emitted(es, k)];
  }

  /** Every line comes from an entry with a value among the first `n`. */
  lemma {:induction false} LineFromEntry(es: seq<Entry>, n: nat, j: nat)
    requires n <= |es|
    requires j < |Render(es, n)|
    ensures exists k :: 0 <= k < n && es[k].value.Some? && Render(es, n)[j] == Line(es[k].heading, es[k].value.value)
  {
    var front := Render(es, n - 1);
    if j < |front| {
      LineFromEntry(es, n - 1, j);
      var k :| 0 <= k < n - 1 && es[k].value.Some? && front[j] == Line(es[k].heading, es[k].value.value);
      assert Render(es, n)[j] == front[j];
    } else {
      assert es[n - 1].value.Some? && Render(es, n)[j] == Line(es[n - 1].heading, es[n - 1].value.value);
    }
  }

  /** No entry with a value means no lines. */
  lemma {:induction false} NoValueNoLines(es: seq<Entry>, n: nat)
    requires n <= |es|
    ensures Render(es, n) == [] <==> forall k :: 0 <= k < n ==> es[k].value.None?
  {
    if n > 0 {
      NoValueNoLines(es, n - 1);
    }
  }

  /** When every heading is non-empty, every line is non-empty, so the joined
      text is empty exactly when no entry has a value. */
  lemma EmptyTextIffNoValue(es: seq<Entry>)
    requires forall k :: 0 <= k < |es| ==> es[k].heading != ""
    ensures Join(Render(es, |es|), NewLine) == "" <==> forall k :: 0 <= k < |es| ==> es[k].value.None?
  {
    var lines := Render(es, |es|);
    NoValueNoLines(es, |es|);
    if lines != [] {
      LineFromEntry(es, |es|, 0);
      var k :| 0 <= k < |es| && es[k].value.Some? && lines[0] == Line(es[k].heading, es[k].value.value);
      assert |lines[0]| > 0;
      JoinStartsWithFirst(lines, NewLine);
    }
  }

  /** When only entry `k` has a value, the lines are that entry's line alone
      (once the first `n` entries include it). */
  lemma {:induction false} OnlyEntryLines(es: seq<Entry>, k: nat, n: nat)
    requires k < |es| && n <= |es|
    requires forall j :: 0 <= j < |es| && j != k ==> es[j].value.None?
    ensures Render(es, n) == if n <= k || es[k].value.None? then [] else [Line(es[k].heading, es[k].value.value)]
  {
    if n > 0 {
      OnlyEntryLines(es, k, n - 1);
    }
  }

  // ---------------------------------------------------------------------
  // Properties of the two texts.
  // ---------------------------------------------------------------------

  /** The ticket headings are all non-empty. */
  lemma HeadingsNonEmpty(rule: Rule, r: Record)
    ensures forall k :: 0 <= k < |TicketFields| ==> Entries(rule, r)[k].heading != ""
  {
    forall k | 0 <= k < |TicketFields|
      ensures Entries(rule, r)[k].heading != ""
    {
      assert Entries(rule, r)[k].heading == TicketFields[k].heading;
    }
  }

  /** A text is empty exactly when none of the nine fields produces a line. */
  lemma EmptyTextIffNoLines(rule: Rule, r: Record)
    ensures Join(Render(Entries(rule, r), |TicketFields|), NewLine) == ""
            <==> forall k :: 0 <= k < |TicketFields| ==> !Emits(rule, Get(r, TicketFields[k].key))
  {
    var es := Entries(rule, r);
    HeadingsNonEmpty(rule, r);
    EmptyTextIffNoValue(es);
    assert forall k :: 0 <= k < |TicketFields| ==> (es[k].value.None? <==> !Emits(rule, Get(r, TicketFields[k].key)));
  }

  /** Canonical text depends only on the coerced strings of the nine fields:
      null, undefined, a missing field and "" are interchangeable. */
  lemma CanonicalTextDeterministic(a: Record, b: Record)
    requires forall k :: 0 <= k < |TicketFields| ==> Safe(Get(a, TicketFields[k].key)) == Safe(Get(b, TicketFields[k].key))
    ensures CanonicalText(a) == CanonicalText(b)
  {
    var ea := Entries(SafeString, a);
    var eb := Entries(SafeString, b);
    assert forall k :: 0 <= k < |TicketFields| ==> ea[k] == eb[k];
    assert ea == eb;
  }

  /** `line` is the line of entry `k`, which has a value. */
  predicate EntryLine(es: seq<Entry>, k: int, line: string)
  {
    0 <= k < |es| && es[k].value.Some? && line == Line(es[k].heading, es[k].value.value)
  }

  /** The rendered lines are exactly the lines of the entries with a value:
      entry `k`'s line sits right after the lines of the entries before it, and
      every line is some entry's line. */
  lemma RenderExact(es: seq<Entry>)
    ensures forall k :: 0 <= k < |es| && es[k].value.Some? ==>
              Emitted(es, k) < |Render(es, |es|)| && EntryLine(es, k, Render(es, |es|)[Emitted(es, k)])
    ensures forall line :: line in Render(es, |es|) ==> exists k :: EntryLine(es, k, line)
  {
    forall k | 0 <= k < |es| && es[k].value.Some?
      ensures Emitted(es, k) < |Render(es, |es|)| && EntryLine(es, k, Render(es, |es|)[Emitted(es, k)])
    {
      LineOfEntry(es, k, |es|);
    }
    forall line | line in Render(es, |es|)
      ensures exists k :: EntryLine(es, k, line)
    {
      var j :| 0 <= j < |Render(es, |es|)| && Render(es, |es|)[j] == line;
      LineFromEntry(es, |es|, j);
      var k :| 0 <= k < |es| && es[k].value.Some? && line == Line(es[k].heading, es[k].value.value);
      assert EntryLine(es, k, line);
    }
  }

  /** When every ticket field is a string, null or undefined, the context rebuilt
      from the record is its canonical text: the two tests agree on such values. */
  lemma ContextMatchesCanonicalOnStrings(r: Record)
    requires forall k :: 0 <= k < |TicketFields| ==>
               var v := Get(r, TicketFields[k].key); v.Str? || IsNullish(v)
    ensures MetadataContext(r) == CanonicalText(r)
  {
    var ec := Entries(JsTruthy, r);
    var es := Entries(SafeString, r);
    assert forall k :: 0 <= k < |TicketFields| ==> ec[k] == es[k];
    assert ec == es;
  }

  /** A record in which field `k` is the only one of the nine present, whatever
      other properties it carries, yields that field's line alone. */
  lemma SingleFieldText(rule: Rule, r: Record, k: nat)
    requires k < |TicketFields|
    requires forall j :: 0 <= j < |TicketFields| && j != k ==> TicketFields[j].key !in r
    ensures var v := Get(r, TicketFields[k].key);
      Join(Render(Entries(rule, r), |TicketFields|), NewLine)
        == if Emits(rule, v) then Line(TicketFields[k].heading, Shown(rule, v)) else ""
  {
    var es := Entries(rule, r);
    forall j | 0 <= j < |TicketFields| && j != k
      ensures es[j].value.None?
    {
      assert Get(r, TicketFields[j].key) == Undef;
    }
    OnlyEntryLines(es, k, |TicketFields|);
  }

  /** The nine fields have nine different keys. */
  lemma KeysDistinct(i: nat, j: nat)
    requires i < |TicketFields| && j < |TicketFields| && i != j
    ensures TicketFields[i].key != TicketFields[j].key
  {
  }

  /** The one-property record `{k: v}` yields field `k`'s line alone, or ""
      when `v` fails the test: `SingleFieldText` with its premise discharged. */
  lemma OneFieldText(rule: Rule, k: nat, v: JsVal)
    requires k < |TicketFields|
    ensures Join(Render(Entries(rule, map[TicketFields[k].key := v]), |TicketFields|), NewLine)
              == if Emits(rule, v) then Line(TicketFields[k].heading, Shown(rule, v)) else ""
  {
    var r := map[TicketFields[k].key := v];
    forall j | 0 <= j < |TicketFields| && j != k
      ensures TicketFields[j].key !in r
    {
      KeysDistinct(j, k);
    }
    SingleFieldText(rule, r, k);
  }

  /** A numeric 0 title is embedded as "Título: 0" but leaves no line in the
      context rebuilt from metadata. */
  lemma ZeroTitleDiverges()
    ensures CanonicalText(map["titulo" := Num(0)]) == "Título: 0"
    ensures MetadataContext(map["titulo" := Num(0)]) == ""
  {
    assert TicketFields[0].key == "titulo";
    assert Shown(SafeString, Num(0)) == "0";
    assert Line(TicketFields[0].heading, "0") == "Título: 0";
    OneFieldText(SafeString, 0, Num(0));
    OneFieldText(JsTruthy, 0, Num(0));
  }

  /** A `false` client name is embedded as "Cliente: false" but leaves no line
      in the rebuilt context. */
  lemma FalseClientDiverges()
    ensures CanonicalText(map["nomeCli" := Bool(false)]) == "Cliente: false"
    ensures MetadataContext(map["nomeCli" := Bool(false)]) == ""
  {
    assert TicketFields[4].key == "nomeCli";
    assert Shown(SafeString, Bool(false)) == "false";
    assert Line(TicketFields[4].heading, "false") == "Cliente: false";
    OneFieldText(SafeString, 4, Bool(false));
    OneFieldText(JsTruthy, 4, Bool(false));
  }

  /** An empty array of tags gives no canonical line, but it is truthy, so the
      rebuilt context carries an empty "Tags: " line. */
  lemma EmptyTagsDiverge()
    ensures CanonicalText(map["Tags" := Arr([])]) == ""
    ensures MetadataContext(map["Tags" := Arr([])]) == "Tags: "
  {
    assert TicketFields[8].key == "Tags";
    assert Shown(JsTruthy, Arr([])) == "";
    assert Line(TicketFields[8].heading, "") == "Tags: ";
    OneFieldText(SafeString, 8, Arr([]));
    OneFieldText(JsTruthy, 8, Arr([]));
  }
}
