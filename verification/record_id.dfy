/**
 * Deterministic vector ids: the key string built from four ticket fields and
 * the record's position in the upload, and the first 32 hexadecimal digits of
 * its SHA-256 digest. The hash itself is a parameter of the model.
 */
module RecordId {
  import opened Text
  import opened JsValues

  predicate IsHexChar(c: char) { '0' <= c <= '9' || 'a' <= c <= 'f' }

  /** A SHA-256 digest as `digest('hex')` prints it: 64 lower-case hex digits. */
  type Digest = s: string | |s| == 64 && forall i :: 0 <= i < |s| ==> IsHexChar(s[i])
    witness seq(64, _ => '0')

  /** The number of hex digits kept from the digest. */
  const IdLength := 32

  /** `${v || ''}`: a falsy field contributes nothing, any other its string form. */
  function OrEmpty(v: JsVal): string
  {
    if Truthy(v) then ToStr(v) else ""
  }

  /** The part of the key that comes from the ticket: `nomeCli|titulo|problema|solucao|`. */
  function FieldsPart(item: Record): string
  {
    OrEmpty(Get(item, "nomeCli")) + "|" + OrEmpty(Get(item, "titulo")) + "|"
      + OrEmpty(Get(item, "problema")) + "|" + OrEmpty(Get(item, "solucao")) + "|"
  }

  /** The string that is hashed for the record at position `index`. */
  function IdKey(item: Record, index: nat): string
  {
    FieldsPart(item) + NatToString(index)
  }

  /** createDeterministicId(item, index) */
  function CreateDeterministicId(sha256: string -> Digest, item: Record, index: nat): (id: string)
    ensures |id| == IdLength
    ensures forall i :: 0 <= i < |id| ==> IsHexChar(id[i])
    ensures id == sha256(IdKey(item, index))[..IdLength]
  {
    sha256(IdKey(item, index))[..IdLength]
  }

  /** The key is the five parts joined with "|", the position last in decimal. */
  lemma IdKeyIsJoin(item: Record, index: nat)
    ensures IdKey(item, index)
      == Join([OrEmpty(Get(item, "nomeCli")), OrEmpty(Get(item, "titulo")), OrEmpty(Get(item, "problema")),
               OrEmpty(Get(item, "solucao")), NatToString(index)], "|")
  {
    JoinFive(OrEmpty(Get(item, "nomeCli")), OrEmpty(Get(item, "titulo")), OrEmpty(Get(item, "problema")),
             OrEmpty(Get(item, "solucao")), NatToString(index));
  }

  lemma JoinFive(a: string, b: string, c: string, d: string, e: string)
    ensures Join([a, b, c, d, e], "|") == a + "|" + b + "|" + c + "|" + d + "|" + e
  {
    var parts := [a, b, c, d, e];
    assert parts[1..][1..][1..][1..] == [e];
    assert Join(parts[1..][1..][1..], "|") == d + "|" + e;
    assert Join(parts[1..][1..], "|") == c + "|" + (d + "|" + e);
    assert Join(parts[1..], "|") == b + "|" + (c + "|" + (d + "|" + e));
  }

  /** Two positions of the same ticket never share a key: the position is the
      decimal suffix after the last field separator. */
  lemma {:induction false} IdKeyIndexInjective(item: Record, i: nat, j: nat)
    requires IdKey(item, i) == IdKey(item, j)
    ensures i == j
  {
    var prefix := FieldsPart(item);
    assert NatToString(i) == IdKey(item, i)[|prefix|..];
    assert NatToString(j) == IdKey(item, j)[|prefix|..];
    NatToStringInjective(i, j);
  }

  /** Falsy fields read as "": a ticket whose four key fields agree after that
      coercion gets the same key and so the same id at the same position. */
  lemma SameFieldsSameId(sha256: string -> Digest, a: Record, b: Record, index: nat)
    requires OrEmpty(Get(a, "nomeCli")) == OrEmpty(Get(b, "nomeCli"))
    requires OrEmpty(Get(a, "titulo")) == OrEmpty(Get(b, "titulo"))
    requires OrEmpty(Get(a, "problema")) == OrEmpty(Get(b, "problema"))
    requires OrEmpty(Get(a, "solucao")) == OrEmpty(Get(b, "solucao"))
    ensures IdKey(a, index) == IdKey(b, index)
    ensures CreateDeterministicId(sha256, a, index) == CreateDeterministicId(sha256, b, index)
  {
  }

  /** Null, undefined, "", 0 and false fields all give the key of a missing field. */
  lemma FalsyFieldsAreEmpty(item: Record, index: nat)
    requires forall key :: key in item ==> !Truthy(item[key])
    ensures IdKey(item, index) == "||||" + NatToString(index)
  {
  }

  /** The separator is not escaped: a "|" inside a field can give two different
      tickets the same key, and so the same id, at the same position. */
  lemma SeparatorInFieldCollides(sha256: string -> Digest)
    ensures IdKey(map["nomeCli" := Str("a|b")], 0) == IdKey(map["nomeCli" := Str("a"), "titulo" := Str("b|")], 0)
    ensures CreateDeterministicId(sha256, map["nomeCli" := Str("a|b")], 0)
         == CreateDeterministicId(sha256, map["nomeCli" := Str("a"), "titulo" := Str("b|")], 0)
  {
    var one: Record := map["nomeCli" := Str("a|b")];
    var two: Record := map["nomeCli" := Str("a"), "titulo" := Str("b|")];
    assert FieldsPart(one) == "a|b" + "|" + "" + "|" + "" + "|" + "" + "|" == "a|b||||";
    assert "a" + "|" + "b|" == "a|b|";
    assert FieldsPart(two) == "a|b|" + "|" + "" + "|" + "" + "|" == "a|b||||";
  }
}
