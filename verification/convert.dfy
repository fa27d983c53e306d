/**
 * The optional row filter of `POST /convert`: when the request carries a
 * positive `filterSolutionMinLen`, only the rows whose `solucao` is a string
 * longer than that many characters are converted.
 */
module Convert {
  import opened Outcomes
  import opened Text
  import opened JsValues

  const MinLengthKey := "filterSolutionMinLen"

  /** `minLenRaw !== undefined ? Number(minLenRaw) : 0`, with `minLenRaw` read
      as `req.body?.filterSolutionMinLen`; `None` stands for NaN. */
  function MinLength(body: JsVal): Option<int>
  {
    var raw := OptMember(body, MinLengthKey);
    if raw == Undef then Some(0) else ToNumber(raw)
  }

  /** `!Number.isNaN(minLen) && minLen > 0` */
  predicate FilterActive(minLen: Option<int>)
  {
    minLen.Some? && minLen.value > 0
  }

  /** `typeof row?.solucao === 'string' && row.solucao.length > minLen` */
  predicate LongSolution(row: JsVal, minLen: int)
  {
    var solution := OptMember(row, "solucao");
    solution.Str? && |solution.s| > minLen
  }

  /** The filter's test for a given bound. */
  function LongerThan(minLen: int): JsVal -> bool
  {
    row => LongSolution(row, minLen)
  }

  /** The rows that are converted. */
  function SolutionFilter(body: JsVal, rows: seq<JsVal>): seq<JsVal>
  {
    var minLen := MinLength(body);
    if FilterActive(minLen) then Filter(rows, LongerThan(minLen.value)) else rows
  }

  /** With a positive bound, a row is kept exactly when its `solucao` is a
      string longer than the bound, as many times as it occurs, and the kept
      rows stay in input order;
      otherwise (no bound, zero, a negative number or NaN) every row is kept. */
  lemma SolutionFilterSpec(body: JsVal, rows: seq<JsVal>)
    ensures var minLen := MinLength(body);
      FilterActive(minLen) ==>
        && (forall row :: row in SolutionFilter(body, rows) <==> row in rows && LongSolution(row, minLen.value))
        && (forall row :: multiset(SolutionFilter(body, rows))[row]
                           == if LongSolution(row, minLen.value) then multiset(rows)[row] else 0)
        && IsSubsequence(SolutionFilter(body, rows), rows)
    ensures !FilterActive(MinLength(body)) ==> SolutionFilter(body, rows) == rows
  {
    var minLen := MinLength(body);
    if FilterActive(minLen) {
      FilterSpec(rows, LongerThan(minLen.value));
    }
  }

  /** A missing bound never filters; a numeric bound `n > 0` filters by `n`. */
  lemma MinLengthCases(body: JsVal, n: int)
    ensures body.Obj? && MinLengthKey !in body.fields ==> MinLength(body) == Some(0)
    ensures body.Obj? && MinLengthKey in body.fields && body.fields[MinLengthKey] == Str(IntToString(n))
            ==> MinLength(body) == Some(n)
  {
    if body.Obj? && MinLengthKey in body.fields && body.fields[MinLengthKey] == Str(IntToString(n)) {
      ParseIntegerOfIntToString(n);
    }
  }
}
