/** `DataValidator`: checks a batch against `EmployeeModel` and reports every problem it finds. */
module Validator {
  import opened Wrappers
  import opened Frames
  import opened EmailPattern
  import opened Schema
  import opened ValidationLog

  /** One entry of the issue list `validate_dataframe` returns. */
  datatype Issue =
    | EmptyFrame                                     // "Empty DataFrame"
    | MissingColumns(columns: seq<string>)           // "Missing required columns: [...]"
    | RowInvalid(line: nat, errors: seq<FieldError>) // "Linha {idx + 1}: {pydantic error}"
    | DuplicateIds(count: nat)                       // "Duplicate IDs found: {dups} casos"

  /** `a` is `b` with some elements left out, the rest kept in their order (matched from the end). */
  predicate Subsequence(a: seq<string>, b: seq<string>)
    decreases |b|
  {
    if a == [] then true
    else if b == [] then false
    else if a[|a| - 1] == b[|b| - 1] then Subsequence(a[..|a| - 1], b[..|b| - 1])
    else Subsequence(a, b[..|b| - 1])
  }

  /** `[col for col in required_fields if col not in df.columns]`: the missing names, in the order
      `required_fields` lists them. */
  function MissingFrom(required: seq<string>, columns: seq<string>): (m: seq<string>)
    ensures forall c :: c in m <==> c in required && c !in columns
    ensures |m| <= |required|
    ensures Subsequence(m, required)
  {
    if required == [] then []
    else
      var init := required[..|required| - 1];
      var c := required[|required| - 1];
      assert required == init + [c];
      var before := MissingFrom(init, columns);
      if c in columns then
        assert before != [] ==> before[|before| - 1] in before;
        before
      else
        assert (before + [c])[..|before|] == before;
        before + [c]
  }

  /** `RowErrors` of every record, in row order: what `model_validate` reports per record. */
  function RowErrorLists(columns: seq<string>, rows: seq<Row>, now: int): (es: seq<seq<FieldError>>)
    ensures |es| == |rows|
  {
    if rows == [] then []
    else RowErrorLists(columns, rows[..|rows| - 1], now) + [RowErrors(columns, rows[|rows| - 1], now)]
  }

  lemma {:induction false} RowErrorListsAt(columns: seq<string>, rows: seq<Row>, now: int)
    ensures forall p :: 0 <= p < |rows| ==> RowErrorLists(columns, rows, now)[p] == RowErrors(columns, rows[p], now)
  {
    if rows != [] {
      var init := rows[..|rows| - 1];
      RowErrorListsAt(columns, init, now);
      forall p | 0 <= p < |rows| - 1 ensures rows[p] == init[p] {
      }
    }
  }

  /** The issues of the per-record loop, given each record's errors: one issue per failing
      record, tagged with its 1-based line. */
  function RowIssues(errs: seq<seq<FieldError>>): seq<Issue> {
    if errs == [] then []
    else
      var last := errs[|errs| - 1];
      RowIssues(errs[..|errs| - 1]) + (if last == [] then [] else [RowInvalid(|errs|, last)])
  }

  /** `series.duplicated().sum()`: the number of positions whose value occurred earlier. */
  function DuplicateCount(ids: seq<Value>): nat {
    if ids == [] then 0
    else DuplicateCount(ids[..|ids| - 1]) + (if ids[|ids| - 1] in ids[..|ids| - 1] then 1 else 0)
  }

  /** The aggregate duplicate issue, when `employee_id` is a column and some value repeats. */
  function DuplicateIssue(columns: seq<string>, rows: seq<Row>): seq<Issue> {
    var dups := DuplicateCount(Column(rows, "employee_id"));
    if "employee_id" in columns && dups > 0 then [DuplicateIds(dups)] else []
  }

  /** The issue list of `validate_dataframe` for a validator whose `required_fields` is `required`. */
  function Issues(required: seq<string>, f: Frame, now: int): seq<Issue> {
    if IsEmpty(f) then [EmptyFrame]
    else
      var missing := MissingFrom(required, f.columns);
      if missing != [] then [MissingColumns(missing)]
      else RowIssues(RowErrorLists(f.columns, f.rows, now)) + DuplicateIssue(f.columns, f.rows)
  }

  // ----- the issue texts -----

  function KindName(k: Kind): string {
    match k
    case Text => "string"
    case DateTime => "datetime"
    case Number => "number"
  }

  /** pydantic's message for one error (the validators' own messages are their `ValueError`s). */
  function ErrorMessage(k: ErrorKind): string {
    match k
    case Missing => "Field required"
    case WrongType(t) => "Input should be a valid " + KindName(t)
    case TooShort(n) => "String should have at least " + NatToString(n) + " character" + Plural(n)
    case TooLong(n) => "String should have at most " + NatToString(n) + " character" + Plural(n)
    case Negative => "Input should be greater than or equal to 0"
    case BadEmail => "Value error, " + BadEmailMessage
    case FutureDate => "Value error, Data de contratação não pode estar no futuro"
    case Forbidden => "Extra inputs are not permitted"
  }

  const BadEmailMessage := "Formato de e-mail inválido"

  function Plural(n: nat): string {
    if n == 1 then "" else "s"
  }

  /** The location line and message line of one error. */
  function ErrorLine(e: FieldError): string {
    "\n" + e.loc + "\n  " + ErrorMessage(e.kind)
  }

  function ErrorLines(es: seq<FieldError>): string {
    if es == [] then "" else ErrorLine(es[0]) + ErrorLines(es[1..])
  }

  /** `str(ValidationError)`: a count header, then each error (pydantic's bracketed detail and
      documentation link lines are not rendered). */
  function ValidationErrorText(es: seq<FieldError>): string {
    NatToString(|es|) + " validation error" + Plural(|es|) + " for EmployeeModel" + ErrorLines(es)
  }

  /** Python's `str()` of a list of strings. */
  function ListRepr(cs: seq<string>): string {
    "[" + QuotedItems(cs) + "]"
  }

  function QuotedItems(cs: seq<string>): string {
    if cs == [] then ""
    else if |cs| == 1 then "'" + cs[0] + "'"
    else "'" + cs[0] + "', " + QuotedItems(cs[1..])
  }

  const MissingColumnsHeader := "Missing required columns: "

  /** The text of one issue. */
  function Render(i: Issue): string {
    match i
    case EmptyFrame => "Empty DataFrame"
    case MissingColumns(cs) => MissingColumnsHeader + ListRepr(cs)
    case RowInvalid(line, es) => "Linha " + NatToString(line) + ": " + ValidationErrorText(es)
    case DuplicateIds(n) => "Duplicate IDs found: " + NatToString(n) + " casos"
  }

  function RenderAll(issues: seq<Issue>): (texts: seq<string>)
    ensures |texts| == |issues|
    ensures forall k :: 0 <= k < |issues| ==> texts[k] == Render(issues[k])
  {
    if issues == [] then [] else [Render(issues[0])] + RenderAll(issues[1..])
  }

  /** `part` occurs in `text` at position `k`. */
  predicate OccursAt(text: string, part: string, k: int) {
    0 <= k <= |text| - |part| && text[k..k + |part|] == part
  }

  /** Python's `part in text`. */
  predicate Contains(text: string, part: string) {
    exists k :: 0 <= k <= |text| && OccursAt(text, part, k)
  }

  lemma ContainsInRight(a: string, b: string, part: string)
    requires Contains(b, part)
    ensures Contains(a + b, part)
  {
    var k :| 0 <= k <= |b| && OccursAt(b, part, k);
    assert (a + b)[|a| + k..|a| + k + |part|] == b[k..k + |part|];
    assert OccursAt(a + b, part, |a| + k);
  }

  lemma ContainsInLeft(a: string, b: string, part: string)
    requires Contains(a, part)
    ensures Contains(a + b, part)
  {
    var k :| 0 <= k <= |a| && OccursAt(a, part, k);
    assert (a + b)[k..k + |part|] == a[k..k + |part|];
    assert OccursAt(a + b, part, k);
  }

  lemma BadEmailLine()
    ensures Contains(ErrorLine(FieldError("email", BadEmail)), BadEmailMessage)
  {
    var prefix := "\nemail\n  Value error, ";
    assert ErrorLine(FieldError("email", BadEmail)) == prefix + BadEmailMessage;
    assert (prefix + BadEmailMessage)[|prefix|..|prefix| + |BadEmailMessage|] == BadEmailMessage;
    assert OccursAt(prefix + BadEmailMessage, BadEmailMessage, |prefix|);
  }

  lemma {:induction false} ErrorLinesContain(es: seq<FieldError>)
    requires FieldError("email", BadEmail) in es
    ensures Contains(ErrorLines(es), BadEmailMessage)
  {
    assert ErrorLines(es) == ErrorLine(es[0]) + ErrorLines(es[1..]);
    if es[0] == FieldError("email", BadEmail) {
      BadEmailLine();
      ContainsInLeft(ErrorLine(es[0]), ErrorLines(es[1..]), BadEmailMessage);
    } else {
      ErrorLinesContain(es[1..]);
      ContainsInRight(ErrorLine(es[0]), ErrorLines(es[1..]), BadEmailMessage);
    }
  }

  /** An invalid e-mail shows up in its record's issue text with the validator's message. */
  lemma BadEmailIsRendered(line: nat, es: seq<FieldError>)
    requires FieldError("email", BadEmail) in es
    ensures Contains(Render(RowInvalid(line, es)), BadEmailMessage)
  {
    ErrorLinesContain(es);
    var header := NatToString(|es|) + " validation error" + Plural(|es|) + " for EmployeeModel";
    ContainsInRight(header, ErrorLines(es), BadEmailMessage);
    ContainsInRight("Linha " + NatToString(line) + ": ", ValidationErrorText(es), BadEmailMessage);
  }

  // ----- properties of the issue list -----

  /** Every row issue is a `RowInvalid` for an existing line, carrying that record's errors, which
      are not empty. */
  lemma {:induction false} RowIssuesSound(errs: seq<seq<FieldError>>)
    ensures forall k :: 0 <= k < |RowIssues(errs)| ==>
      RowIssues(errs)[k].RowInvalid? && 1 <= RowIssues(errs)[k].line <= |errs| &&
      RowIssues(errs)[k].errors == errs[RowIssues(errs)[k].line - 1] && RowIssues(errs)[k].errors != []
  {
    if errs != [] {
      var init := errs[..|errs| - 1];
      RowIssuesSound(init);
      forall k | 0 <= k < |RowIssues(init)| ensures errs[RowIssues(init)[k].line - 1] == init[RowIssues(init)[k].line - 1] {
      }
    }
  }

  /** Every failing record has its issue. */
  lemma {:induction false} RowIssuesComplete(errs: seq<seq<FieldError>>)
    ensures forall p :: 0 <= p < |errs| && errs[p] != [] ==> RowInvalid(p + 1, errs[p]) in RowIssues(errs)
  {
    if errs != [] {
      var init := errs[..|errs| - 1];
      RowIssuesComplete(init);
      forall p | 0 <= p < |errs| - 1 ensures errs[p] == init[p] {
      }
    }
  }

  /** Row issues appear in increasing line order, so no record is reported twice. */
  lemma {:induction false} RowIssuesOrdered(errs: seq<seq<FieldError>>)
    ensures forall a, b :: 0 <= a < b < |RowIssues(errs)| ==>
      RowIssues(errs)[a].RowInvalid? && RowIssues(errs)[b].RowInvalid? &&
      RowIssues(errs)[a].line < RowIssues(errs)[b].line
  {
    if errs != [] {
      var init := errs[..|errs| - 1];
      RowIssuesOrdered(init);
      RowIssuesSound(init);
      RowIssuesSound(errs);
      var ri := RowIssues(errs);
      var ri0 := RowIssues(init);
      assert ri == ri0 + (if errs[|errs| - 1] == [] then [] else [RowInvalid(|errs|, errs[|errs| - 1])]);
      forall a, b | 0 <= a < b < |ri| ensures ri[a].RowInvalid? && ri[b].RowInvalid? && ri[a].line < ri[b].line {
        if b >= |ri0| {
          assert ri[b].line == |errs| && ri[a] == ri0[a];
        } else {
          assert ri[a] == ri0[a] && ri[b] == ri0[b];
        }
      }
    } else {
      assert RowIssues(errs) == [];
    }
  }

  /** No row issue exactly when every record passes. */
  lemma RowIssuesEmpty(errs: seq<seq<FieldError>>)
    ensures RowIssues(errs) == [] <==> forall p :: 0 <= p < |errs| ==> errs[p] == []
  {
    RowIssuesComplete(errs);
    if RowIssues(errs) != [] {
      RowIssuesSound(errs);
      assert RowIssues(errs)[0].RowInvalid?;
    }
  }

  lemma {:induction false} DuplicateCountZero(ids: seq<Value>)
    ensures DuplicateCount(ids) == 0 <==> !HasRepeat(ids)
  {
    if ids != [] {
      var init := ids[..|ids| - 1];
      var last := ids[|ids| - 1];
      DuplicateCountZero(init);
      if last in init {
        var i :| 0 <= i < |init| && init[i] == last;
        assert ids[i] == ids[|ids| - 1];
      }
      if DuplicateCount(ids) == 0 {
        forall i, j | 0 <= i < j < |ids| ensures ids[i] != ids[j] {
          if j < |ids| - 1 {
            assert ids[i] == init[i] && ids[j] == init[j];
          } else {
            assert ids[i] == init[i];
          }
        }
      }
    }
  }

  /** The duplicate count is the number of records minus the number of distinct ids. */
  lemma {:induction false} DuplicateCountDistinct(ids: seq<Value>)
    ensures DuplicateCount(ids) + |set v | v in ids| == |ids|
  {
    if ids != [] {
      var init := ids[..|ids| - 1];
      var last := ids[|ids| - 1];
      DuplicateCountDistinct(init);
      assert ids == init + [last];
      var s0 := set v | v in init;
      assert (set v | v in ids) == s0 + {last};
      if last !in init {
        assert last !in s0;
        assert |s0 + {last}| == |s0| + 1;
      } else {
        assert s0 + {last} == s0;
      }
    }
  }

  predicate HasDuplicateIssue(issues: seq<Issue>) {
    exists k :: 0 <= k < |issues| && issues[k].DuplicateIds?
  }

  /** Some value occurs at two positions. */
  predicate HasRepeat(ids: seq<Value>) {
    exists i, j :: 0 <= i < j < |ids| && ids[i] == ids[j]
  }

  /** Once the cheap checks pass, a duplicate issue is present exactly when some `employee_id`
      repeats; it is then the last issue, and its count plus the number of distinct ids is the
      number of records. */
  lemma DuplicateIssueIff(required: seq<string>, f: Frame, now: int)
    requires !IsEmpty(f) && MissingFrom(required, f.columns) == [] && "employee_id" in f.columns
    ensures HasDuplicateIssue(Issues(required, f, now)) <==> HasRepeat(Column(f.rows, "employee_id"))
    ensures HasRepeat(Column(f.rows, "employee_id")) ==>
      var issues := Issues(required, f, now);
      var ids := Column(f.rows, "employee_id");
      issues[|issues| - 1].DuplicateIds? && issues[|issues| - 1].count + |set v | v in ids| == |ids|
  {
    var ids := Column(f.rows, "employee_id");
    var errs := RowErrorLists(f.columns, f.rows, now);
    var ri := RowIssues(errs);
    var di := DuplicateIssue(f.columns, f.rows);
    RowIssuesSound(errs);
    DuplicateCountZero(ids);
    DuplicateCountDistinct(ids);
    var issues := Issues(required, f, now);
    assert issues == ri + di;
    AppendDuplicateIssue(ri, di);
    assert di != [] <==> DuplicateCount(ids) > 0;
    assert DuplicateCount(ids) > 0 <==> HasRepeat(ids);
  }

  lemma AppendDuplicateIssue(ri: seq<Issue>, di: seq<Issue>)
    requires forall k :: 0 <= k < |ri| ==> ri[k].RowInvalid?
    requires di == [] || (|di| == 1 && di[0].DuplicateIds?)
    ensures HasDuplicateIssue(ri + di) <==> di != []
    ensures di != [] ==> (ri + di)[|ri + di| - 1] == di[0]
  {
    if di != [] {
      assert (ri + di)[|ri|] == di[0];
    } else {
      assert ri + di == ri;
    }
  }

  /** A batch is schema-valid: it is not empty, has every required column, every record is one
      `EmployeeModel` accepts, and no two records share an `employee_id`. */
  ghost predicate SchemaValid(f: Frame, now: int) {
    !IsEmpty(f) &&
    (forall c :: c in RequiredFieldNames() ==> c in f.columns) &&
    (forall p :: 0 <= p < |f.rows| ==> RowOk(f.columns, f.rows[p], now)) &&
    (forall p, q :: 0 <= p < q < |f.rows| ==> Cell(f.rows[p], "employee_id") != Cell(f.rows[q], "employee_id"))
  }

  lemma RowsPassIff(f: Frame, now: int)
    ensures RowIssues(RowErrorLists(f.columns, f.rows, now)) == [] <==>
      forall p :: 0 <= p < |f.rows| ==> RowOk(f.columns, f.rows[p], now)
  {
    var errs := RowErrorLists(f.columns, f.rows, now);
    RowIssuesEmpty(errs);
    RowErrorListsAt(f.columns, f.rows, now);
    forall p | 0 <= p < |f.rows| ensures errs[p] == [] <==> RowOk(f.columns, f.rows[p], now) {
      RowErrorsEmptyIff(f.columns, f.rows[p], now);
    }
  }

  /** Past the two frame-level checks, no issue means every record passes and no id repeats. */
  lemma RecordIssuesIff(required: seq<string>, f: Frame, now: int)
    requires !IsEmpty(f) && MissingFrom(required, f.columns) == [] && "employee_id" in required
    ensures Issues(required, f, now) == [] <==>
      (forall p :: 0 <= p < |f.rows| ==> RowOk(f.columns, f.rows[p], now)) &&
      (forall p, q :: 0 <= p < q < |f.rows| ==> Cell(f.rows[p], "employee_id") != Cell(f.rows[q], "employee_id"))
  {
    assert "employee_id" in f.columns;
    NoDuplicateIssueIff(f.columns, f.rows);
    RowsPassIff(f, now);
    assert Issues(required, f, now) == RowIssues(RowErrorLists(f.columns, f.rows, now)) + DuplicateIssue(f.columns, f.rows);
  }

  /** With an `employee_id` column, the duplicate check is silent exactly when no two records
      share an id. */
  lemma NoDuplicateIssueIff(columns: seq<string>, rows: seq<Row>)
    requires "employee_id" in columns
    ensures DuplicateIssue(columns, rows) == [] <==>
      forall p, q :: 0 <= p < q < |rows| ==> Cell(rows[p], "employee_id") != Cell(rows[q], "employee_id")
  {
    var ids := Column(rows, "employee_id");
    DuplicateCountZero(ids);
    if DuplicateIssue(columns, rows) != [] {
      var i, j :| 0 <= i < j < |ids| && ids[i] == ids[j];
      assert Cell(rows[i], "employee_id") == Cell(rows[j], "employee_id");
    }
  }

  /** The validator reports no issue exactly for schema-valid batches. */
  lemma ValidIffSchemaValid(f: Frame, now: int)
    ensures Issues(RequiredFieldNames(), f, now) == [] <==> SchemaValid(f, now)
  {
    if !IsEmpty(f) {
      var missing := MissingFrom(RequiredFieldNames(), f.columns);
      if missing == [] {
        RequiredFieldNamesAre();
        RecordIssuesIff(RequiredFieldNames(), f, now);
      } else {
        assert missing[0] in missing;
      }
    }
  }

  /** The missing-column check short-circuits: one issue naming every absent required column, in
      declaration order, and the records are never looked at. */
  lemma MissingColumnsShortCircuit(required: seq<string>, f: Frame, rows: seq<Row>, now: int)
    requires !IsEmpty(f) && MissingFrom(required, f.columns) != [] && rows != []
    ensures Issues(required, f, now) == [MissingColumns(MissingFrom(required, f.columns))]
    ensures Issues(required, f, now) == Issues(required, Frame(f.columns, rows), now)
    ensures Render(Issues(required, f, now)[0])[..|MissingColumnsHeader|] == MissingColumnsHeader
  {
  }

  /** `DataValidator`: `required_fields` is computed once from the model; `validation_errors` is
      the log the summary is computed from. */
  class DataValidator {
    const requiredFields: seq<string>
    var validationErrors: seq<ErrorEntry>

    constructor ()
      ensures requiredFields == RequiredFieldNames()
      ensures validationErrors == []
    {
      requiredFields := RequiredFieldNames();
      validationErrors := [];
    }

    /** `validate_dataframe(df)`: `(is_valid, issues)`. It changes nothing, neither the batch nor
        the validator. */
    method ValidateFrame(f: Frame, now: int) returns (isValid: bool, issues: seq<Issue>)
      ensures issues == Issues(requiredFields, f, now)
      ensures isValid <==> issues == []
      ensures IsEmpty(f) ==> !isValid && RenderAll(issues) == ["Empty DataFrame"]
    {
      if IsEmpty(f) {
        return false, [EmptyFrame];
      }
      issues := [];
      var missing := MissingFrom(requiredFields, f.columns);
      if missing != [] {
        issues := issues + [MissingColumns(missing)];
        return false, issues;
      }
      var p := 0;
      while p < |f.rows|
        invariant 0 <= p <= |f.rows|
        invariant issues == RowIssues(RowErrorLists(f.columns, f.rows[..p], now))
      {
        assert f.rows[..p + 1][..p] == f.rows[..p];
        assert RowErrorLists(f.columns, f.rows[..p + 1], now) ==
          RowErrorLists(f.columns, f.rows[..p], now) + [RowErrors(f.columns, f.rows[p], now)];
        var errs := RowErrors(f.columns, f.rows[p], now);
        if errs != [] {
          issues := issues + [RowInvalid(p + 1, errs)];
        }
        p := p + 1;
      }
      assert f.rows[..p] == f.rows;
      if "employee_id" in f.columns {
        var dups := DuplicateCount(Column(f.rows, "employee_id"));
        if dups > 0 {
          issues := issues + [DuplicateIds(dups)];
        }
      }
      if issues == [] {
        return true, [];
      }
      return false, issues;
    }

    /** `_group_errors_by_source()`. */
    method GroupErrorsBySource() returns (counts: map<string, nat>)
      ensures counts == SourceCounts(validationErrors)
      ensures forall s :: s in counts <==> exists e :: e in validationErrors && e.source == s
      ensures forall s :: s in counts ==> counts[s] == CountSource(validationErrors, s)
    {
      counts := map[];
      var i := 0;
      while i < |validationErrors|
        invariant 0 <= i <= |validationErrors|
        invariant counts == SourceCounts(validationErrors[..i])
      {
        assert validationErrors[..i + 1][..i] == validationErrors[..i];
        var source := validationErrors[i].source;
        counts := counts[source := (if source in counts then counts[source] else 0) + 1];
        i := i + 1;
      }
      assert validationErrors[..i] == validationErrors;
      SourceCountsCorrect(validationErrors);
    }

    /** `_get_common_errors()`. */
    method GetCommonErrors() returns (top: seq<(string, nat)>)
      ensures top == CommonErrors(validationErrors)
      ensures |top| <= 10 && NonIncreasing(top)
    {
      var counts: seq<(string, nat)> := [];
      var i := 0;
      while i < |validationErrors|
        invariant 0 <= i <= |validationErrors|
        invariant counts == Tally(Messages(validationErrors[..i]))
      {
        var errors := validationErrors[i].errors;
        ghost var before := Messages(validationErrors[..i]);
        var j := 0;
        DetailMessagesStart(before, errors);
        while j < |errors|
          invariant 0 <= j <= |errors|
          invariant counts == Tally(before + DetailMessages(errors[..j]))
        {
          var msg := MessageOf(errors[j]);
          DetailMessagesStep(before, errors, j);
          counts := Bump(counts, msg);
          j := j + 1;
        }
        MessagesStep(validationErrors, i);
        i := i + 1;
      }
      assert validationErrors[..i] == validationErrors;
      var sorted := SortByCount(counts);
      top := TopTen(sorted);
      CommonErrorsTopTen(validationErrors);
    }

    /** `get_validation_summary()`. */
    method GetValidationSummary() returns (s: Summary)
      ensures s == SummaryOf(validationErrors)
      ensures s.totalErrors == |validationErrors| && MapTotal(s.errorsBySource) == |validationErrors|
    {
      var bySource := GroupErrorsBySource();
      var common := GetCommonErrors();
      s := Summary(|validationErrors|, bySource, common);
      SourceCountsTotal(validationErrors);
    }
  }
}
