/** The cases the validator's unit tests exercise, stated over the model: the fixture record, the
    batch without its `email` column and the record with a malformed e-mail. */
module ValidatorCases {
  import opened Frames
  import opened EmailPattern
  import opened Schema
  import opened Validator

  /** The columns of the one-record fixture batch. */
  const FixtureColumns := ["employee_id", "first_name", "last_name", "email", "department", "position",
                           "hire_date", "data_source"]

  /** The fixture record, hired at clock value `hired`. */
  function FixtureRecord(hired: int): Row {
    map["employee_id" := Str("EMP001"), "first_name" := Str("John"), "last_name" := Str("Doe"),
        "email" := Str("john.doe@example.com"), "department" := Str("Engineering"),
        "position" := Str("Developer"), "hire_date" := Time(hired), "data_source" := Str("test")]
  }

  /** The fixture's values, field by field. */
  lemma FixtureCells(hired: int)
    ensures var r := FixtureRecord(hired);
      Cell(r, "employee_id") == Str("EMP001") && Cell(r, "first_name") == Str("John") &&
      Cell(r, "last_name") == Str("Doe") && Cell(r, "email") == Str("john.doe@example.com") &&
      Cell(r, "department") == Str("Engineering") && Cell(r, "position") == Str("Developer") &&
      Cell(r, "hire_date") == Time(hired) && Cell(r, "data_source") == Str("test")
  {
  }

  /** The fixture's address matches the pattern, split after `john.doe` and before `com`. */
  lemma FixtureEmailValid()
    ensures IsValidEmail("john.doe@example.com")
  {
    var s := "john.doe@example.com";
    assert s[..8] == "john.doe" && s[9..16] == "example" && s[17..] == "com";
    assert SplitsAt(s, 8, 16);
  }

  /** A text without `@` never matches the pattern. */
  lemma NoAtIsInvalid(s: string)
    requires '@' !in s
    ensures !IsValidEmail(s)
  {
    if IsValidEmail(s) {
      MatchHasNonEmptyLocalPart(s);
      assert false;
    }
  }

  /** The fixture batch has none of the optional columns. */
  lemma FixtureLacksOptionalFields()
    ensures "phone" !in FixtureColumns && "ssn" !in FixtureColumns && "salary" !in FixtureColumns &&
      "street_address" !in FixtureColumns && "city" !in FixtureColumns && "state" !in FixtureColumns &&
      "zip_code" !in FixtureColumns && "manager_id" !in FixtureColumns && "performance_rating" !in FixtureColumns
  {
  }

  /** The fixture record is one `EmployeeModel` accepts. */
  lemma FixtureRowOk(columns: seq<string>, row: Row, hired: int, now: int)
    requires columns == FixtureColumns && row == FixtureRecord(hired) && hired <= now
    ensures RowOk(columns, row, now)
  {
    FixtureEmailValid();
    FixtureCells(hired);
    FixtureLacksOptionalFields();
    assert NamesOk(columns, row);
    assert OthersOk(columns, row, now);
    assert forall c :: c in columns ==> c in ModelFieldNames;
  }

  /** A one-record batch of the fixture, hired no later than `now`, raises no issue. */
  lemma FixtureFrameValid(f: Frame, hired: int, now: int)
    requires f == Frame(FixtureColumns, [FixtureRecord(hired)]) && hired <= now
    ensures Issues(RequiredFieldNames(), f, now) == []
  {
    FixtureColumnsAreRequired();
    FixtureRowOk(f.columns, f.rows[0], hired, now);
    OneRecordSchemaValid(f, now);
    ValidIffSchemaValid(f, now);
  }

  /** A batch of one accepted record that has every required column is schema-valid. */
  lemma OneRecordSchemaValid(f: Frame, now: int)
    requires |f.rows| == 1 && f.columns == RequiredFieldNames() && RowOk(f.columns, f.rows[0], now)
    ensures SchemaValid(f, now)
  {
    assert |f.columns| > 0 by {
      RequiredFieldNamesAre();
    }
  }

  /** A non-empty batch lacking a required column is rejected with one issue, which names that
      column and whose text starts with the missing-columns header. */
  lemma MissingRequiredColumnReported(f: Frame, c: string, now: int)
    requires !IsEmpty(f) && c in RequiredFieldNames() && c !in f.columns
    ensures var issues := Issues(RequiredFieldNames(), f, now);
      |issues| == 1 && issues[0].MissingColumns? && c in issues[0].columns &&
      Render(issues[0])[..|MissingColumnsHeader|] == MissingColumnsHeader
  {
    assert c in MissingFrom(RequiredFieldNames(), f.columns);
    MissingColumnsShortCircuit(RequiredFieldNames(), f, f.rows, now);
  }

  /** The fixture batch with its `email` column dropped is rejected for the missing column. */
  lemma FixtureWithoutEmailRejected(hired: int, now: int)
    ensures var f := Frame(FixtureColumns[..3] + FixtureColumns[4..], [FixtureRecord(hired) - {"email"}]);
      var issues := Issues(RequiredFieldNames(), f, now);
      |issues| == 1 && issues[0].MissingColumns? && "email" in issues[0].columns
  {
    var columns := FixtureColumns[..3] + FixtureColumns[4..];
    assert columns == ["employee_id", "first_name", "last_name", "department", "position", "hire_date", "data_source"];
    RequiredFieldNamesAre();
    MissingRequiredColumnReported(Frame(columns, [FixtureRecord(hired) - {"email"}]), "email", now);
  }

  /** When the columns are all there and the first record's e-mail is a text the pattern refuses,
      the first issue is that record's, and its text carries the validator's e-mail message. */
  lemma BadEmailReportedFirst(f: Frame, now: int)
    requires !IsEmpty(f) && MissingFrom(RequiredFieldNames(), f.columns) == []
    requires Cell(f.rows[0], "email").Str? && !IsValidEmail(Cell(f.rows[0], "email").s)
    ensures var issues := Issues(RequiredFieldNames(), f, now);
      issues != [] && issues[0] == RowInvalid(1, RowErrors(f.columns, f.rows[0], now)) &&
      Contains(Render(issues[0]), BadEmailMessage)
  {
    RequiredFieldNamesAre();
    assert "email" in RequiredFieldNames();
    var es := RowErrors(f.columns, f.rows[0], now);
    BadEmailInRowErrors(f.columns, f.rows[0], now);
    var errs := RowErrorLists(f.columns, f.rows, now);
    RowErrorListsAt(f.columns, f.rows, now);
    FirstRowIssue(errs);
    assert Issues(RequiredFieldNames(), f, now) == RowIssues(errs) + DuplicateIssue(f.columns, f.rows);
    BadEmailIsRendered(1, es);
  }

  /** A record whose e-mail is a text the pattern refuses carries the e-mail error. */
  lemma BadEmailInRowErrors(columns: seq<string>, row: Row, now: int)
    requires "email" in columns && Cell(row, "email").Str? && !IsValidEmail(Cell(row, "email").s)
    ensures FieldError("email", BadEmail) in RowErrors(columns, row, now)
  {
    var bad := FieldError("email", BadEmail);
    assert FieldErrors(EmailField, columns, row, now) == [bad];
    SpecErrorsContains(EmployeeFields, EmailField, columns, row, now);
    var fromSpecs := SpecErrors(EmployeeFields, columns, row, now);
    assert bad in fromSpecs;
    assert RowErrors(columns, row, now) == fromSpecs + ExtraErrors(columns);
  }

  /** When the first record fails, its issue comes first. */
  lemma FirstRowIssue(errs: seq<seq<FieldError>>)
    requires |errs| > 0 && errs[0] != []
    ensures RowIssues(errs) != [] && RowIssues(errs)[0] == RowInvalid(1, errs[0])
  {
    var ri := RowIssues(errs);
    RowIssuesComplete(errs);
    RowIssuesSound(errs);
    RowIssuesOrdered(errs);
    var k :| 0 <= k < |ri| && ri[k] == RowInvalid(1, errs[0]);
    if k > 0 {
      assert false;
    }
  }

  /** The fixture batch with its e-mail replaced by `invalid-email` fails on that e-mail first. */
  lemma FixtureInvalidEmailRejected(f: Frame, hired: int, now: int)
    requires f == Frame(FixtureColumns, [FixtureRecord(hired)["email" := Str("invalid-email")]])
    ensures var issues := Issues(RequiredFieldNames(), f, now);
      issues != [] && issues[0].RowInvalid? && Contains(Render(issues[0]), BadEmailMessage)
  {
    NoAtIsInvalid("invalid-email");
    FixtureColumnsAreRequired();
    MissingFromCovered(f.columns, f.columns);
    BadEmailReportedFirst(f, now);
  }

  /** The fixture batch with `first_name` set to None fails on that record first, with the type
      error pydantic gives a required text field holding None. */
  lemma FixtureNullFirstNameRejected(f: Frame, hired: int, now: int)
    requires f == Frame(FixtureColumns, [FixtureRecord(hired)["first_name" := Null]])
    ensures var issues := Issues(RequiredFieldNames(), f, now);
      issues != [] && issues[0].RowInvalid? && issues[0].line == 1 &&
      FieldError("first_name", WrongType(Text)) in issues[0].errors
  {
    FixtureColumnsAreRequired();
    MissingFromCovered(f.columns, f.columns);
    NullRequiredFieldReported(FirstNameField, f.columns, f.rows[0], now);
    var errs := RowErrorLists(f.columns, f.rows, now);
    RowErrorListsAt(f.columns, f.rows, now);
    FirstRowIssue(errs);
    assert Issues(RequiredFieldNames(), f, now) == RowIssues(errs) + DuplicateIssue(f.columns, f.rows);
  }

  /** The fixture has exactly the required columns, in declaration order. */
  lemma FixtureColumnsAreRequired()
    ensures RequiredFieldNames() == FixtureColumns
  {
    RequiredFieldNamesAre();
  }

  /** No name is missing when every one is among the columns. */
  lemma {:induction false} MissingFromCovered(required: seq<string>, columns: seq<string>)
    requires forall k :: 0 <= k < |required| ==> required[k] in columns
    ensures MissingFrom(required, columns) == []
  {
    if required != [] {
      MissingFromCovered(required[..|required| - 1], columns);
    }
  }
}
