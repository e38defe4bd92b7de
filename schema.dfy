/** The `EmployeeModel` record schema and what `EmployeeModel.model_validate(record.to_dict())`
    reports about one record. */
module Schema {
  import opened Frames
  import opened EmailPattern

  /** The Python type a field is declared with: `str`, `datetime` or `float`. */
  datatype Kind = Text | DateTime | Number

  /** The constraint a field carries beyond its type. */
  datatype Constraint =
    | Unconstrained
    | Length(min: nat, max: nat)   // Field(min_length=…, max_length=…)
    | NonNegative                  // Field(ge=0)
    | EmailFormat                  // validate_email
    | NotInFuture                  // validate_hire_date

  /** One declared field: a required field has no default; an optional one defaults to None. */
  datatype FieldSpec = FieldSpec(name: string, kind: Kind, required: bool, constraint: Constraint)

  const EmployeeIdField := FieldSpec("employee_id", Text, true, Length(6, 10))
  const FirstNameField := FieldSpec("first_name", Text, true, Length(2, 50))
  const LastNameField := FieldSpec("last_name", Text, true, Length(1, 50))
  const EmailField := FieldSpec("email", Text, true, EmailFormat)
  const DepartmentField := FieldSpec("department", Text, true, Unconstrained)
  const PositionField := FieldSpec("position", Text, true, Unconstrained)
  const HireDateField := FieldSpec("hire_date", DateTime, true, NotInFuture)
  const DataSourceField := FieldSpec("data_source", Text, true, Unconstrained)
  const PhoneField := FieldSpec("phone", Text, false, Unconstrained)
  const SsnField := FieldSpec("ssn", Text, false, Unconstrained)
  const SalaryField := FieldSpec("salary", Number, false, NonNegative)
  const StreetAddressField := FieldSpec("street_address", Text, false, Unconstrained)
  const CityField := FieldSpec("city", Text, false, Unconstrained)
  const StateField := FieldSpec("state", Text, false, Unconstrained)
  const ZipCodeField := FieldSpec("zip_code", Text, false, Unconstrained)
  const ManagerIdField := FieldSpec("manager_id", Text, false, Unconstrained)
  const PerformanceRatingField := FieldSpec("performance_rating", Text, false, Unconstrained)

  /** `EmployeeModel.model_fields`, in declaration order. */
  const EmployeeFields: seq<FieldSpec> := [
    EmployeeIdField, FirstNameField, LastNameField, EmailField, DepartmentField, PositionField,
    HireDateField, DataSourceField, PhoneField, SsnField, SalaryField, StreetAddressField,
    CityField, StateField, ZipCodeField, ManagerIdField, PerformanceRatingField
  ]

  /** The names of the declared fields; `extra='forbid'` refuses every other key. */
  const ModelFieldNames: set<string> := {
    "employee_id", "first_name", "last_name", "email", "department", "position", "hire_date",
    "data_source", "phone", "ssn", "salary", "street_address", "city", "state", "zip_code",
    "manager_id", "performance_rating"
  }

  /** The names of the required fields, in declaration order. */
  function RequiredNames(specs: seq<FieldSpec>): seq<string> {
    if specs == [] then []
    else (if specs[0].required then [specs[0].name] else []) + RequiredNames(specs[1..])
  }

  /** `DataValidator.required_fields`: the fields `is_required()` selects. */
  function RequiredFieldNames(): seq<string> {
    RequiredNames(EmployeeFields)
  }

  lemma RequiredFieldNamesAre()
    ensures RequiredFieldNames() ==
      ["employee_id", "first_name", "last_name", "email", "department", "position", "hire_date", "data_source"]
  {
    var head := [EmployeeIdField, FirstNameField, LastNameField, EmailField, DepartmentField, PositionField,
      HireDateField, DataSourceField];
    var tail := [PhoneField, SsnField, SalaryField, StreetAddressField, CityField, StateField, ZipCodeField,
      ManagerIdField, PerformanceRatingField];
    assert EmployeeFields == head + tail;
    RequiredNamesAppend(head, tail);
    NoneRequired(tail);
    AllRequired(head);
  }

  lemma {:induction false} AllRequired(specs: seq<FieldSpec>)
    requires forall k :: 0 <= k < |specs| ==> specs[k].required
    ensures |RequiredNames(specs)| == |specs|
    ensures forall k :: 0 <= k < |specs| ==> RequiredNames(specs)[k] == specs[k].name
  {
    if specs != [] {
      AllRequired(specs[1..]);
    }
  }

  lemma {:induction false} RequiredNamesAppend(a: seq<FieldSpec>, b: seq<FieldSpec>)
    ensures RequiredNames(a + b) == RequiredNames(a) + RequiredNames(b)
  {
    if a == [] {
      assert a + b == b;
    } else {
      RequiredNamesAppend(a[1..], b);
      assert (a + b)[0] == a[0];
      assert (a + b)[1..] == a[1..] + b;
      var x := if a[0].required then [a[0].name] else [];
      assert RequiredNames(a + b) == x + (RequiredNames(a[1..]) + RequiredNames(b));
      assert x + (RequiredNames(a[1..]) + RequiredNames(b)) == (x + RequiredNames(a[1..])) + RequiredNames(b);
    }
  }

  lemma {:induction false} NoneRequired(specs: seq<FieldSpec>)
    requires forall k :: 0 <= k < |specs| ==> !specs[k].required
    ensures RequiredNames(specs) == []
  {
    if specs != [] {
      NoneRequired(specs[1..]);
    }
  }

  /** What pydantic reports about one field. */
  datatype ErrorKind =
    | Missing
    | WrongType(expected: Kind)
    | TooShort(min: nat)
    | TooLong(max: nat)
    | Negative
    | BadEmail
    | FutureDate
    | Forbidden

  datatype FieldError = FieldError(loc: string, kind: ErrorKind)

  predicate HasKind(v: Value, k: Kind) {
    match k
    case Text => v.Str?
    case DateTime => v.Time?
    case Number => v.Num?
  }

  /** The constraint check pydantic runs on a value of the right type. */
  function ConstraintErrors(name: string, c: Constraint, v: Value, now: int): seq<FieldError> {
    match c
    case Unconstrained => []
    case Length(lo, hi) =>
      if v.Str? && |v.s| < lo then [FieldError(name, TooShort(lo))]
      else if v.Str? && |v.s| > hi then [FieldError(name, TooLong(hi))]
      else []
    case NonNegative => if v.Num? && v.n < 0 then [FieldError(name, Negative)] else []
    case EmailFormat => if v.Str? && !IsValidEmail(v.s) then [FieldError(name, BadEmail)] else []
    case NotInFuture => if v.Time? && v.t > now then [FieldError(name, FutureDate)] else []
  }

  /** The errors of one declared field of a record whose keys are `columns`. A key that is absent
      is missing when required and takes its default otherwise; None is accepted only by an
      optional field and fails a required one as a type error. */
  function FieldErrors(spec: FieldSpec, columns: seq<string>, row: Row, now: int): seq<FieldError> {
    if spec.name !in columns then
      if spec.required then [FieldError(spec.name, Missing)] else []
    else
      var v := Cell(row, spec.name);
      if v.Null? && !spec.required then []
      else if !HasKind(v, spec.kind) then [FieldError(spec.name, WrongType(spec.kind))]
      else ConstraintErrors(spec.name, spec.constraint, v, now)
  }

  function SpecErrors(specs: seq<FieldSpec>, columns: seq<string>, row: Row, now: int): seq<FieldError> {
    if specs == [] then [] else FieldErrors(specs[0], columns, row, now) + SpecErrors(specs[1..], columns, row, now)
  }

  /** One `extra_forbidden` error per key outside the model, in column order. */
  function ExtraErrors(columns: seq<string>): seq<FieldError> {
    if columns == [] then []
    else (if columns[0] in ModelFieldNames then [] else [FieldError(columns[0], Forbidden)]) + ExtraErrors(columns[1..])
  }

  /** Every error `model_validate` collects for the record, all fields checked, none skipped. */
  function RowErrors(columns: seq<string>, row: Row, now: int): seq<FieldError> {
    SpecErrors(EmployeeFields, columns, row, now) + ExtraErrors(columns)
  }

  // Reference statement of a valid record, field by field.

  predicate TextWithin(columns: seq<string>, row: Row, name: string, lo: nat, hi: nat) {
    name in columns && Cell(row, name).Str? && lo <= |Cell(row, name).s| <= hi
  }

  predicate TextPresent(columns: seq<string>, row: Row, name: string) {
    name in columns && Cell(row, name).Str?
  }

  predicate TextOrNone(columns: seq<string>, row: Row, name: string) {
    name !in columns || Cell(row, name).Null? || Cell(row, name).Str?
  }

  /** A record `EmployeeModel` accepts: the required fields are present, not None and of their
      type; the three names have their lengths; the e-mail matches the pattern; the hire date is
      not after `now`; the salary is absent, None or non-negative; every optional text is absent,
      None or a string; and no key lies outside the model. */
  ghost predicate RowOk(columns: seq<string>, row: Row, now: int) {
    NamesOk(columns, row) && OthersOk(columns, row, now) &&
    forall c :: c in columns ==> c in ModelFieldNames
  }

  /** The length-constrained names and the e-mail. */
  ghost predicate NamesOk(columns: seq<string>, row: Row) {
    TextWithin(columns, row, "employee_id", 6, 10) &&
    TextWithin(columns, row, "first_name", 2, 50) &&
    TextWithin(columns, row, "last_name", 1, 50) &&
    TextPresent(columns, row, "email") && PatternMatches(Cell(row, "email").s)
  }

  /** The other declared fields. */
  predicate OthersOk(columns: seq<string>, row: Row, now: int) {
    TextPresent(columns, row, "department") &&
    TextPresent(columns, row, "position") &&
    "hire_date" in columns && Cell(row, "hire_date").Time? && Cell(row, "hire_date").t <= now &&
    TextPresent(columns, row, "data_source") &&
    TextOrNone(columns, row, "phone") &&
    TextOrNone(columns, row, "ssn") &&
    ("salary" !in columns || Cell(row, "salary").Null? ||
      (Cell(row, "salary").Num? && Cell(row, "salary").n >= 0)) &&
    TextOrNone(columns, row, "street_address") &&
    TextOrNone(columns, row, "city") &&
    TextOrNone(columns, row, "state") &&
    TextOrNone(columns, row, "zip_code") &&
    TextOrNone(columns, row, "manager_id") &&
    TextOrNone(columns, row, "performance_rating")
  }

  lemma {:induction false} SpecErrorsEmpty(specs: seq<FieldSpec>, columns: seq<string>, row: Row, now: int)
    ensures SpecErrors(specs, columns, row, now) == [] <==>
      forall k :: 0 <= k < |specs| ==> FieldErrors(specs[k], columns, row, now) == []
  {
    if specs != [] {
      SpecErrorsEmpty(specs[1..], columns, row, now);
      assert forall k :: 1 <= k < |specs| ==> specs[1..][k - 1] == specs[k];
    }
  }

  lemma {:induction false} ExtraErrorsEmpty(columns: seq<string>)
    ensures ExtraErrors(columns) == [] <==> forall c :: c in columns ==> c in ModelFieldNames
  {
    if columns != [] {
      ExtraErrorsEmpty(columns[1..]);
      assert forall c :: c in columns <==> c == columns[0] || c in columns[1..];
    }
  }

  /** The error list is empty exactly when the record satisfies the reference statement. */
  lemma RowErrorsEmptyIff(columns: seq<string>, row: Row, now: int)
    ensures RowErrors(columns, row, now) == [] <==> RowOk(columns, row, now)
  {
    SpecErrorsEmpty(EmployeeFields, columns, row, now);
    ExtraErrorsEmpty(columns);
    DeclaredFieldsOkIff(columns, row, now);
  }

  /** The declared fields are error-free exactly when the field-by-field statement holds. */
  lemma DeclaredFieldsOkIff(columns: seq<string>, row: Row, now: int)
    ensures (forall k :: 0 <= k < |EmployeeFields| ==> FieldErrors(EmployeeFields[k], columns, row, now) == []) <==>
      (NamesOk(columns, row) && OthersOk(columns, row, now))
  {
    var ok := (s: FieldSpec) => FieldErrors(s, columns, row, now) == [];
    ForallEmployeeFields(ok);
    NamesOkIff(columns, row, now);
    OthersOkIff(columns, row, now);
  }

  lemma ForallEmployeeFields(p: FieldSpec -> bool)
    ensures (forall k :: 0 <= k < |EmployeeFields| ==> p(EmployeeFields[k])) <==>
      p(EmployeeIdField) && p(FirstNameField) && p(LastNameField) && p(EmailField) &&
      p(DepartmentField) && p(PositionField) && p(HireDateField) && p(DataSourceField) &&
      p(PhoneField) && p(SsnField) && p(SalaryField) && p(StreetAddressField) && p(CityField) &&
      p(StateField) && p(ZipCodeField) && p(ManagerIdField) && p(PerformanceRatingField)
  {
    var e := EmployeeFields;
    if forall k :: 0 <= k < |e| ==> p(e[k]) {
      assert p(e[0]) && p(e[1]) && p(e[2]) && p(e[3]) && p(e[4]) && p(e[5]) && p(e[6]) && p(e[7]) && p(e[8]);
      assert p(e[9]) && p(e[10]) && p(e[11]) && p(e[12]) && p(e[13]) && p(e[14]) && p(e[15]) && p(e[16]);
    }
  }

  lemma NamesOkIff(columns: seq<string>, row: Row, now: int)
    ensures (FieldErrors(EmployeeIdField, columns, row, now) == [] &&
             FieldErrors(FirstNameField, columns, row, now) == [] &&
             FieldErrors(LastNameField, columns, row, now) == [] &&
             FieldErrors(EmailField, columns, row, now) == []) <==> NamesOk(columns, row)
  {
    LengthFieldOk(EmployeeIdField, columns, row, now);
    LengthFieldOk(FirstNameField, columns, row, now);
    LengthFieldOk(LastNameField, columns, row, now);
  }

  lemma OthersOkIff(columns: seq<string>, row: Row, now: int)
    ensures (FieldErrors(DepartmentField, columns, row, now) == [] &&
             FieldErrors(PositionField, columns, row, now) == [] &&
             FieldErrors(HireDateField, columns, row, now) == [] &&
             FieldErrors(DataSourceField, columns, row, now) == [] &&
             FieldErrors(PhoneField, columns, row, now) == [] &&
             FieldErrors(SsnField, columns, row, now) == [] &&
             FieldErrors(SalaryField, columns, row, now) == [] &&
             FieldErrors(StreetAddressField, columns, row, now) == [] &&
             FieldErrors(CityField, columns, row, now) == [] &&
             FieldErrors(StateField, columns, row, now) == [] &&
             FieldErrors(ZipCodeField, columns, row, now) == [] &&
             FieldErrors(ManagerIdField, columns, row, now) == [] &&
             FieldErrors(PerformanceRatingField, columns, row, now) == []) <==> OthersOk(columns, row, now)
  {
    RequiredTextOk(DepartmentField, columns, row, now);
    RequiredTextOk(PositionField, columns, row, now);
    RequiredTextOk(DataSourceField, columns, row, now);
    OptionalTextOk(PhoneField, columns, row, now);
    OptionalTextOk(SsnField, columns, row, now);
    OptionalTextOk(StreetAddressField, columns, row, now);
    OptionalTextOk(CityField, columns, row, now);
    OptionalTextOk(StateField, columns, row, now);
    OptionalTextOk(ZipCodeField, columns, row, now);
    OptionalTextOk(ManagerIdField, columns, row, now);
    OptionalTextOk(PerformanceRatingField, columns, row, now);
  }

  lemma LengthFieldOk(spec: FieldSpec, columns: seq<string>, row: Row, now: int)
    requires spec.kind == Text && spec.required && spec.constraint.Length?
    ensures FieldErrors(spec, columns, row, now) == [] <==>
      TextWithin(columns, row, spec.name, spec.constraint.min, spec.constraint.max)
  {
  }

  lemma RequiredTextOk(spec: FieldSpec, columns: seq<string>, row: Row, now: int)
    requires spec.kind == Text && spec.required && spec.constraint == Unconstrained
    ensures FieldErrors(spec, columns, row, now) == [] <==> TextPresent(columns, row, spec.name)
  {
  }

  lemma OptionalTextOk(spec: FieldSpec, columns: seq<string>, row: Row, now: int)
    requires spec.kind == Text && !spec.required && spec.constraint == Unconstrained
    ensures FieldErrors(spec, columns, row, now) == [] <==> TextOrNone(columns, row, spec.name)
  {
  }

  lemma {:induction false} SpecErrorsContains(specs: seq<FieldSpec>, s: FieldSpec, columns: seq<string>, row: Row, now: int)
    requires s in specs
    ensures forall e :: e in FieldErrors(s, columns, row, now) ==> e in SpecErrors(specs, columns, row, now)
  {
    if specs[0] != s {
      SpecErrorsContains(specs[1..], s, columns, row, now);
    }
  }

  /** A required field whose column is there but whose value is None fails its record, and the
      error names that field. */
  lemma NullRequiredFieldReported(spec: FieldSpec, columns: seq<string>, row: Row, now: int)
    requires spec in EmployeeFields && spec.required
    requires spec.name in columns && Cell(row, spec.name).Null?
    ensures FieldError(spec.name, WrongType(spec.kind)) in RowErrors(columns, row, now)
  {
    var e := FieldError(spec.name, WrongType(spec.kind));
    assert FieldErrors(spec, columns, row, now) == [e];
    SpecErrorsContains(EmployeeFields, spec, columns, row, now);
    var fromSpecs := SpecErrors(EmployeeFields, columns, row, now);
    assert e in fromSpecs;
    assert RowErrors(columns, row, now) == fromSpecs + ExtraErrors(columns);
  }
}
