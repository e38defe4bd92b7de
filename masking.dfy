/** `DataMasker`: tokenizes the sensitive columns of a batch before it is stored in the processed area. */
module Masking {
  import opened Wrappers
  import opened Frames
  import opened EmailPattern
  import opened Schema
  import opened Validator

  predicate IsLowerHex(c: char) {
    '0' <= c <= '9' || 'a' <= c <= 'f'
  }

  predicate IsUpperHex(c: char) {
    '0' <= c <= '9' || 'A' <= c <= 'F'
  }

  /** What `hashlib.sha256(...).hexdigest()` returns: 64 lower-case hexadecimal digits. */
  type HexDigest = s: string | |s| == 64 && forall k :: 0 <= k < |s| ==> IsLowerHex(s[k])
    witness seq(64, k => '0')

  const DefaultSalt := "etl_pipeline_salt"
  const TokenPrefix := "TOKEN_"
  const PhoneMask := "***-***-"

  /** The columns masked, in the order `sensitive_fields` lists them. */
  const SensitiveFields := ["ssn", "salary", "email", "phone", "street_address"]

  const MaskedAtColumn := "masked_at"
  const IsMaskedColumn := "is_masked"

  /** A token: the prefix followed by eight upper-case hexadecimal digits. */
  predicate IsToken(t: string) {
    |t| == 14 && t[..6] == TokenPrefix && forall k :: 6 <= k < 14 ==> IsUpperHex(t[k])
  }

  function UpperChar(c: char): char {
    if 'a' <= c <= 'z' then (c as int - 32) as char else c
  }

  /** `str.upper()` on ASCII text. */
  function Upper(s: string): (u: string)
    ensures |u| == |s|
    ensures forall k :: 0 <= k < |s| ==> u[k] == UpperChar(s[k])
    ensures (forall k :: 0 <= k < |s| ==> IsLowerHex(s[k])) ==> forall k :: 0 <= k < |u| ==> IsUpperHex(u[k])
  {
    seq(|s|, k requires 0 <= k < |s| => UpperChar(s[k]))
  }

  /** `re.sub(r'\D', '', s)`: the decimal digits of `s`, in order. */
  function Digits(s: string): (d: string)
    ensures AllDigits(d) && |d| <= |s|
  {
    if s == [] then []
    else Digits(s[..|s| - 1]) + (if IsDigit(s[|s| - 1]) then [s[|s| - 1]] else [])
  }

  lemma {:induction false} DigitsAppend(a: string, b: string)
    ensures Digits(a + b) == Digits(a) + Digits(b)
  {
    if b == [] {
      assert a + b == a;
    } else {
      DigitsAppend(a, b[..|b| - 1]);
      assert (a + b)[..|a + b| - 1] == a + b[..|b| - 1];
    }
  }

  lemma {:induction false} DigitsOfDigits(s: string)
    requires AllDigits(s)
    ensures Digits(s) == s
  {
    if s != [] {
      DigitsOfDigits(s[..|s| - 1]);
    }
  }

  lemma {:induction false} NoDigits(s: string)
    requires forall k :: 0 <= k < |s| ==> !IsDigit(s[k])
    ensures Digits(s) == []
  {
    if s != [] {
      NoDigits(s[..|s| - 1]);
    }
  }

  /** The local part and the domain of an address, split at its first `@` (`email.split('@', 1)`). */
  function SplitAtFirst(s: string): (parts: (string, string))
    requires '@' in s
    ensures s == parts.0 + "@" + parts.1
    ensures '@' !in parts.0
  {
    var i := FirstIndex(s, '@').value;
    assert s == s[..i] + "@" + s[i + 1..];
    (s[..i], s[i + 1..])
  }

  /** Any split of `s` at an `@` with no `@` before it is the first-`@` split. */
  lemma SplitAtFirstUnique(s: string, local: string, domain: string)
    requires s == local + "@" + domain && '@' !in local
    ensures '@' in s && SplitAtFirst(s) == (local, domain)
  {
    assert s[|local|] == '@';
    var i := FirstIndex(s, '@').value;
    assert s[..i] == local;
    assert s[i + 1..] == domain;
  }

  /** `DataMasker(salt)`. The SHA-256 function is a parameter of the model: only the shape of its
      hexadecimal digest matters here. */
  datatype DataMasker = DataMasker(salt: string, hash: string -> HexDigest) {

    /** `f"{self.salt}_{field_name}_{str(value)}"`. */
    function HashInput(field: string, text: string): string {
      salt + "_" + field + "_" + text
    }

    /** `f"TOKEN_{hash_value[:8].upper()}"`. */
    function Token(field: string, text: string): (t: string)
      ensures IsToken(t)
    {
      var h := hash(HashInput(field, text));
      assert forall k :: 0 <= k < 8 ==> IsLowerHex(h[k]);
      TokenPrefix + Upper(h[..8])
    }

    /** `_tokenize_field(value, field_name)`. */
    function TokenizeField(v: Value, field: string): (r: Value)
      ensures v.Null? || v == Str("") ==> r == v
      ensures !(v.Null? || v == Str("")) ==> r.Str? && IsToken(r.s)
    {
      if v.Null? || v == Str("") then v else Str(Token(field, Show(v)))
    }

    /** The local part as `_mask_email` rewrites it: an empty part stays empty. */
    function MaskLocal(local: string): (t: string)
      ensures local == "" ==> t == ""
      ensures local != "" ==> t == Token("email", local) && IsToken(t)
    {
      TokenizeField(Str(local), "email").s
    }

    /** `_mask_email(email)`. `'@' not in email` raises a `TypeError` on a value that is neither
        missing nor a string. */
    function MaskEmail(v: Value): (r: Result<Value>)
      ensures r.Err? <==> !(v.Null? || v.Str?)
      ensures v.Null? || (v.Str? && '@' !in v.s) ==> r == Ok(v)
      ensures v.Str? && '@' in v.s ==> r.Ok? && r.value.Str? && '@' in r.value.s
    {
      match v
      case Null => Ok(v)
      case Str(s) =>
        if s == "" || '@' !in s then Ok(v)
        else
          var (local, domain) := SplitAtFirst(s);
          Ok(Str(MaskLocal(local) + "@" + domain))
      case _ => Err("TypeError: argument is not iterable")
    }

    /** `_mask_phone(phone)`. */
    function MaskPhone(v: Value): (r: Value)
      ensures v.Null? || v == Str("") ==> r == v
    {
      if v.Null? || v == Str("") then v
      else
        var digits := Digits(Show(v));
        if |digits| >= 10 then Str(PhoneMask + digits[|digits| - 4..])
        else TokenizeField(v, "phone")
    }

    /** The masking function `sensitive_fields` assigns to `field`. */
    function MaskValue(field: string, v: Value): (r: Result<Value>)
      requires field in SensitiveFields
      ensures r.Err? ==> field == "email"
      ensures field == "ssn" || field == "salary" ==> r == Ok(TokenizeField(v, field))
      ensures field == "street_address" ==> r == Ok(TokenizeField(v, "address"))
      ensures field == "email" ==> r == MaskEmail(v)
      ensures field == "phone" ==> r == Ok(MaskPhone(v))
    {
      if field == "ssn" then Ok(TokenizeField(v, "ssn"))
      else if field == "salary" then Ok(TokenizeField(v, "salary"))
      else if field == "email" then MaskEmail(v)
      else if field == "phone" then Ok(MaskPhone(v))
      else Ok(TokenizeField(v, "address"))
    }

    /** `df_masked[field].apply(mask_func)` assigned back to the column; the first value that
        raises ends the call. */
    function MaskColumn(rows: seq<Row>, field: string): (r: Result<seq<Row>>)
      requires field in SensitiveFields
      ensures r.Err? <==> exists p :: 0 <= p < |rows| && MaskValue(field, Cell(rows[p], field)).Err?
      ensures r.Ok? ==> (|r.value| == |rows| &&
        forall p :: 0 <= p < |rows| ==> r.value[p] == rows[p][field := MaskValue(field, Cell(rows[p], field)).value])
    {
      if rows == [] then Ok([])
      else
        var init := rows[..|rows| - 1];
        var last := rows[|rows| - 1];
        match MaskColumn(init, field)
        case Err(e) => Err(e)
        case Ok(done) =>
          match MaskValue(field, Cell(last, field))
          case Err(e) => Err(e)
          case Ok(m) =>
            assert forall p :: 0 <= p < |init| ==> rows[p] == init[p];
            Ok(done + [last[field := m]])
    }

    /** The loop over `sensitive_fields.items()`: every listed field the batch has is masked. */
    function MaskFields(fields: seq<string>, columns: seq<string>, rows: seq<Row>): Result<seq<Row>>
      requires forall k :: 0 <= k < |fields| ==> fields[k] in SensitiveFields
    {
      if fields == [] then Ok(rows)
      else
        var last := fields[|fields| - 1];
        match MaskFields(fields[..|fields| - 1], columns, rows)
        case Err(e) => Err(e)
        case Ok(done) => if last in columns then MaskColumn(done, last) else Ok(done)
    }

    /** `mask_sensitive_data(df)`: an empty batch comes back as it is; otherwise a masked copy
        stamped with `masked_at` and `is_masked` on every row. */
    function MaskFrame(f: Frame, now: int): Result<Frame> {
      if IsEmpty(f) then Ok(f)
      else
        match MaskFields(SensitiveFields, f.columns, f.rows)
        case Err(e) => Err(e)
        case Ok(rows) => Ok(Frame(WithMetadata(f.columns), Stamp(rows, now)))
    }

    /** `mask_sensitive_data(df)`, column by column on a copy of the batch. */
    method MaskSensitiveData(f: Frame, now: int) returns (r: Result<Frame>)
      ensures r == MaskFrame(f, now)
      ensures IsEmpty(f) ==> r == Ok(f)
    {
      if IsEmpty(f) {
        return Ok(f);
      }
      var rows := f.rows;
      var i := 0;
      while i < |SensitiveFields|
        invariant 0 <= i <= |SensitiveFields|
        invariant MaskFields(SensitiveFields[..i], f.columns, f.rows) == Ok(rows)
      {
        var field := SensitiveFields[i];
        assert SensitiveFields[..i + 1][..i] == SensitiveFields[..i];
        if field in f.columns {
          var masked := MaskColumn(rows, field);
          if masked.Err? {
            MaskFieldsErrorSticks(SensitiveFields, i + 1, f.columns, f.rows);
            return Err(masked.msg);
          }
          rows := masked.value;
        }
        i := i + 1;
      }
      assert SensitiveFields[..i] == SensitiveFields;
      rows := Stamp(rows, now);
      return Ok(Frame(WithMetadata(f.columns), rows));
    }

    /** An error in one field ends the loop: no later field changes it. */
    lemma {:induction false} MaskFieldsErrorSticks(fields: seq<string>, n: nat, columns: seq<string>, rows: seq<Row>)
      requires forall k :: 0 <= k < |fields| ==> fields[k] in SensitiveFields
      requires n <= |fields| && MaskFields(fields[..n], columns, rows).Err?
      ensures MaskFields(fields, columns, rows) == MaskFields(fields[..n], columns, rows)
    {
      if n < |fields| {
        var init := fields[..|fields| - 1];
        assert init[..n] == fields[..n];
        MaskFieldsErrorSticks(init, n, columns, rows);
      } else {
        assert fields[..n] == fields;
      }
    }
  }

  /** The columns after `df_masked['masked_at'] = ...` and `df_masked['is_masked'] = True`:
      a new label is appended, an existing one keeps its place. */
  function WithMetadata(columns: seq<string>): (cs: seq<string>)
    ensures forall c :: c in cs <==> c in columns || c == MaskedAtColumn || c == IsMaskedColumn
  {
    AddColumn(AddColumn(columns, MaskedAtColumn), IsMaskedColumn)
  }

  function AddColumn(columns: seq<string>, c: string): (cs: seq<string>)
    ensures forall d :: d in cs <==> d in columns || d == c
    ensures columns <= cs
  {
    if c in columns then columns else columns + [c]
  }

  /** Every record gets the one timestamp and the flag. */
  function Stamp(rows: seq<Row>, now: int): (stamped: seq<Row>)
    ensures |stamped| == |rows|
  {
    seq(|rows|, p requires 0 <= p < |rows| => rows[p][MaskedAtColumn := Time(now)][IsMaskedColumn := Bool(true)])
  }

  // ----- properties of the masker -----

  /** Two tokens are equal exactly when the first eight digits of their hashes are; equal inputs
      give equal tokens. */
  lemma TokenCollision(m: DataMasker, f1: string, t1: string, f2: string, t2: string)
    ensures m.Token(f1, t1) == m.Token(f2, t2) <==>
      m.hash(m.HashInput(f1, t1))[..8] == m.hash(m.HashInput(f2, t2))[..8]
  {
    var h1 := m.hash(m.HashInput(f1, t1));
    var h2 := m.hash(m.HashInput(f2, t2));
    if m.Token(f1, t1) == m.Token(f2, t2) {
      forall k | 0 <= k < 8 ensures h1[k] == h2[k] {
        assert m.Token(f1, t1)[6 + k] == m.Token(f2, t2)[6 + k];
        assert IsLowerHex(h1[k]) && IsLowerHex(h2[k]);
      }
      assert h1[..8] == h2[..8];
    }
  }

  /** Every character of a token may stand in the local part of an address, and none is `@`. */
  lemma TokenIsLocalText(t: string)
    requires IsToken(t)
    ensures AllLocal(t) && '@' !in t && |t| > 0
  {
    assert t[..6] == "TOKEN_";
    forall k | 0 <= k < |t| ensures IsLocalChar(t[k]) {
      if k < 6 {
        assert t[k] == t[..6][k];
      }
    }
  }

  /** An address keeps its domain: the part after its first `@` is the same after masking, and
      the local part becomes its `email` token (or stays empty). */
  lemma EmailKeepsDomain(m: DataMasker, s: string)
    requires '@' in s
    ensures var masked := m.MaskEmail(Str(s)).value.s;
      '@' in masked && SplitAtFirst(masked).1 == SplitAtFirst(s).1 &&
      (SplitAtFirst(s).0 == "" ==> SplitAtFirst(masked).0 == "") &&
      (SplitAtFirst(s).0 != "" ==>
        SplitAtFirst(masked).0 == m.Token("email", SplitAtFirst(s).0) && IsToken(SplitAtFirst(masked).0))
  {
    var (local, domain) := SplitAtFirst(s);
    var t := m.MaskLocal(local);
    if local != "" {
      TokenIsLocalText(t);
    }
    SplitAtFirstUnique(t + "@" + domain, t, domain);
  }

  /** A well-formed address is still well-formed after masking: the token is a valid local part. */
  lemma MaskedEmailStaysValid(m: DataMasker, s: string)
    requires IsValidEmail(s)
    ensures m.MaskEmail(Str(s)).Ok? && m.MaskEmail(Str(s)).value.Str?
    ensures IsValidEmail(m.MaskEmail(Str(s)).value.s)
  {
    MatchHasNonEmptyLocalPart(s);
    var (local, domain) := SplitAtFirst(s);
    var masked := m.MaskLocal(local) + "@" + domain;
    assert m.MaskEmail(Str(s)) == Ok(Str(masked));
    if WholeMatch(s) {
      MaskedWholeMatch(m, s);
    } else {
      MaskedNewlineMatch(m, s);
    }
  }

  lemma MaskedWholeMatch(m: DataMasker, s: string)
    requires WholeMatch(s)
    ensures '@' in s && WholeMatch(m.MaskLocal(SplitAtFirst(s).0) + "@" + SplitAtFirst(s).1)
  {
    MatchHasNonEmptyLocalPart(s);
    var (local, domain) := SplitAtFirst(s);
    SplitAtFirstUnique(s, local, domain);
    var t := m.MaskLocal(local);
    TokenIsLocalText(t);
    ReplaceLocalPart(s, t);
  }

  lemma MaskedNewlineMatch(m: DataMasker, s: string)
    requires |s| > 0 && s[|s| - 1] == '\n' && WholeMatch(s[..|s| - 1])
    ensures '@' in s && PatternMatches(m.MaskLocal(SplitAtFirst(s).0) + "@" + SplitAtFirst(s).1)
  {
    var u := s[..|s| - 1];
    MaskedWholeMatch(m, u);
    var (lu, du) := SplitAtFirst(u);
    NewlineSplit(s, lu, du);
    var w := m.MaskLocal(lu) + "@" + du;
    NewlineExtends(w);
    NewlineRegroups(m.MaskLocal(lu), du);
  }

  lemma NewlineRegroups(local: string, rest: string)
    ensures local + "@" + (rest + "\n") == local + "@" + rest + "\n"
  {
  }

  lemma NewlineSplit(s: string, lu: string, du: string)
    requires |s| > 0 && s[|s| - 1] == '\n' && s[..|s| - 1] == lu + "@" + du && '@' !in lu
    ensures '@' in s && SplitAtFirst(s) == (lu, du + "\n")
  {
    assert s == lu + "@" + (du + "\n");
    SplitAtFirstUnique(s, lu, du + "\n");
  }

  lemma NewlineExtends(w: string)
    requires WholeMatch(w)
    ensures PatternMatches(w + "\n")
  {
    assert (w + "\n")[..|w + "\n"| - 1] == w;
  }

  /** Putting any non-empty local text before the first `@` of a whole match keeps it a match. */
  lemma ReplaceLocalPart(s: string, t: string)
    requires WholeMatch(s) && AllLocal(t) && '@' !in t && |t| > 0
    ensures '@' in s && WholeMatch(t + "@" + SplitAtFirst(s).1)
  {
    var i: int, j: int :| SplitsAt(s, i, j);
    SplitAtFirstOfMatch(s, i, j);
    SplitsAtJoin(t, s[i + 1..j], s[j + 1..]);
  }

  /** In a whole match, the text after the first `@` is the domain, the `.` and the top-level part. */
  lemma SplitAtFirstOfMatch(s: string, i: int, j: int)
    requires SplitsAt(s, i, j)
    ensures '@' in s && SplitAtFirst(s).1 == s[i + 1..j] + "." + s[j + 1..]
  {
    SplitIsCanonical(s, i, j);
    assert s[i + 1..] == s[i + 1..j] + "." + s[j + 1..];
  }

  /** `ssn`, `salary` and `street_address` are tokenized: a value other than None and `''` becomes
      the token of its text under the field's own name, `address` for the street address. */
  lemma PlainFieldsTokenized(m: DataMasker, c: string, v: Value)
    requires c == "ssn" || c == "salary" || c == "street_address"
    requires !(v.Null? || v == Str(""))
    ensures c in SensitiveFields
    ensures m.MaskValue(c, v) == Ok(Str(m.Token(if c == "street_address" then "address" else c, Show(v))))
    ensures IsToken(m.MaskValue(c, v).value.s)
  {
  }

  /** A phone with at least ten digits keeps exactly its last four: they are the only digits of
      the masked text, after the fixed mask. */
  lemma PhoneKeepsLastFour(m: DataMasker, v: Value)
    requires !(v.Null? || v == Str("")) && |Digits(Show(v))| >= 10
    ensures var r := m.MaskPhone(v);
      var d := Digits(Show(v));
      r.Str? && |r.s| == 12 && r.s[..8] == PhoneMask && Digits(r.s) == d[|d| - 4..]
  {
    var d := Digits(Show(v));
    var tail := d[|d| - 4..];
    assert m.MaskPhone(v) == Str(PhoneMask + tail);
    MaskedDigits(tail);
  }

  lemma MaskedDigits(tail: string)
    requires AllDigits(tail)
    ensures Digits(PhoneMask + tail) == tail
  {
    NoDigits(PhoneMask);
    DigitsOfDigits(tail);
    DigitsAppend(PhoneMask, tail);
  }

  /** A phone with fewer than ten digits is tokenized as a whole, under the field name `phone`. */
  lemma ShortPhoneTokenized(m: DataMasker, v: Value)
    requires !(v.Null? || v == Str("")) && |Digits(Show(v))| < 10
    ensures m.MaskPhone(v) == Str(m.Token("phone", Show(v)))
    ensures IsToken(m.MaskPhone(v).s)
  {
  }

  /** Masking the whole batch fails exactly when it is not empty, has an `email` column and some
      record's e-mail is neither missing nor a string. */
  lemma MaskFrameFails(m: DataMasker, f: Frame, now: int)
    ensures m.MaskFrame(f, now).Err? <==>
      !IsEmpty(f) && "email" in f.columns &&
      exists p :: 0 <= p < |f.rows| && !(Cell(f.rows[p], "email").Null? || Cell(f.rows[p], "email").Str?)
  {
    if !IsEmpty(f) {
      MaskFieldsFail(m, SensitiveFields, f.columns, f.rows);
    }
  }

  /** The fields loop fails exactly when `email` is among the masked fields the batch has and
      some e-mail cannot be masked; the earlier fields leave the e-mails as they are. */
  lemma {:induction false} MaskFieldsFail(m: DataMasker, fields: seq<string>, columns: seq<string>, rows: seq<Row>)
    requires forall k :: 0 <= k < |fields| ==> fields[k] in SensitiveFields
    requires forall a, b :: 0 <= a < b < |fields| ==> fields[a] != fields[b]
    ensures m.MaskFields(fields, columns, rows).Err? <==>
      "email" in fields && "email" in columns &&
      exists p :: 0 <= p < |rows| && !(Cell(rows[p], "email").Null? || Cell(rows[p], "email").Str?)
  {
    if fields != [] {
      var init := fields[..|fields| - 1];
      var last := fields[|fields| - 1];
      MaskFieldsFail(m, init, columns, rows);
      MaskFieldsCells(m, init, columns, rows);
      match m.MaskFields(init, columns, rows)
      case Err(_) =>
        assert "email" in fields;
      case Ok(done) =>
        if last in columns {
          var r := m.MaskColumn(done, last);
          assert last !in init;
          if last == "email" {
            assert "email" !in init;
            forall p | 0 <= p < |rows| ensures Cell(done[p], "email") == Cell(rows[p], "email") {
            }
          } else {
            assert "email" in fields <==> "email" in init;
          }
        } else {
          assert "email" in fields <==> "email" in init || last == "email";
        }
    }
  }

  /** After the fields loop, a masked field the batch has holds its masked value, and every other
      cell is the input's. */
  lemma {:induction false} MaskFieldsCells(m: DataMasker, fields: seq<string>, columns: seq<string>, rows: seq<Row>)
    requires forall k :: 0 <= k < |fields| ==> fields[k] in SensitiveFields
    requires forall a, b :: 0 <= a < b < |fields| ==> fields[a] != fields[b]
    ensures m.MaskFields(fields, columns, rows).Ok? ==>
      var out := m.MaskFields(fields, columns, rows).value;
      |out| == |rows| &&
      (forall p, c :: 0 <= p < |rows| && c in fields && c in columns ==>
        m.MaskValue(c, Cell(rows[p], c)).Ok? && Cell(out[p], c) == m.MaskValue(c, Cell(rows[p], c)).value) &&
      (forall p, c :: 0 <= p < |rows| && !(c in fields && c in columns) ==> Cell(out[p], c) == Cell(rows[p], c))
  {
    if fields != [] {
      var init := fields[..|fields| - 1];
      var last := fields[|fields| - 1];
      MaskFieldsCells(m, init, columns, rows);
      assert forall c :: c in fields <==> c in init || c == last;
      assert last !in init;
      if m.MaskFields(fields, columns, rows).Ok? && last in columns {
        var done := m.MaskFields(init, columns, rows).value;
        var out := m.MaskColumn(done, last).value;
        assert m.MaskFields(fields, columns, rows).value == out;
        forall p, c | 0 <= p < |rows| && c != last ensures Cell(out[p], c) == Cell(done[p], c) {
          assert out[p] == done[p][last := m.MaskValue(last, Cell(done[p], last)).value];
        }
        forall p | 0 <= p < |rows| ensures Cell(done[p], last) == Cell(rows[p], last) {
        }
      }
    }
  }

  /** A non-empty batch that masks keeps its records and its columns (plus the metadata columns);
      each masked column the batch has holds its masked values, every record has the same
      `masked_at` and `is_masked = True`, and every other cell is as it was. */
  lemma MaskFrameShape(m: DataMasker, f: Frame, now: int)
    requires !IsEmpty(f) && m.MaskFrame(f, now).Ok?
    ensures var g := m.MaskFrame(f, now).value;
      |g.rows| == |f.rows| && g.columns == WithMetadata(f.columns) &&
      forall p :: 0 <= p < |f.rows| ==>
        Cell(g.rows[p], MaskedAtColumn) == Time(now) && Cell(g.rows[p], IsMaskedColumn) == Bool(true)
    ensures var g := m.MaskFrame(f, now).value;
      forall p, c :: 0 <= p < |f.rows| && c in SensitiveFields && c in f.columns ==>
        m.MaskValue(c, Cell(f.rows[p], c)).Ok? && Cell(g.rows[p], c) == m.MaskValue(c, Cell(f.rows[p], c)).value
    ensures var g := m.MaskFrame(f, now).value;
      forall p, c ::
        (0 <= p < |f.rows| && !(c in SensitiveFields && c in f.columns) && c != MaskedAtColumn && c != IsMaskedColumn)
        ==> Cell(g.rows[p], c) == Cell(f.rows[p], c)
  {
    assert forall a, b :: 0 <= a < b < |SensitiveFields| ==> SensitiveFields[a] != SensitiveFields[b];
    MaskFieldsCells(m, SensitiveFields, f.columns, f.rows);
  }

  /** A batch the validator accepts can always be masked. */
  lemma ValidBatchMasks(m: DataMasker, f: Frame, validatedAt: int, now: int)
    requires SchemaValid(f, validatedAt)
    ensures m.MaskFrame(f, now).Ok?
    ensures |m.MaskFrame(f, now).value.rows| == |f.rows|
  {
    MaskFrameFails(m, f, now);
    forall p | 0 <= p < |f.rows| ensures Cell(f.rows[p], "email").Str? {
      assert RowOk(f.columns, f.rows[p], validatedAt);
      assert NamesOk(f.columns, f.rows[p]);
    }
    MaskFrameShape(m, f, now);
  }
}
