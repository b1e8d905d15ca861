/** The request body of a contact message (`ContactMessageCreate`): the bounds of its fields, the
    full-name and phone validators, and the list view of a stored message. */
module ContactSchemas {
  import opened Wrappers
  import opened Seqs
  import opened Text
  import opened Records

  datatype ContactMessageCreate = ContactMessageCreate(
    fullName: string, email: string, phone: Option<string>, subject: string, message: string)

  const Subjects: seq<string> := ["general", "quote", "claim", "policy", "other"]

  const NameMessage: string := "Full name must include first and last name"
  const PhoneFormatMessage: string := "Phone must be in format XXX.XXX.XXXX"
  const PhoneLengthMessage: string := "Phone must be exactly 12 characters (XXX.XXX.XXXX)"

  /** `validate_full_name`: the stripped name, which must split into at least two words. */
  function ValidateFullName(v: string): (r: Outcome<string>)
    ensures r.Ok? <==> |Words(Py, Strip(Py, v))| >= 2
    ensures r.Ok? ==> r.value == Strip(Py, v)
    ensures r.Raise? ==> r.exc == ValueError(NameMessage)
  {
    var s := Strip(Py, v);
    if |Words(Py, s)| < 2 then Raise(ValueError(NameMessage)) else Ok(s)
  }

  /** A string that splits into two or more words has whitespace inside it. */
  lemma TwoWordsHaveSpace(s: string)
    requires |Words(Py, s)| >= 2
    ensures HasSpace(Py, s)
  {
    if !IsSpace(Py, s[0]) {
      var n := WordLen(Py, s);
      assert Words(Py, s) == [s[..n]] + Words(Py, s[n..]);
      assert n < |s|;
    }
  }

  /** An accepted name is stripped, and has a space between its first and last character. */
  lemma AcceptedNameShape(v: string)
    requires ValidateFullName(v).Ok?
    ensures var r := ValidateFullName(v).value;
      r != [] && !IsSpace(Py, r[0]) && !IsSpace(Py, r[|r| - 1]) && HasSpace(Py, r)
  {
    var r := Strip(Py, v);
    assert ValidateFullName(v).value == r && |Words(Py, r)| >= 2;
    TwoWordsHaveSpace(r);
  }

  /** Two words joined by one whitespace character are accepted unchanged. */
  lemma SeparatedWordsAccepted(a: string, sep: char, b: string)
    requires a != [] && b != [] && !HasSpace(Py, a) && !HasSpace(Py, b) && IsSpace(Py, sep)
    ensures ValidateFullName(a + [sep] + b) == Ok(a + [sep] + b)
  {
    var v := a + [sep] + b;
    assert v[0] == a[0] && v[|v| - 1] == b[|b| - 1];
    assert TrimStart(Py, v) == v;
    assert TrimEnd(Py, v) == v;
    WordsPrefix(Py, a, [sep] + b);
    assert v == a + ([sep] + b);
    assert ([sep] + b)[1..] == b;
    WordsPrefix(Py, b, []);
    assert b + [] == b;
  }

  /** The separator controls 0x1C to 0x1F are whitespace to Python's `split()` and `strip()`,
      though not to JavaScript's `trim()`, so "Ann" and "Lee" joined by a unit separator (0x1F)
      is a full name. */
  lemma SeparatorControlsAreSpace(c: char)
    requires 28 <= c as int <= 31
    ensures IsSpace(Py, c) && !IsSpace(Js, c)
  {
  }

  /** Python's `str.isdigit()`: non-empty and made of digits. */
  predicate IsDigitString(s: string) { s != [] && AllDigits(s) }

  /** `validate_phone`: None passes; otherwise the stripped value, which must be empty or a
      12-character string that is all digits once its dots are removed. */
  function ValidatePhone(v: Option<string>): (r: Outcome<Option<string>>)
    ensures v.None? ==> r == Ok(None)
    ensures r.Ok? && v.Some? ==> r.value == Some(Strip(Py, v.value))
    ensures r.Raise? ==> r.exc in {ValueError(PhoneFormatMessage), ValueError(PhoneLengthMessage)}
  {
    if v.None? then Ok(None)
    else
      var s := Strip(Py, v.value);
      if s != "" && !IsDigitString(WithoutDots(s)) then Raise(ValueError(PhoneFormatMessage))
      else if s != "" && |s| != 12 then Raise(ValueError(PhoneLengthMessage))
      else Ok(Some(s))
  }

  /** An accepted non-empty phone has twelve characters, each a digit or a dot, at least one of
      them a digit; the dots may sit anywhere, so twelve digits pass too. */
  lemma AcceptedPhoneShape(v: string)
    requires ValidatePhone(Some(v)).Ok?
    ensures var p := ValidatePhone(Some(v)).value.value;
      p == "" || (|p| == 12 && (forall i :: 0 <= i < |p| ==> IsDigit(p[i]) || p[i] == '.')
                  && exists i :: 0 <= i < |p| && IsDigit(p[i]))
  {
    var p := Strip(Py, v);
    WithoutDotsSpec(p);
    if p != "" {
      assert WithoutDots(p) != [];
      var i :| 0 <= i < |p| && p[i] != '.';
      assert IsDigit(p[i]);
    }
  }

  /** The phone validator refuses a non-empty value exactly when it is not twelve characters of
      digits and dots with at least one digit. */
  lemma PhoneRefusedIff(v: string)
    ensures ValidatePhone(Some(v)).Raise? <==>
      var p := Strip(Py, v);
      p != "" && !(|p| == 12 && (forall i :: 0 <= i < |p| ==> IsDigit(p[i]) || p[i] == '.')
                   && exists i :: 0 <= i < |p| && IsDigit(p[i]))
  {
    var p := Strip(Py, v);
    WithoutDotsSpec(p);
    if p != "" && IsDigitString(WithoutDots(p)) && |p| == 12 {
      var i :| 0 <= i < |p| && p[i] != '.';
      assert IsDigit(p[i]);
    }
  }

  /** Twelve digits without any dot are accepted, unchanged. */
  lemma TwelveDigitsAccepted(v: string)
    requires |v| == 12 && AllDigits(v)
    ensures ValidatePhone(Some(v)) == Ok(Some(v))
  {
    assert !IsSpace(Py, v[0]) && !IsSpace(Py, v[11]);
    assert TrimStart(Py, v) == v;
    assert TrimEnd(Py, v) == v;
    WithoutDotsSpec(v);
    assert v[0] != '.';
  }

  /** Python's `strip()` removes a leading file separator (0x1C) like any other whitespace, so
      the validator treats the phone as if it were not there. */
  lemma FileSeparatorStripped(p: string)
    ensures ValidatePhone(Some([28 as char] + p)) == ValidatePhone(Some(p))
  {
    var v := [28 as char] + p;
    assert v[1..] == p;
    assert TrimStart(Py, v) == TrimStart(Py, p);
    assert Strip(Py, v) == Strip(Py, p);
  }

  /** A phone of blanks is accepted as the empty string. */
  lemma BlankPhoneIsEmpty(v: string)
    requires forall i :: 0 <= i < |v| ==> IsSpace(Py, v[i])
    ensures ValidatePhone(Some(v)) == Ok(Some(""))
  {
    StripEmpty(Py, v);
  }

  /** Whether pydantic refuses the named field: the `Field(...)` bounds first, then the field's
      validator on a value within them. The e-mail address is not checked here. */
  predicate Refused(c: ContactMessageCreate, field: string)
  {
    match field
    case "full_name" => !(1 <= |c.fullName| <= 200) || ValidateFullName(c.fullName).Raise?
    case "phone" => (c.phone.Some? && |c.phone.value| > 12) || ValidatePhone(c.phone).Raise?
    case "subject" => c.subject !in Subjects
    case "message" => !(50 <= |c.message| <= 250)
    case _ => false
  }

  const ContactFields: seq<string> := ["full_name", "email", "phone", "subject", "message"]

  function RefusedField(c: ContactMessageCreate): string -> bool
  {
    (field: string) => Refused(c, field)
  }

  /** The bounds of the schema, stated field by field. */
  predicate WithinBounds(c: ContactMessageCreate)
  {
    1 <= |c.fullName| <= 200 && |Words(Py, Strip(Py, c.fullName))| >= 2
    && (c.phone.Some? ==> |c.phone.value| <= 12 && ValidatePhone(c.phone).Ok?)
    && c.subject in Subjects
    && 50 <= |c.message| <= 250
  }

  /** Parsing the request body: a `ValidationError` naming every refused field, or the model
      with the name and phone replaced by what their validators return. */
  function ValidateContact(raw: ContactMessageCreate): (r: Outcome<ContactMessageCreate>)
    ensures r.Ok? <==> WithinBounds(raw)
    ensures r.Ok? ==> r.value == raw.(fullName := Strip(Py, raw.fullName),
                                      phone := if raw.phone.Some? then Some(Strip(Py, raw.phone.value)) else None)
    ensures r.Raise? ==> r.exc.IsInstance("ValueError")
  {
    var refused := Filter(ContactFields, RefusedField(raw));
    FieldsRefusedIff(raw);
    if refused == [] then
      Ok(raw.(fullName := ValidateFullName(raw.fullName).value, phone := ValidatePhone(raw.phone).value))
    else Raise(ValidationError(Join(refused, ", ")))
  }

  lemma FieldsRefusedIff(c: ContactMessageCreate)
    ensures Filter(ContactFields, RefusedField(c)) == [] <==> WithinBounds(c)
  {
    if WithinBounds(c) {
      NoFieldRefused(c);
    } else {
      SomeFieldRefused(c);
    }
  }

  lemma NoFieldRefused(c: ContactMessageCreate)
    requires WithinBounds(c)
    ensures Filter(ContactFields, RefusedField(c)) == []
  {
    forall i | 0 <= i < |ContactFields| ensures !RefusedField(c)(ContactFields[i]) {
      FieldNotRefused(c, ContactFields[i]);
    }
    FilterNone(ContactFields, RefusedField(c));
  }

  lemma FieldNotRefused(c: ContactMessageCreate, f: string)
    requires WithinBounds(c)
    ensures !Refused(c, f)
  {
  }

  lemma SomeFieldRefused(c: ContactMessageCreate)
    requires !WithinBounds(c)
    ensures Filter(ContactFields, RefusedField(c)) != []
  {
    var f :=
      if !(1 <= |c.fullName| <= 200 && |Words(Py, Strip(Py, c.fullName))| >= 2) then "full_name"
      else if !(c.phone.Some? ==> |c.phone.value| <= 12 && ValidatePhone(c.phone).Ok?) then "phone"
      else if c.subject !in Subjects then "subject"
      else "message";
    assert f in ContactFields && Refused(c, f);
    FilterIn(ContactFields, RefusedField(c), f);
  }

  /** `ContactMessageResponse`: the list view of a stored message. */
  datatype ContactMessageResponse = ContactMessageResponse(
    id: int, subject: string, status: string, createdAt: int, hasResponse: bool)

  /** `ContactMessageResponse.from_orm`: `has_response` tells whether an answer is stored, also
      when that answer is the empty string. */
  function FromOrm(m: ContactMessage): (r: ContactMessageResponse)
    ensures r.hasResponse <==> m.adminResponse.Some?
    ensures r.id == m.id && r.subject == m.subject && r.status == m.status && r.createdAt == m.createdAt
  {
    ContactMessageResponse(m.id, m.subject, m.status, m.createdAt, m.adminResponse.Some?)
  }
}
