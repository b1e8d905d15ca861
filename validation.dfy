/** The client-side form rules (`ValidationRules`): each rule collects its error messages in a
    fixed order, returning early with a single "required" message where the field is required,
    and the field is valid when no message was collected. */
module Validation {
  import opened Wrappers
  import opened Text

  datatype ValidationResult = ValidationResult(isValid: bool, errors: seq<string>)

  /** `{ isValid: errors.length === 0, errors }`. */
  function Collected(errors: seq<string>): (r: ValidationResult)
    ensures r.errors == errors && (r.isValid <==> errors == [])
  {
    ValidationResult(errors == [], errors)
  }

  /** `!value || value.trim().length === 0`. */
  predicate Blank(value: string) { Strip(Js, value) == "" }

  /** The message pushed when `failed` holds, as a list of zero or one messages. */
  function If(failed: bool, message: string): seq<string> { if failed then [message] else [] }

  // ----- username -----

  predicate UsernameChar(c: char) { IsLower(c) || IsDigit(c) || c == '_' || c == '-' }

  /** `/^[a-z][a-z0-9_-]*$/`. */
  predicate UsernamePattern(s: string)
  {
    s != [] && IsLower(s[0]) && forall i :: 0 <= i < |s| ==> UsernameChar(s[i])
  }

  function Username(value: string): ValidationResult
  {
    if Blank(value) then ValidationResult(false, ["Username is required"])
    else
      var lower := ToLower(value);
      Collected(
        If(value != lower, "Username must be lowercase")
        + If(|value| < 3, "Username must be at least 3 characters")
        + If(|value| > 50, "Username must be 50 characters or less")
        + If(!(lower != [] && IsLower(lower[0])), "Username must start with a letter")
        + If(!UsernamePattern(lower), "Username can only contain lowercase letters, numbers, underscores, and dashes"))
  }

  /** A username is valid exactly when it is already lower case, has 3 to 50 characters, starts
      with a letter and uses only a-z, 0-9, '_' and '-'. */
  lemma UsernameValidIff(value: string)
    ensures Username(value).isValid <==>
      value == ToLower(value) && 3 <= |value| <= 50 && IsLower(value[0])
      && forall i :: 0 <= i < |value| ==> UsernameChar(value[i])
  {
    if value != [] && IsLower(value[0]) {
      StartsWithLetterNotBlank(value);
    }
  }

  /** A value starting with a letter is not blank. */
  lemma StartsWithLetterNotBlank(value: string)
    requires value != [] && IsLower(value[0])
    ensures !Blank(value)
  {
    assert !IsSpace(Js, value[0]);
    assert TrimStart(Js, value) == value;
    assert value[0] == Strip(Js, value)[0];
  }

  /** A blank username gets exactly the one "required" message. */
  lemma BlankUsername(value: string)
    requires forall i :: 0 <= i < |value| ==> IsSpace(Js, value[i])
    ensures Username(value) == ValidationResult(false, ["Username is required"])
  {
    StripEmpty(Js, value);
  }

  // ----- full name -----

  predicate HasLetter(w: string) { exists i :: 0 <= i < |w| && IsLetter(w[i]) }

  /** `value.trim().split(/\s+/)` on a value that is not blank is the list of its words. */
  function FullName(value: string): ValidationResult
  {
    if Blank(value) then ValidationResult(false, ["Full name is required"])
    else
      var words := Words(Js, Strip(Js, value));
      Collected(
        If(|value| > 200, "Full name must be 200 characters or less")
        + If(|words| < 2, "Please enter both first and last name")
        + If(!(forall k :: 0 <= k < |words| ==> HasLetter(words[k])), "Name must contain letters"))
  }

  /** A full name is valid exactly when it has at most 200 characters and two or more words,
      each with a letter; there is no minimum length beyond that. */
  lemma FullNameValidIff(value: string)
    ensures FullName(value).isValid <==>
      |value| <= 200 && |Words(Js, Strip(Js, value))| >= 2
      && forall k :: 0 <= k < |Words(Js, Strip(Js, value))| ==> HasLetter(Words(Js, Strip(Js, value))[k])
  {
  }

  // ----- e-mail -----

  predicate PlainChar(c: char) { !IsSpace(Js, c) && c != '@' }
  predicate Plain(s: string) { s != [] && forall i :: 0 <= i < |s| ==> PlainChar(s[i]) }

  /** `/^[^\s@]+@[^\s@]+\.[^\s@]+$/`: a plain local part, '@', and a domain that splits at some
      '.' into two plain parts. */
  predicate EmailPattern(s: string)
  {
    exists i, j :: 0 < i < j < |s| - 1 && s[i] == '@' && s[j] == '.'
      && Plain(s[..i]) && Plain(s[i + 1..j]) && Plain(s[j + 1..])
  }

  function Email(value: string): ValidationResult
  {
    if Blank(value) then ValidationResult(false, ["Email is required"])
    else
      Collected(
        If(|value| > 254, "Email must be 254 characters or less")
        + If(!EmailPattern(value), "Please enter a valid email address"))
  }

  /** The e-mail rule in plain terms: no whitespace, exactly one '@' with something before it,
      and a '.' in the domain that is neither its first nor its last character. */
  predicate EmailShape(s: string)
  {
    !HasSpace(Js, s)
    && exists i :: 0 < i < |s| && SoleAt(s, i) && exists j :: i + 1 < j < |s| - 1 && s[j] == '.'
  }

  predicate SoleAt(s: string, i: int)
  {
    0 <= i < |s| && s[i] == '@' && forall k :: 0 <= k < |s| && s[k] == '@' ==> k == i
  }

  lemma EmailPatternIsShape(s: string)
    ensures EmailPattern(s) <==> EmailShape(s)
  {
    if EmailPattern(s) {
      var i, j :| 0 < i < j < |s| - 1 && s[i] == '@' && s[j] == '.'
        && Plain(s[..i]) && Plain(s[i + 1..j]) && Plain(s[j + 1..]);
      PatternHasShape(s, i, j);
    }
    if EmailShape(s) {
      var i :| 0 < i < |s| && SoleAt(s, i) && exists j :: i + 1 < j < |s| - 1 && s[j] == '.';
      var j :| i + 1 < j < |s| - 1 && s[j] == '.';
      ShapeHasPattern(s, i, j);
    }
  }

  lemma PatternHasShape(s: string, i: int, j: int)
    requires 0 < i < j < |s| - 1 && s[i] == '@' && s[j] == '.'
    requires Plain(s[..i]) && Plain(s[i + 1..j]) && Plain(s[j + 1..])
    ensures EmailShape(s)
  {
    forall k | 0 <= k < |s| ensures PlainChar(s[k]) || k == i {
      if k < i { assert s[k] == s[..i][k]; }
      else if i < k < j { assert s[k] == s[i + 1..j][k - i - 1]; }
      else if k > j { assert s[k] == s[j + 1..][k - j - 1]; }
    }
    assert SoleAt(s, i);
  }

  lemma ShapeHasPattern(s: string, i: int, j: int)
    requires !HasSpace(Js, s) && 0 < i < |s| && SoleAt(s, i) && i + 1 < j < |s| - 1 && s[j] == '.'
    ensures EmailPattern(s)
  {
    assert Plain(s[..i]);
    assert Plain(s[i + 1..j]);
    assert Plain(s[j + 1..]);
  }

  /** An e-mail address is valid exactly when it has at most 254 characters and the shape
      above. */
  lemma EmailValidIff(value: string)
    ensures Email(value).isValid <==> |value| <= 254 && EmailShape(value)
  {
    EmailPatternIsShape(value);
    if EmailShape(value) {
      assert !IsSpace(Js, value[0]);
      assert TrimStart(Js, value) == value;
    }
  }

  // ----- phone, password, VIN, vehicle text, text area, required text -----

  /** `/^\d{3}\.\d{3}\.\d{4}$/`. */
  predicate PhonePattern(s: string)
  {
    |s| == 12 && forall i :: 0 <= i < 12 ==> if i == 3 || i == 7 then s[i] == '.' else IsDigit(s[i])
  }

  function Phone(value: string): ValidationResult
  {
    if Blank(value) then ValidationResult(true, [])
    else Collected(If(!PhonePattern(value), "Phone must be in format XXX.XXX.XXXX"))
  }

  /** An optional phone is valid when blank or of the form DDD.DDD.DDDD. */
  lemma PhoneValidIff(value: string)
    ensures Phone(value).isValid <==> Blank(value) || PhonePattern(value)
  {
  }

  predicate HasUpper(s: string) { exists i :: 0 <= i < |s| && IsUpper(s[i]) }
  predicate HasLower(s: string) { exists i :: 0 <= i < |s| && IsLower(s[i]) }
  predicate HasDigit(s: string) { exists i :: 0 <= i < |s| && IsDigit(s[i]) }

  /** The password rule checks emptiness only, not blankness. */
  function Password(value: string): ValidationResult
  {
    if value == "" then ValidationResult(false, ["Password is required"])
    else
      Collected(
        If(|value| < 8, "Password must be at least 8 characters")
        + If(|value| > 100, "Password must be 100 characters or less")
        + If(!HasUpper(value), "Password must contain at least one uppercase letter")
        + If(!HasLower(value), "Password must contain at least one lowercase letter")
        + If(!HasDigit(value), "Password must contain at least one number"))
  }

  lemma PasswordValidIff(value: string)
    ensures Password(value).isValid <==> 8 <= |value| <= 100 && HasUpper(value) && HasLower(value) && HasDigit(value)
    ensures Password(value).isValid ==> (|Password(value).errors| == 0)
  {
  }

  /** `[A-HJ-NPR-Z0-9]` under the `i` flag: a digit, or a letter other than I, O and Q in either
      case. */
  predicate VinChar(c: char) { IsDigit(c) || (IsLetter(c) && UpperChar(c) != 'I' && UpperChar(c) != 'O' && UpperChar(c) != 'Q') }

  predicate VinPattern(s: string) { |s| == 17 && forall i :: 0 <= i < |s| ==> VinChar(s[i]) }

  function Vin(value: string): ValidationResult
  {
    if Blank(value) then ValidationResult(true, [])
    else
      Collected(
        If(|value| != 17, "VIN must be exactly 17 characters")
        + If(!VinPattern(value), "VIN must contain only letters and numbers (no I, O, or Q)"))
  }

  lemma VinValidIff(value: string)
    ensures Vin(value).isValid <==> Blank(value) || VinPattern(value)
  {
  }

  /** `[a-zA-Z0-9\s\-()]`. */
  predicate VehicleChar(c: char) { IsLetter(c) || IsDigit(c) || IsSpace(Js, c) || c == '-' || c == '(' || c == ')' }

  function VehicleText(value: string): ValidationResult
  {
    if Blank(value) then ValidationResult(false, ["This field is required"])
    else
      Collected(
        If(|value| > 50, "Must be 50 characters or less")
        + If(!(forall i :: 0 <= i < |value| ==> VehicleChar(value[i])),
             "Only letters, numbers, spaces, dashes, and parentheses allowed"))
  }

  lemma VehicleTextValidIff(value: string)
    ensures VehicleText(value).isValid <==>
      !Blank(value) && |value| <= 50 && forall i :: 0 <= i < |value| ==> VehicleChar(value[i])
  {
  }

  function TextArea(value: string): ValidationResult
  {
    if Blank(value) then ValidationResult(true, [])
    else Collected(If(|value| > 1000, "Must be 1000 characters or less"))
  }

  function RequiredText(value: string): ValidationResult
  {
    if Blank(value) then ValidationResult(false, ["This field is required"])
    else Collected(If(|value| > 200, "Must be 200 characters or less"))
  }

  /** The optional text area refuses only what is too long; required text also refuses blanks. */
  lemma TextRulesValidIff(value: string)
    ensures TextArea(value).isValid <==> Blank(value) || |value| <= 1000
    ensures RequiredText(value).isValid <==> !Blank(value) && |value| <= 200
  {
  }

  // ----- fields and forms -----

  /** The rules that read the browser clock (`incidentDate`, `vehicleYear`). */
  predicate ClockRule(name: string) { name == "incidentDate" || name == "vehicleYear" }

  /** The properties every plain object inherits from `Object.prototype`. Looking one of them
      up in `ValidationRules` finds a function or an object, which is truthy. */
  const InheritedNames: set<string> := {
    "constructor", "hasOwnProperty", "isPrototypeOf", "propertyIsEnumerable", "toLocaleString",
    "toString", "valueOf", "__proto__", "__defineGetter__", "__defineSetter__",
    "__lookupGetter__", "__lookupSetter__"}

  /** The `TypeError` thrown when the inherited value has no `validate` method to call. */
  const NotAFunction: Exc := Exc("TypeError", {"TypeError", "Error"}, "rule.validate is not a function", None, None)

  /** `ValidationRules[fieldName]` for a name that is not inherited: the named rule, or valid
      for a name with no rule. The two clock rules' results are an input. */
  function OwnRule(name: string, value: string, clockRules: (string, string) -> ValidationResult): ValidationResult
  {
    match name
    case "username" => Username(value)
    case "fullName" => FullName(value)
    case "email" => Email(value)
    case "phone" => Phone(value)
    case "password" => Password(value)
    case "vin" => Vin(value)
    case "vehicleText" => VehicleText(value)
    case "textArea" => TextArea(value)
    case "requiredText" => RequiredText(value)
    case _ => if ClockRule(name) then clockRules(name, value) else ValidationResult(true, [])
  }

  /** `validateField`: the named rule, valid for a name with no rule, and a `TypeError` for an
      inherited name, whose truthy value has no `validate` method. No rule has an inherited
      name, so testing for one first does not change the lookup. */
  function ValidateField(name: string, value: string, clockRules: (string, string) -> ValidationResult)
    : (r: Outcome<ValidationResult>)
    ensures r.Raise? <==> name in InheritedNames
    ensures r.Raise? ==> r.exc == NotAFunction
  {
    if name in InheritedNames then Raise(NotAFunction) else Ok(OwnRule(name, value, clockRules))
  }

  predicate KnownRule(name: string)
  {
    name in {"username", "fullName", "email", "phone", "password", "vin", "vehicleText", "textArea", "requiredText"}
    || ClockRule(name)
  }

  /** No rule carries an inherited name. */
  lemma RulesNotInherited(name: string)
    requires KnownRule(name)
    ensures name !in InheritedNames
  {
  }

  /** A name that is neither a rule nor inherited is valid with no messages. */
  lemma UnknownRuleValid(name: string, value: string, clockRules: (string, string) -> ValidationResult)
    requires !KnownRule(name) && name !in InheritedNames
    ensures ValidateField(name, value, clockRules) == Ok(ValidationResult(true, []))
  {
  }

  /** An inherited name such as "constructor" makes `validateField` throw. */
  lemma InheritedNameThrows(name: string, value: string, clockRules: (string, string) -> ValidationResult)
    requires name in InheritedNames
    ensures ValidateField(name, value, clockRules) == Raise(NotAFunction)
  {
  }

  /** `fields[fieldName] || ''`: a missing value is the empty string. */
  function FieldValue(fields: map<string, string>, name: string): string
  {
    if name in fields then fields[name] else ""
  }

  /** `validateField(fieldName, fields[fieldName] || '')`. */
  function FieldResult(fields: map<string, string>, name: string, clockRules: (string, string) -> ValidationResult)
    : Outcome<ValidationResult>
  {
    ValidateField(name, FieldValue(fields, name), clockRules)
  }

  /** The named field of the form passes its rule without throwing. */
  predicate Passes(fields: map<string, string>, name: string, clockRules: (string, string) -> ValidationResult)
  {
    var r := FieldResult(fields, name, clockRules);
    r.Ok? && r.value.isValid
  }

  /** The specification of `isFormValid`: every listed field passes its rule. */
  predicate FormValid(fields: map<string, string>, required: seq<string>, clockRules: (string, string) -> ValidationResult)
  {
    forall k :: 0 <= k < |required| ==> Passes(fields, required[k], clockRules)
  }

  /** `isFormValid`: stops at the first listed field that fails, and passes on the `TypeError`
      of an inherited name reached before any failing field. */
  method IsFormValid(fields: map<string, string>, required: seq<string>, clockRules: (string, string) -> ValidationResult)
    returns (r: Outcome<bool>)
    ensures r == Ok(true) <==> FormValid(fields, required, clockRules)
    ensures r.Raise? <==> exists k :: 0 <= k < |required| && required[k] in InheritedNames
                                    && forall j :: 0 <= j < k ==> Passes(fields, required[j], clockRules)
    ensures r.Raise? ==> r.exc == NotAFunction
    ensures r == Ok(false) ==> exists k :: 0 <= k < |required| && !Passes(fields, required[k], clockRules)
  {
    for n := 0 to |required|
      invariant forall k :: 0 <= k < n ==> Passes(fields, required[k], clockRules)
    {
      var result := FieldResult(fields, required[n], clockRules);
      if result.Raise? {
        return Raise(result.exc);
      }
      if !result.value.isValid {
        return Ok(false);
      }
    }
    return Ok(true);
  }

  /** A required field that is missing from the form fails when its rule refuses the empty
      string, so a missing username makes the whole form invalid. */
  lemma MissingUsernameFails(fields: map<string, string>, required: seq<string>, clockRules: (string, string) -> ValidationResult)
    requires "username" in required && "username" !in fields
    ensures !FormValid(fields, required, clockRules)
  {
    var k :| 0 <= k < |required| && required[k] == "username";
    assert FieldValue(fields, required[k]) == "";
    assert Blank("");
  }

  /** `getCharacterCountClass` on whole numbers. For a positive limit, `percentage >= 90` is
      `10 * current >= 9 * max`; a zero or negative limit follows the floating-point quotient
      (negative infinity below a zero limit, and a ratio above 1 below a negative one). */
  function CharacterCountClass(current: int, max: int): string
  {
    if current >= max then "at-limit"
    else if (max > 0 && 10 * current >= 9 * max) || max < 0 then "near-limit"
    else "normal"
  }

  lemma CharacterCountClassSpec(current: int, max: int)
    requires max > 0
    ensures CharacterCountClass(current, max) == "at-limit" <==> current >= max
    ensures CharacterCountClass(current, max) == "near-limit" <==> current < max && 10 * current >= 9 * max
    ensures CharacterCountClass(current, max) == "normal" <==> 10 * current < 9 * max
  {
  }
}
