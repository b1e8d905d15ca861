/** The input formatters of the forms: phone, e-mail, VIN, year and vehicle text clean-up, word
    capitalisation, whitespace cleaning, digit parsing and the relative-time buckets. Character
    classes are ASCII, as in module Text. */
module Formatters {
  import opened Wrappers
  import opened Seqs
  import opened Text
  import Validation
  import ContactSchemas

  // ----- phone -----

  /** A run of digits laid out as XXX.XXX.XXXX: a dot before the fourth and before the seventh
      digit, when there are that many. */
  function Grouped(d: string): string
  {
    if |d| <= 3 then d
    else if |d| <= 6 then d[..3] + "." + d[3..]
    else d[..3] + "." + d[3..6] + "." + d[6..]
  }

  /** What the loop of `formatPhoneNumber` appends for the digit at position `|d|`. */
  lemma GroupedSnoc(d: string, c: char)
    ensures Grouped(d + [c]) == Grouped(d) + (if |d| == 3 || |d| == 6 then "." else "") + [c]
  {
    var e := d + [c];
    if |d| < 3 {
    } else if |d| == 3 {
      assert e[..3] == d && e[3..] == [c];
    } else if |d| < 6 {
      assert e[..3] == d[..3] && e[3..] == d[3..] + [c];
    } else if |d| == 6 {
      assert e[..3] == d[..3] && e[3..6] == d[3..] && e[6..] == [c];
    } else {
      assert e[..3] == d[..3] && e[3..6] == d[3..6] && e[6..] == d[6..] + [c];
    }
  }

  /** `formatPhoneNumber` as a value: the first ten digits of the input, grouped. */
  function FormattedPhone(value: string): string
  {
    Grouped(Take(DigitsOnly(value), 10))
  }

  /** `formatPhoneNumber`: keep the digits, at most ten of them, and insert a dot before the
      fourth and the seventh. The ignored second parameter of the source is left out. */
  method FormatPhoneNumber(value: string) returns (formatted: string)
    ensures formatted == FormattedPhone(value)
  {
    var digitsOnly := DigitsOnly(value);
    var limitedDigits := if |digitsOnly| <= 10 then digitsOnly else digitsOnly[..10];
    formatted := "";
    for i := 0 to |limitedDigits|
      invariant formatted == Grouped(limitedDigits[..i])
    {
      GroupedSnoc(limitedDigits[..i], limitedDigits[i]);
      assert limitedDigits[..i + 1] == limitedDigits[..i] + [limitedDigits[i]];
      if i == 3 {
        formatted := formatted + ".";
      }
      if i == 6 {
        formatted := formatted + ".";
      }
      formatted := formatted + [limitedDigits[i]];
    }
    assert limitedDigits[..|limitedDigits|] == limitedDigits;
    assert limitedDigits == Take(digitsOnly, 10);
  }

  /** Index by index: dots exactly at positions 3 and 7, and the digits in order elsewhere. */
  lemma GroupedLayout(d: string)
    requires AllDigits(d)
    ensures |Grouped(d)| == |d| + (if |d| > 3 then 1 else 0) + (if |d| > 6 then 1 else 0)
    ensures forall i :: 0 <= i < |Grouped(d)| ==>
      (Grouped(d)[i] == '.' <==> i == 3 || i == 7)
    ensures forall i :: 0 <= i < |Grouped(d)| ==>
      if i < 3 then Grouped(d)[i] == d[i]
      else if i == 3 || i == 7 then true
      else if i < 7 then Grouped(d)[i] == d[i - 1]
      else Grouped(d)[i] == d[i - 2]
  {
  }

  /** Filtering a grouped run with a predicate that keeps digits and drops dots gives the run. */
  lemma FilterGrouped(d: string, p: char -> bool)
    requires !p('.')
    requires forall i :: 0 <= i < |d| ==> p(d[i])
    ensures Filter(Grouped(d), p) == d
  {
    if |d| <= 3 {
      FilterAll(d, p);
    } else if |d| <= 6 {
      var a, b := d[..3], d[3..];
      assert a + b == d;
      FilterAll(a, p);
      FilterAll(b, p);
      FilterAroundDot(a, b, p);
    } else {
      FilterAll(d[..3], p);
      FilterAll(d[3..6], p);
      FilterAll(d[6..], p);
      FilterGroupedTail(d, p);
    }
  }

  lemma FilterGroupedTail(d: string, p: char -> bool)
    requires !p('.') && |d| > 6
    requires Filter(d[..3], p) == d[..3] && Filter(d[3..6], p) == d[3..6] && Filter(d[6..], p) == d[6..]
    ensures Filter(Grouped(d), p) == d
  {
    PiecesOfLong(d);
    FilterTwoDots(d[..3], d[3..6], d[6..], p);
  }

  lemma PiecesOfLong(d: string)
    requires |d| > 6
    ensures Grouped(d) == (d[..3] + "." + d[3..6]) + "." + d[6..]
    ensures d[..3] + d[3..6] + d[6..] == d
  {
  }

  lemma FilterTwoDots(a: string, b: string, c: string, p: char -> bool)
    requires !p('.')
    requires Filter(a, p) == a && Filter(b, p) == b && Filter(c, p) == c
    ensures Filter((a + "." + b) + "." + c, p) == a + b + c
  {
    FilterAroundDot(a, b, p);
    FilterAroundDot(a + "." + b, c, p);
  }

  lemma FilterAroundDot(a: string, b: string, p: char -> bool)
    requires !p('.')
    ensures Filter(a + "." + b, p) == Filter(a, p) + Filter(b, p)
  {
    FilterNone(".", p);
    FilterAppend(a, ".", p);
    FilterAppend(a + ".", b, p);
  }

  /** The formatted phone: at most twelve characters, dots only at positions 3 and 7, digits
      elsewhere, and deleting the dots gives back the first ten (or fewer) digits of the input. */
  lemma FormattedPhoneShape(value: string)
    ensures |FormattedPhone(value)| <= 12
    ensures forall i :: 0 <= i < |FormattedPhone(value)| ==>
      (FormattedPhone(value)[i] == '.' <==> i == 3 || i == 7)
    ensures forall i :: 0 <= i < |FormattedPhone(value)| ==>
      FormattedPhone(value)[i] == '.' || IsDigit(FormattedPhone(value)[i])
    ensures WithoutDots(FormattedPhone(value)) == Take(DigitsOnly(value), 10)
  {
    GroupedShape(Take(DigitsOnly(value), 10));
  }

  lemma GroupedShape(d: string)
    requires AllDigits(d) && |d| <= 10
    ensures |Grouped(d)| <= 12
    ensures forall i :: 0 <= i < |Grouped(d)| ==> (Grouped(d)[i] == '.' <==> i == 3 || i == 7)
    ensures forall i :: 0 <= i < |Grouped(d)| ==> Grouped(d)[i] == '.' || IsDigit(Grouped(d)[i])
    ensures WithoutDots(Grouped(d)) == d
  {
    GroupedLayout(d);
    GroupedDigits(d);
    FilterGrouped(d, NotDot);
  }

  lemma GroupedDigits(d: string)
    requires AllDigits(d)
    ensures forall i :: 0 <= i < |Grouped(d)| ==> Grouped(d)[i] == '.' || IsDigit(Grouped(d)[i])
  {
    GroupedLayout(d);
    forall i | 0 <= i < |Grouped(d)| && Grouped(d)[i] != '.' ensures IsDigit(Grouped(d)[i]) {
      assert i < 3 || (3 < i < 7) || i > 7;
    }
  }

  /** Formatting a formatted phone changes nothing. */
  lemma FormatPhoneIdempotent(value: string)
    ensures FormattedPhone(FormattedPhone(value)) == FormattedPhone(value)
  {
    var d := Take(DigitsOnly(value), 10);
    FilterGrouped(d, IsDigit);
    assert Take(d, 10) == d;
  }

  /** With ten digits or more in the input, the result has the form the phone rule accepts. */
  lemma FullPhoneAccepted(value: string)
    requires |DigitsOnly(value)| >= 10
    ensures Validation.PhonePattern(FormattedPhone(value))
    ensures Validation.Phone(FormattedPhone(value)).isValid
  {
    TenDigitsGroupedMatch(Take(DigitsOnly(value), 10));
    Validation.PhoneValidIff(FormattedPhone(value));
  }

  lemma TenDigitsGroupedMatch(d: string)
    requires |d| == 10 && AllDigits(d)
    ensures Validation.PhonePattern(Grouped(d))
  {
    GroupedLayout(d);
  }

  /** A full formatted phone also passes the backend's phone validator, unchanged. */
  lemma FullPhoneAcceptedByBackend(value: string)
    requires |DigitsOnly(value)| >= 10
    ensures ContactSchemas.ValidatePhone(Some(FormattedPhone(value))) == Ok(Some(FormattedPhone(value)))
  {
    var p := FormattedPhone(value);
    FormattedPhoneShape(value);
    assert !IsSpace(Py, p[0]) && !IsSpace(Py, p[11]);
    assert TrimStart(Py, p) == p;
    assert TrimEnd(Py, p) == p;
  }

  // ----- backspace over a dot -----

  /** JavaScript `s.substring(start, end)`: both bounds clamped to `[0, |s|]`, and swapped when
      the first exceeds the second. */
  function Substring(s: string, start: int, end: int): (r: string)
    ensures |r| <= |s|
  {
    var a := if start < 0 then 0 else if start > |s| then |s| else start;
    var b := if end < 0 then 0 else if end > |s| then |s| else end;
    if a <= b then s[a..b] else s[b..a]
  }

  /** `handlePhoneBackspace`: right after a dot (cursor 4 or 8) Backspace removes the dot and the
      digit before it. The `preventDefault` call on the event is left out. */
  function HandlePhoneBackspace(key: string, currentValue: string, cursorPosition: int): string
  {
    if key != "Backspace" then currentValue
    else if cursorPosition == 4 || cursorPosition == 8 then
      Substring(currentValue, 0, cursorPosition - 2) + Substring(currentValue, cursorPosition, |currentValue|)
    else currentValue
  }

  /** Any other key, or any other cursor position, leaves the value as it is. */
  lemma BackspaceElsewhereUnchanged(key: string, value: string, cursor: int)
    requires key != "Backspace" || (cursor != 4 && cursor != 8)
    ensures HandlePhoneBackspace(key, value, cursor) == value
  {
  }

  /** At cursor 4 or 8 within the value, exactly the two characters before the cursor go. */
  lemma BackspaceRemovesPair(value: string, cursor: int)
    requires cursor == 4 || cursor == 8
    requires cursor <= |value|
    ensures var r := HandlePhoneBackspace("Backspace", value, cursor);
      r == value[..cursor - 2] + value[cursor..]
      && |r| == |value| - 2
      && (forall i :: 0 <= i < cursor - 2 ==> r[i] == value[i])
      && (forall i :: cursor - 2 <= i < |r| ==> r[i] == value[i + 2])
  {
  }

  /** A cursor past the end of a shorter value cuts the value at `cursor - 2`. */
  lemma BackspacePastEnd(value: string, cursor: int)
    requires cursor == 4 || cursor == 8
    requires cursor > |value|
    ensures HandlePhoneBackspace("Backspace", value, cursor)
      == if cursor - 2 <= |value| then value[..cursor - 2] else value
  {
  }

  /** On a formatted phone the two characters removed are a digit and the dot after it. */
  lemma BackspaceOnFormattedPhone(v: string, cursor: int)
    requires cursor == 4 || cursor == 8
    requires cursor <= |FormattedPhone(v)|
    ensures FormattedPhone(v)[cursor - 1] == '.' && IsDigit(FormattedPhone(v)[cursor - 2])
  {
    FormattedPhoneShape(v);
  }

  // ----- e-mail -----

  /** A string with no whitespace at either end is its own strip. */
  lemma StripUnchanged(s: string)
    requires s == [] || (!IsSpace(Js, s[0]) && !IsSpace(Js, s[|s| - 1]))
    ensures Strip(Js, s) == s
  {
  }

  /** `formatEmail`: trimmed and lower-cased. */
  function FormatEmail(value: string): string
  {
    ToLower(Strip(Js, value))
  }

  lemma LowerCharClass(c: char)
    ensures IsSpace(Js, LowerChar(c)) <==> IsSpace(Js, c)
    ensures !IsUpper(LowerChar(c))
  {
  }

  /** The formatted e-mail has no whitespace at either end and no upper-case letter, and
      formatting it again changes nothing. */
  lemma FormatEmailSpec(value: string)
    ensures var r := FormatEmail(value);
      (r == [] || (!IsSpace(Js, r[0]) && !IsSpace(Js, r[|r| - 1])))
      && (forall i :: 0 <= i < |r| ==> !IsUpper(r[i]))
    ensures FormatEmail(FormatEmail(value)) == FormatEmail(value)
  {
    var t := Strip(Js, value);
    var r := ToLower(t);
    forall i | 0 <= i < |r| ensures (IsSpace(Js, r[i]) <==> IsSpace(Js, t[i])) && !IsUpper(r[i]) {
      LowerCharClass(t[i]);
    }
    StripUnchanged(r);
    ToLowerIdempotent(t);
  }

  // ----- VIN, year, vehicle text -----

  /** `[A-HJ-NPR-Z0-9]` without the `i` flag: a digit, or an upper-case letter other than I, O
      and Q. */
  predicate VinUpperChar(c: char) { IsDigit(c) || (IsUpper(c) && c != 'I' && c != 'O' && c != 'Q') }

  /** `formatVIN`: upper-cased, other characters dropped, at most 17 kept. */
  function FormatVin(value: string): string
  {
    Take(Filter(ToUpper(value), VinUpperChar), 17)
  }

  /** Every character kept by a filter satisfies it, and so does every character of a prefix. */
  lemma TakeFilterChars(s: string, p: char -> bool, n: nat)
    ensures forall i :: 0 <= i < |Take(Filter(s, p), n)| ==> p(Take(Filter(s, p), n)[i])
  {
    var f := Filter(s, p);
    forall i | 0 <= i < |Take(f, n)| ensures p(Take(f, n)[i]) {
      assert Take(f, n)[i] == f[i];
      assert f[i] in f;
    }
  }

  /** A VIN comes out with at most 17 characters, each one the VIN rule accepts, and
      formatting it again changes nothing. With 17 or more usable characters it passes the VIN
      rule. */
  lemma FormatVinSpec(value: string)
    ensures |FormatVin(value)| <= 17
    ensures forall i :: 0 <= i < |FormatVin(value)| ==>
      VinUpperChar(FormatVin(value)[i]) && Validation.VinChar(FormatVin(value)[i])
    ensures FormatVin(FormatVin(value)) == FormatVin(value)
    ensures |Filter(ToUpper(value), VinUpperChar)| >= 17 ==> Validation.Vin(FormatVin(value)).isValid
  {
    var r := FormatVin(value);
    TakeFilterChars(ToUpper(value), VinUpperChar, 17);
    assert ToUpper(r) == r;
    FilterAll(r, VinUpperChar);
    Validation.VinValidIff(r);
  }

  /** `formatYear`: the first four digits. */
  function FormatYear(value: string): string
  {
    Take(DigitsOnly(value), 4)
  }

  /** A year comes out as at most four digits, and formatting it again changes nothing. */
  lemma FormatYearSpec(value: string)
    ensures |FormatYear(value)| <= 4 && AllDigits(FormatYear(value))
    ensures FormatYear(FormatYear(value)) == FormatYear(value)
  {
    var r := FormatYear(value);
    FilterAll(r, IsDigit);
  }

  /** `formatVehicleText`: letters, digits, whitespace, dashes and parentheses, at most 50. */
  function FormatVehicleText(value: string): string
  {
    Take(Filter(value, Validation.VehicleChar), 50)
  }

  /** Make and model come out with at most 50 characters the vehicle-text rule allows, and
      formatting again changes nothing; a result that is not blank passes that rule. */
  lemma FormatVehicleTextSpec(value: string)
    ensures |FormatVehicleText(value)| <= 50
    ensures forall i :: 0 <= i < |FormatVehicleText(value)| ==> Validation.VehicleChar(FormatVehicleText(value)[i])
    ensures FormatVehicleText(FormatVehicleText(value)) == FormatVehicleText(value)
    ensures !Validation.Blank(FormatVehicleText(value)) ==> Validation.VehicleText(FormatVehicleText(value)).isValid
  {
    var r := FormatVehicleText(value);
    TakeFilterChars(value, Validation.VehicleChar, 50);
    FilterAll(r, Validation.VehicleChar);
    Validation.VehicleTextValidIff(r);
  }

  // ----- capitalisation -----

  /** `word.charAt(0).toUpperCase() + word.slice(1)`. */
  function CapFirst(w: string): (r: string)
    ensures |r| == |w|
  {
    if w == [] then [] else [UpperChar(w[0])] + w[1..]
  }

  /** The length of the longest prefix of `s` whose characters all satisfy `p`. */
  function RunLen(s: string, p: char -> bool): (n: nat)
    ensures n <= |s|
    ensures forall i :: 0 <= i < n ==> p(s[i])
    ensures n == |s| || !p(s[n])
  {
    if s == [] || !p(s[0]) then 0 else 1 + RunLen(s[1..], p)
  }

  predicate NotBlankChar(c: char) { c != ' ' }

  /** JavaScript `s.split(' ')`: the pieces between the spaces, empty ones included. */
  function SplitOnSpace(s: string): (r: seq<string>)
    ensures |r| >= 1
    decreases |s|
  {
    var n := RunLen(s, NotBlankChar);
    if n == |s| then [s] else [s[..n]] + SplitOnSpace(s[n + 1..])
  }

  /** The reference form of capitalising after spaces: a character is upper-cased at the start
      and after a space, and kept elsewhere. */
  function CapAfterBlank(s: string): (r: string)
    ensures |r| == |s|
  {
    seq(|s|, i requires 0 <= i < |s| => if i == 0 || s[i - 1] == ' ' then UpperChar(s[i]) else s[i])
  }

  lemma {:induction false} JoinCons(a: string, ps: seq<string>, sep: string)
    requires ps != []
    ensures Join([a] + ps, sep) == a + sep + Join(ps, sep)
    decreases |ps|
  {
    if |ps| > 1 {
      var init := ps[..|ps| - 1];
      assert ([a] + ps)[..|ps|] == [a] + init;
      JoinCons(a, init, sep);
    }
  }

  lemma MapCons<T, U>(x: T, s: seq<T>, f: T -> U)
    ensures Map([x] + s, f) == [f(x)] + Map(s, f)
  {
  }

  /** Splitting on spaces, capitalising each piece and joining with spaces upper-cases exactly the
      first character and every character after a space. */
  lemma {:induction false} SplitCapJoin(s: string)
    ensures Join(Map(SplitOnSpace(s), CapFirst), " ") == CapAfterBlank(s)
    decreases |s|
  {
    var n := RunLen(s, NotBlankChar);
    if n == |s| {
      assert Map([s], CapFirst) == [CapFirst(s)];
      CapFirstOfPiece(s);
    } else {
      var w, rest := s[..n], s[n + 1..];
      SplitOnSpaceCons(s, n);
      MapCons(w, SplitOnSpace(rest), CapFirst);
      JoinCons(CapFirst(w), Map(SplitOnSpace(rest), CapFirst), " ");
      SplitCapJoin(rest);
      CapAfterBlankCons(w, rest);
    }
  }

  lemma SplitOnSpaceCons(s: string, n: nat)
    requires n == RunLen(s, NotBlankChar) && n < |s|
    ensures SplitOnSpace(s) == [s[..n]] + SplitOnSpace(s[n + 1..])
    ensures s == s[..n] + " " + s[n + 1..]
    ensures forall i :: 0 <= i < |s[..n]| ==> NotBlankChar(s[..n][i])
  {
  }

  lemma CapFirstOfPiece(w: string)
    requires forall i :: 0 <= i < |w| ==> NotBlankChar(w[i])
    ensures CapFirst(w) == CapAfterBlank(w)
  {
  }

  lemma CapAfterBlankCons(w: string, rest: string)
    requires forall i :: 0 <= i < |w| ==> NotBlankChar(w[i])
    ensures CapAfterBlank(w + " " + rest) == CapFirst(w) + " " + CapAfterBlank(rest)
  {
    var s := w + " " + rest;
    var n := |w|;
    var lhs := CapFirst(w) + " " + CapAfterBlank(rest);
    forall i | 0 <= i < |s| ensures lhs[i] == CapAfterBlank(s)[i] {
      if i > n + 1 {
        assert lhs[i] == CapAfterBlank(rest)[i - n - 1];
        assert rest[i - n - 2] == s[i - 1];
      }
    }
  }

  /** `capitalizeWords`: lower-case everything, then upper-case the first letter of every piece
      between spaces. */
  function CapitalizeWords(value: string): string
  {
    Join(Map(SplitOnSpace(ToLower(value)), CapFirst), " ")
  }

  /** Character by character: upper case at the start and after a space, lower case elsewhere;
      the length is unchanged. */
  lemma CapitalizeWordsChars(value: string)
    ensures |CapitalizeWords(value)| == |value|
    ensures forall i :: 0 <= i < |value| ==>
      CapitalizeWords(value)[i]
        == if i == 0 || value[i - 1] == ' ' then UpperChar(value[i]) else LowerChar(value[i])
  {
    var s := ToLower(value);
    SplitCapJoin(s);
    forall i | 0 <= i < |value|
      ensures CapAfterBlank(s)[i]
        == if i == 0 || value[i - 1] == ' ' then UpperChar(value[i]) else LowerChar(value[i])
    {
      CaseRoundTrip(value[i]);
      if i > 0 {
        CaseRoundTrip(value[i - 1]);
      }
    }
  }

  lemma CaseRoundTrip(c: char)
    ensures UpperChar(LowerChar(c)) == UpperChar(c)
    ensures LowerChar(c) == ' ' <==> c == ' '
  {
  }

  /** The characters at which `formatText` splits: `_` and whitespace. */
  predicate IsWordBreak(c: char) { c == '_' || IsSpace(Js, c) }
  predicate NotWordBreak(c: char) { !IsWordBreak(c) }
  predicate NoWordBreak(w: string) { forall i :: 0 <= i < |w| ==> NotWordBreak(w[i]) }

  /** JavaScript `s.split(/[_\s]+/)`: the pieces between the runs of word breaks; a leading or
      trailing run yields an empty first or last piece. */
  function SplitOnBreaks(s: string): (r: seq<string>)
    ensures |r| >= 1
    ensures forall w :: w in r ==> NoWordBreak(w)
    decreases |s|
  {
    var n := RunLen(s, NotWordBreak);
    if n == |s| then [s]
    else
      var gap := RunLen(s[n..], IsWordBreak);
      assert gap >= 1;
      [s[..n]] + SplitOnBreaks(s[n + gap..])
  }

  /** `formatText`: empty stays empty; otherwise the pieces between runs of `_` and whitespace,
      each with its first character upper-cased, joined by single spaces. */
  function FormatText(text: string): string
  {
    if text == "" then "" else Join(Map(SplitOnBreaks(text), CapFirst), " ")
  }

  /** A single word is capitalised and otherwise kept. */
  lemma FormatTextWord(w: string)
    requires w != [] && NoWordBreak(w)
    ensures FormatText(w) == CapFirst(w)
  {
    assert SplitOnBreaks(w) == [w];
    assert Map([w], CapFirst) == [CapFirst(w)];
  }

  /** Two words around any run of underscores and whitespace become two capitalised words with
      one space between them. */
  lemma FormatTextTwoWords(s: string, a: string, gap: string, b: string)
    requires a != [] && NoWordBreak(a) && b != [] && NoWordBreak(b)
    requires gap != [] && forall i :: 0 <= i < |gap| ==> IsWordBreak(gap[i])
    requires s == a + gap + b
    ensures FormatText(s) == CapFirst(a) + " " + CapFirst(b)
  {
    assert RunLen(s, NotWordBreak) == |a| by { RunLenPrefix(a, gap + b, NotWordBreak); assert s == a + (gap + b); }
    assert s[|a|..] == gap + b;
    assert RunLen(gap + b, IsWordBreak) == |gap| by { RunLenPrefix(gap, b, IsWordBreak); }
    assert s[|a| + |gap|..] == b;
    assert s[..|a|] == a;
    assert SplitOnBreaks(b) == [b];
    assert SplitOnBreaks(s) == [a, b];
    assert Map([a, b], CapFirst) == [CapFirst(a), CapFirst(b)];
    assert [CapFirst(a), CapFirst(b)][..1] == [CapFirst(a)];
    assert Join([CapFirst(a), CapFirst(b)], " ") == CapFirst(a) + " " + CapFirst(b);
    assert s != "";
  }

  lemma {:induction false} RunLenPrefix(w: string, rest: string, p: char -> bool)
    requires forall i :: 0 <= i < |w| ==> p(w[i])
    requires rest != [] && !p(rest[0])
    ensures RunLen(w + rest, p) == |w|
    decreases |w|
  {
    if w != [] {
      assert (w + rest)[1..] == w[1..] + rest;
      RunLenPrefix(w[1..], rest, p);
    } else {
      assert w + rest == rest;
    }
  }

  /** Joining keeps a character property that holds of every piece and of the separator. */
  lemma {:induction false} JoinKeeps(ps: seq<string>, sep: string, q: char -> bool)
    requires forall k, j :: 0 <= k < |ps| && 0 <= j < |ps[k]| ==> q(ps[k][j])
    requires forall j :: 0 <= j < |sep| ==> q(sep[j])
    ensures forall i :: 0 <= i < |Join(ps, sep)| ==> q(Join(ps, sep)[i])
    decreases |ps|
  {
    if |ps| > 1 {
      var init := ps[..|ps| - 1];
      JoinKeeps(init, sep, q);
      var j := Join(init, sep);
      var last := ps[|ps| - 1];
      assert Join(ps, sep) == j + sep + last;
      forall i | 0 <= i < |j + sep + last| ensures q((j + sep + last)[i]) {
        if i < |j| {
        } else if i < |j| + |sep| {
          assert (j + sep + last)[i] == sep[i - |j|];
        } else {
          assert (j + sep + last)[i] == last[i - |j| - |sep|];
        }
      }
    }
  }

  /** What `formatText` can put out: no underscore, and no whitespace but the single space. */
  predicate FormattedTextChar(c: char) { c != '_' && (IsSpace(Js, c) ==> c == ' ') }

  lemma UpperCharKeepsWordBreaks(c: char)
    ensures NotWordBreak(UpperChar(c)) <==> NotWordBreak(c)
  {
  }

  /** The output of `formatText` has no underscore left, and its only whitespace is a space. */
  lemma FormatTextChars(text: string)
    ensures forall i :: 0 <= i < |FormatText(text)| ==> FormattedTextChar(FormatText(text)[i])
  {
    if text != "" {
      var pieces := Map(SplitOnBreaks(text), CapFirst);
      forall k, j | 0 <= k < |pieces| && 0 <= j < |pieces[k]| ensures FormattedTextChar(pieces[k][j]) {
        var w := SplitOnBreaks(text)[k];
        assert w in SplitOnBreaks(text);
        assert NoWordBreak(w);
        if j == 0 {
          UpperCharKeepsWordBreaks(w[0]);
        } else {
          assert pieces[k][j] == w[j];
        }
      }
      JoinKeeps(pieces, " ", FormattedTextChar);
    }
  }

  /** The examples the source gives for `formatText`. */
  lemma FormatTextSingleWordExample(w: string)
    requires w == "submitted"
    ensures FormatText("") == ""
    ensures FormatText(w) == "Submitted"
  {
    SubmittedWord(w);
    FormatTextWord(w);
  }

  lemma SubmittedWord(w: string)
    requires w == "submitted"
    ensures w != [] && NoWordBreak(w) && CapFirst(w) == "Submitted"
  {
    assert w[1..] == "ubmitted";
  }

  lemma FormatTextUnderscoreExample()
    ensures FormatText("pending_review") == "Pending Review"
  {
    PendingReviewWords();
    FormatTextTwoWords("pending_review", "pending", "_", "review");
  }

  lemma FormatTextSpaceExample()
    ensures FormatText("pending review") == "Pending Review"
  {
    PendingReviewWords();
    FormatTextTwoWords("pending review", "pending", " ", "review");
  }

  lemma PendingReviewWords()
    ensures NoWordBreak("pending") && NoWordBreak("review")
    ensures CapFirst("pending") + " " + CapFirst("review") == "Pending Review"
  {
    assert CapFirst("pending") == "Pending";
    assert CapFirst("review") == "Review";
  }

  // ----- whitespace cleaning -----

  predicate NoDoubleSpace(r: string) { forall i :: 0 <= i < |r| - 1 ==> !(IsSpace(Js, r[i]) && IsSpace(Js, r[i + 1])) }
  predicate OnlyPlainSpaces(r: string) { forall i :: 0 <= i < |r| ==> IsSpace(Js, r[i]) ==> r[i] == ' ' }

  /** `s.replace(/\s+/g, ' ')`: every run of whitespace becomes one space. */
  function CollapseSpaces(s: string): (r: string)
    ensures |r| <= |s|
    ensures r == [] <==> s == []
    ensures r != [] ==> (IsSpace(Js, r[0]) <==> IsSpace(Js, s[0]))
    ensures r != [] ==> (IsSpace(Js, r[|r| - 1]) <==> IsSpace(Js, s[|s| - 1]))
    ensures OnlyPlainSpaces(r) && NoDoubleSpace(r)
    decreases |s|
  {
    if s == [] then []
    else if IsSpace(Js, s[0]) then
      " " + CollapseSpaces(TrimStart(Js, s))
    else [s[0]] + CollapseSpaces(s[1..])
  }

  /** A string with single plain spaces only is left as it is. */
  lemma {:induction false} CollapseUnchanged(s: string)
    requires OnlyPlainSpaces(s) && NoDoubleSpace(s)
    ensures CollapseSpaces(s) == s
    decreases |s|
  {
    if s != [] {
      var rest := s[1..];
      TailKeepsSpacing(s);
      CollapseUnchanged(rest);
      if IsSpace(Js, s[0]) {
        SpaceThenWord(s);
      }
    }
  }

  /** Collapsing keeps the words, in order: only the whitespace between them changes. */
  lemma {:induction false} CollapseKeepsWords(s: string)
    ensures Words(Js, CollapseSpaces(s)) == Words(Js, s)
    decreases |s|
  {
    if s != [] {
      if IsSpace(Js, s[0]) {
        var t := TrimStart(Js, s);
        CollapseKeepsWords(t);
        SpaceRunWords(s, CollapseSpaces(t));
      } else {
        CollapseKeepsWords(s[1..]);
        WordCharWords(s, CollapseSpaces(s[1..]));
      }
    }
  }

  lemma SpaceRunWords(s: string, c: string)
    requires s != [] && IsSpace(Js, s[0]) && Words(Js, c) == Words(Js, TrimStart(Js, s))
    ensures Words(Js, " " + c) == Words(Js, s)
  {
    WordsTrimStart(Js, s);
    assert (" " + c)[1..] == c;
  }

  lemma WordCharWords(s: string, c: string)
    requires s != [] && !IsSpace(Js, s[0]) && Words(Js, c) == Words(Js, s[1..])
    requires c == [] <==> s[1..] == []
    requires c != [] ==> (IsSpace(Js, c[0]) <==> IsSpace(Js, s[1]))
    ensures Words(Js, [s[0]] + c) == Words(Js, s)
  {
    var rest := s[1..];
    assert s == [s[0]] + rest;
    assert rest != [] ==> rest[0] == s[1];
    WordsCons(Js, s[0], rest);
    WordsCons(Js, s[0], c);
  }

  lemma TailKeepsSpacing(s: string)
    requires s != [] && OnlyPlainSpaces(s) && NoDoubleSpace(s)
    ensures OnlyPlainSpaces(s[1..]) && NoDoubleSpace(s[1..])
  {
    var rest := s[1..];
    forall i | 0 <= i < |rest| ensures IsSpace(Js, rest[i]) ==> rest[i] == ' ' { assert rest[i] == s[i + 1]; }
    forall i | 0 <= i < |rest| - 1 ensures !(IsSpace(Js, rest[i]) && IsSpace(Js, rest[i + 1])) {
      assert rest[i] == s[i + 1] && rest[i + 1] == s[i + 2];
    }
  }

  lemma SpaceThenWord(s: string)
    requires s != [] && IsSpace(Js, s[0]) && OnlyPlainSpaces(s) && NoDoubleSpace(s)
    ensures TrimStart(Js, s) == s[1..] && s == " " + s[1..]
  {
    var rest := s[1..];
    assert rest == [] || !IsSpace(Js, rest[0]) by {
      if rest != [] { assert rest[0] == s[1]; }
    }
    assert TrimStart(Js, rest) == rest;
  }

  /** `cleanText`: trimmed, with the whitespace runs inside collapsed to single spaces. */
  function CleanText(value: string): string
  {
    CollapseSpaces(Strip(Js, value))
  }

  /** Cleaned text has no whitespace at either end, no two whitespace characters in a row and
      no whitespace but the space; cleaning it again changes nothing. */
  lemma CleanTextSpec(value: string)
    ensures var r := CleanText(value);
      (r == [] || (!IsSpace(Js, r[0]) && !IsSpace(Js, r[|r| - 1])))
      && NoDoubleSpace(r) && OnlyPlainSpaces(r)
    ensures Words(Js, CleanText(value)) == Words(Js, value)
    ensures CleanText(CleanText(value)) == CleanText(value)
  {
    var r := CleanText(value);
    CollapseKeepsWords(Strip(Js, value));
    WordsStrip(Js, value);
    StripUnchanged(r);
    CollapseUnchanged(r);
  }

  // ----- number parsing -----

  /** `parseFormattedNumber`, whose body `parseFormattedCurrency` repeats: the value of the
      digits of the input read as one decimal numeral, or none when it has no digit. */
  function ParseFormattedNumber(value: string): (r: Option<nat>)
    ensures r.None? <==> forall i :: 0 <= i < |value| ==> !IsDigit(value[i])
  {
    var digits := DigitsOnly(value);
    NoDigitsIff(value);
    if digits == "" then None else Some(DigitsValue(digits))
  }

  lemma NoDigitsIff(value: string)
    ensures DigitsOnly(value) == [] <==> forall i :: 0 <= i < |value| ==> !IsDigit(value[i])
  {
    if forall i :: 0 <= i < |value| ==> !IsDigit(value[i]) {
      FilterNone(value, IsDigit);
    } else {
      var i :| 0 <= i < |value| && IsDigit(value[i]);
      FilterIn(value, IsDigit, value[i]);
    }
  }

  /** Decimal numerals parse back to their value. */
  lemma ParseNumeral(n: nat)
    ensures ParseFormattedNumber(NatToString(n)) == Some(n)
  {
    FilterAll(NatToString(n), IsDigit);
    DigitsValueOfNatToString(n);
  }

  /** Separators, currency signs and any other non-digit characters are ignored wherever they
      stand. */
  lemma ParseIgnoresNonDigit(a: string, c: char, b: string)
    requires !IsDigit(c)
    ensures ParseFormattedNumber(a + [c] + b) == ParseFormattedNumber(a + b)
  {
    DigitsSkipNonDigit(a, c, b);
  }

  lemma DigitsSkipNonDigit(a: string, c: char, b: string)
    requires !IsDigit(c)
    ensures DigitsOnly(a + [c] + b) == DigitsOnly(a + b)
  {
    FilterNone([c], IsDigit);
    FilterAppend(a, [c], IsDigit);
    assert Filter(a + [c], IsDigit) == Filter(a, IsDigit);
    FilterAppend(a + [c], b, IsDigit);
    FilterAppend(a, b, IsDigit);
  }

  // ----- relative time -----

  /** What `formatRelativeTime` shows: a phrase, or the calendar date `formatDate` renders. */
  datatype RelativeTime = Phrase(text: string) | CalendarDate

  /** "N unit ago", with the plural `s` unless N is 1. */
  function Ago(n: int, unit: string): string
  {
    IntToString(n) + " " + unit + (if n != 1 then "s" else "") + " ago"
  }

  /** The buckets of `formatRelativeTime`, given the time elapsed in milliseconds (`None` when
      there is no date string). Each unit is the floor of the previous one divided down. */
  function FormatRelativeTime(diffMs: Option<int>): RelativeTime
  {
    if diffMs.None? then Phrase("N/A")
    else
      var diffSec := diffMs.value / 1000;
      var diffMin := diffSec / 60;
      var diffHour := diffMin / 60;
      var diffDay := diffHour / 24;
      if diffSec < 60 then Phrase("Just now")
      else if diffMin < 60 then Phrase(Ago(diffMin, "minute"))
      else if diffHour < 24 then Phrase(Ago(diffHour, "hour"))
      else if diffDay < 30 then Phrase(Ago(diffDay, "day"))
      else CalendarDate
  }

  /** Flooring twice is flooring once by the product. */
  lemma FloorTwice(x: int, a: int, b: int)
    requires a > 0 && b > 0
    ensures x / a / b == x / (a * b)
  {
    var q1, r1 := x / a, x % a;
    var q2, r2 := q1 / b, q1 % b;
    assert x == a * q1 + r1 && 0 <= r1 < a;
    assert q1 == b * q2 + r2 && 0 <= r2 < b;
    var r := a * r2 + r1;
    assert a * q1 == a * (b * q2) + a * r2 by { MulAdd(a, b * q2, r2); }
    assert a * (b * q2) == (a * b) * q2 by { MulAssoc(a, b, q2); }
    assert a * r2 <= a * (b - 1) by { MulMono(a, r2, b - 1); }
    assert a * (b - 1) == a * b - a by { MulAdd(a, b, -1); }
    assert x == (a * b) * q2 + r && 0 <= r < a * b;
    DivUnique(x, a * b, q2, r);
  }

  lemma MulAdd(a: int, b: int, c: int) ensures a * (b + c) == a * b + a * c {}
  lemma MulAssoc(a: int, b: int, c: int) ensures a * (b * c) == (a * b) * c {}
  lemma MulMono(a: int, b: int, c: int) requires a >= 0 && b <= c ensures a * b <= a * c {}

  lemma DivUnique(x: int, d: int, q: int, r: int)
    requires d > 0 && x == d * q + r && 0 <= r < d
    ensures x / d == q
  {
    var q', r' := x / d, x % d;
    assert x == d * q' + r' && 0 <= r' < d;
    assert d * q' - d * q == r - r' by { MulAdd(d, q', -q); }
    if q' > q {
      MulMono(d, 1, q' - q);
      MulAdd(d, q', -q);
    } else if q' < q {
      MulMono(d, 1, q - q');
      MulAdd(d, q, -q');
    }
  }

  /** The buckets stated on the elapsed milliseconds directly: under a minute (the future
      included) is "Just now", then whole minutes, hours and days, and from 30 days on the
      calendar date. */
  lemma RelativeTimeBuckets(ms: int)
    ensures ms < 60000 ==> FormatRelativeTime(Some(ms)) == Phrase("Just now")
    ensures 60000 <= ms < 3600000 ==> FormatRelativeTime(Some(ms)) == Phrase(Ago(ms / 60000, "minute"))
    ensures 3600000 <= ms < 86400000 ==> FormatRelativeTime(Some(ms)) == Phrase(Ago(ms / 3600000, "hour"))
    ensures 86400000 <= ms < 2592000000 ==> FormatRelativeTime(Some(ms)) == Phrase(Ago(ms / 86400000, "day"))
    ensures 2592000000 <= ms ==> FormatRelativeTime(Some(ms)) == CalendarDate
  {
    FloorTwice(ms, 1000, 60);
    FloorTwice(ms, 60000, 60);
    FloorTwice(ms, 3600000, 24);
  }

  /** The unit is singular exactly for a count of one. */
  lemma AgoSingular(n: int, unit: string)
    ensures Ago(n, unit) == IntToString(n) + " " + unit + " ago" <==> n == 1
  {
    if n != 1 {
      var a := IntToString(n) + " " + unit + "s" + " ago";
      var b := IntToString(n) + " " + unit + " ago";
      assert |a| == |b| + 1;
    }
  }
}
