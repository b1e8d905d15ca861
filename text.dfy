/** ASCII character classes and the string operations the system leans on: Python's
    `strip`/`split`/`lower`, JavaScript's `trim`/`toLowerCase`/`toUpperCase`, and decimal
    rendering (`str(n)`, `${n}`) together with its inverse. */
module Text {
  import opened Seqs

  /** The language whose whitespace class applies: the backend's Python or the frontend's
      JavaScript. */
  datatype Runtime = Py | Js

  /** The whitespace class on ASCII. Both languages count space, tab, line feed, vertical tab,
      form feed and carriage return. Python's `str.isspace`, `strip()` and `split()` also count
      the four separator controls 0x1C to 0x1F, which JavaScript's `trim()` and `\s` do not. */
  predicate IsSpace(rt: Runtime, c: char)
  {
    c == ' ' || c == '\t' || c == '\n' || c == '\r' || c as int == 11 || c as int == 12
    || (rt.Py? && 28 <= c as int <= 31)
  }

  predicate IsDigit(c: char) { '0' <= c <= '9' }
  predicate IsLower(c: char) { 'a' <= c <= 'z' }
  predicate IsUpper(c: char) { 'A' <= c <= 'Z' }
  predicate IsLetter(c: char) { IsLower(c) || IsUpper(c) }

  predicate AllDigits(s: string) { forall i :: 0 <= i < |s| ==> IsDigit(s[i]) }
  predicate HasSpace(rt: Runtime, s: string) { exists i :: 0 <= i < |s| && IsSpace(rt, s[i]) }

  function LowerChar(c: char): char { if IsUpper(c) then (c as int + 32) as char else c }
  function UpperChar(c: char): char { if IsLower(c) then (c as int - 32) as char else c }

  /** `toLowerCase()` / `lower()` on ASCII. */
  function ToLower(s: string): (r: string)
    ensures |r| == |s|
    ensures forall i :: 0 <= i < |s| ==> r[i] == LowerChar(s[i])
  {
    seq(|s|, i requires 0 <= i < |s| => LowerChar(s[i]))
  }

  /** `toUpperCase()` / `upper()` on ASCII. */
  function ToUpper(s: string): (r: string)
    ensures |r| == |s|
    ensures forall i :: 0 <= i < |s| ==> r[i] == UpperChar(s[i])
  {
    seq(|s|, i requires 0 <= i < |s| => UpperChar(s[i]))
  }

  lemma ToLowerIdempotent(s: string)
    ensures ToLower(ToLower(s)) == ToLower(s)
  {
  }

  /** Leading whitespace removed (`lstrip()`, `trimStart()`). */
  function TrimStart(rt: Runtime, s: string): (r: string)
    ensures |r| <= |s| && r == s[|s| - |r|..]
    ensures r == [] || !IsSpace(rt, r[0])
    ensures forall i :: 0 <= i < |s| - |r| ==> IsSpace(rt, s[i])
  {
    if s != [] && IsSpace(rt, s[0]) then TrimStart(rt, s[1..]) else s
  }

  /** Trailing whitespace removed (`rstrip()`, `trimEnd()`). */
  function TrimEnd(rt: Runtime, s: string): (r: string)
    ensures |r| <= |s| && r == s[..|r|]
    ensures r == [] || !IsSpace(rt, r[|r| - 1])
    ensures forall i :: |r| <= i < |s| ==> IsSpace(rt, s[i])
  {
    if s != [] && IsSpace(rt, s[|s| - 1]) then TrimEnd(rt, s[..|s| - 1]) else s
  }

  /** Python `strip()` and JavaScript `trim()`. */
  function Strip(rt: Runtime, s: string): (r: string)
    ensures |r| <= |s|
    ensures r == [] || (!IsSpace(rt, r[0]) && !IsSpace(rt, r[|r| - 1]))
  {
    TrimEnd(rt, TrimStart(rt, s))
  }

  /** A string that is empty after stripping consists of whitespace only. */
  lemma StripEmpty(rt: Runtime, s: string)
    ensures Strip(rt, s) == [] <==> forall i :: 0 <= i < |s| ==> IsSpace(rt, s[i])
  {
    var t := TrimStart(rt, s);
    assert t == [] || !IsSpace(rt, t[0]);
  }

  /** The length of the run of non-whitespace characters that `s` starts with. */
  function WordLen(rt: Runtime, s: string): (n: nat)
    ensures n <= |s|
    ensures forall i :: 0 <= i < n ==> !IsSpace(rt, s[i])
    ensures n == |s| || IsSpace(rt, s[n])
  {
    if s == [] || IsSpace(rt, s[0]) then 0 else 1 + WordLen(rt, s[1..])
  }

  /** Python `str.split()` with no separator: the maximal runs of non-whitespace characters. */
  function Words(rt: Runtime, s: string): (r: seq<string>)
    ensures forall w :: w in r ==> w != [] && !HasSpace(rt, w)
    decreases |s|
  {
    if s == [] then []
    else if IsSpace(rt, s[0]) then Words(rt, s[1..])
    else
      var n := WordLen(rt, s);
      [s[..n]] + Words(rt, s[n..])
  }

  function DigitChar(d: nat): char
    requires d < 10
  {
    ('0' as int + d) as char
  }

  function DigitValue(c: char): nat
    requires IsDigit(c)
  {
    c as int - '0' as int
  }

  /** Python `str(n)` / JavaScript `${n}` for a natural number. */
  function NatToString(n: nat): (r: string)
    ensures r != [] && AllDigits(r)
  {
    if n < 10 then [DigitChar(n)] else NatToString(n / 10) + [DigitChar(n % 10)]
  }

  /** `str(i)` for any integer. */
  function IntToString(i: int): string
  {
    if i < 0 then "-" + NatToString(-i) else NatToString(i)
  }

  /** The value of a string of decimal digits (`int(s)`, `parseInt`); leading zeros allowed. */
  function DigitsValue(s: string): nat
    requires AllDigits(s)
  {
    if s == [] then 0 else 10 * DigitsValue(s[..|s| - 1]) + DigitValue(s[|s| - 1])
  }

  /** Decimal rendering and parsing are inverse. */
  lemma {:induction false} DigitsValueOfNatToString(n: nat)
    ensures DigitsValue(NatToString(n)) == n
  {
    if n >= 10 {
      DigitsValueOfNatToString(n / 10);
      var s := NatToString(n);
      assert s[..|s| - 1] == NatToString(n / 10);
    }
  }

  /** `sub in s` in Python, `s.includes(sub)` in JavaScript. */
  predicate Contains(s: string, sub: string)
  {
    exists i :: 0 <= i <= |s| - |sub| && OccursAt(s, sub, i)
  }

  predicate OccursAt(s: string, sub: string, i: int)
  {
    0 <= i <= |s| - |sub| && s[i..i + |sub|] == sub
  }

  /** SQL `ILIKE '%sub%'` without wildcard characters in `sub`: case-insensitive containment. */
  predicate ContainsIgnoringCase(s: string, sub: string)
  {
    Contains(ToLower(s), ToLower(sub))
  }

  /** `sep.join(parts)`. */
  function Join(parts: seq<string>, sep: string): string
  {
    if parts == [] then ""
    else if |parts| == 1 then parts[0]
    else Join(parts[..|parts| - 1], sep) + sep + parts[|parts| - 1]
  }

  /** `s.replace(a, b)` for single characters. */
  function ReplaceChar(s: string, a: char, b: char): (r: string)
    ensures |r| == |s|
    ensures forall i :: 0 <= i < |s| ==> r[i] == if s[i] == a then b else s[i]
  {
    seq(|s|, i requires 0 <= i < |s| => if s[i] == a then b else s[i])
  }

  /** Python `str.title()` on ASCII: a letter is upper-cased when the character before it is not a
      letter, and lower-cased otherwise. */
  function TitleCase(s: string): (r: string)
    ensures |r| == |s|
  {
    seq(|s|, i requires 0 <= i < |s| =>
      if i == 0 || !IsLetter(s[i - 1]) then UpperChar(s[i]) else LowerChar(s[i]))
  }

  /** A non-whitespace character in front either starts a word of its own or joins the first
      word. */
  lemma WordsCons(rt: Runtime, c: char, x: string)
    requires !IsSpace(rt, c)
    ensures Words(rt, [c] + x) ==
      if x == [] || IsSpace(rt, x[0]) then [[c]] + Words(rt, x)
      else [[c] + Words(rt, x)[0]] + Words(rt, x)[1..]
  {
    var s := [c] + x;
    assert s[1..] == x;
    var n := WordLen(rt, x);
    assert WordLen(rt, s) == 1 + n;
    assert s[..1 + n] == [c] + x[..n];
    assert s[1 + n..] == x[n..];
  }

  /** Leading whitespace does not change the split. */
  lemma {:induction false} WordsTrimStart(rt: Runtime, x: string)
    ensures Words(rt, TrimStart(rt, x)) == Words(rt, x)
    decreases |x|
  {
    if x != [] && IsSpace(rt, x[0]) {
      WordsTrimStart(rt, x[1..]);
    }
  }

  /** Whitespace in front of nothing or of more whitespace does not end a word early. */
  lemma {:induction false} WordLenAppend(rt: Runtime, x: string, t: string)
    requires t == [] || IsSpace(rt, t[0])
    ensures WordLen(rt, x + t) == WordLen(rt, x)
    decreases |x|
  {
    if x == [] {
      assert x + t == t;
    } else if !IsSpace(rt, x[0]) {
      assert (x + t)[1..] == x[1..] + t;
      WordLenAppend(rt, x[1..], t);
    }
  }

  /** A string of whitespace only splits into nothing. */
  lemma {:induction false} WordsOfSpaces(rt: Runtime, t: string)
    requires forall i :: 0 <= i < |t| ==> IsSpace(rt, t[i])
    ensures Words(rt, t) == []
    decreases |t|
  {
    if t != [] {
      WordsOfSpaces(rt, t[1..]);
    }
  }

  /** Trailing whitespace does not change the split. */
  lemma {:induction false} WordsAppendSpaces(rt: Runtime, x: string, t: string)
    requires forall i :: 0 <= i < |t| ==> IsSpace(rt, t[i])
    ensures Words(rt, x + t) == Words(rt, x)
    decreases |x|
  {
    if x == [] {
      assert x + t == t;
      WordsOfSpaces(rt, t);
    } else if IsSpace(rt, x[0]) {
      assert (x + t)[1..] == x[1..] + t;
      WordsAppendSpaces(rt, x[1..], t);
    } else {
      var n := WordLen(rt, x);
      WordLenAppend(rt, x, t);
      assert (x + t)[..n] == x[..n];
      assert (x + t)[n..] == x[n..] + t;
      WordsAppendSpaces(rt, x[n..], t);
    }
  }

  /** Stripping does not change the split. */
  lemma WordsStrip(rt: Runtime, x: string)
    ensures Words(rt, Strip(rt, x)) == Words(rt, x)
  {
    var y := TrimStart(rt, x);
    var r := TrimEnd(rt, y);
    assert y == r + y[|r|..];
    WordsAppendSpaces(rt, r, y[|r|..]);
    WordsTrimStart(rt, x);
  }

  /** A leading word followed by whitespace (or nothing) is the first element of the split. */
  lemma WordsPrefix(rt: Runtime, w: string, rest: string)
    requires w != [] && !HasSpace(rt, w)
    requires rest == [] || IsSpace(rt, rest[0])
    ensures Words(rt, w + rest) == [w] + Words(rt, rest)
  {
    WordLenPrefix(rt, w, rest);
    var s := w + rest;
    assert s[..|w|] == w;
    assert s[|w|..] == rest;
  }

  lemma {:induction false} WordLenPrefix(rt: Runtime, w: string, rest: string)
    requires !HasSpace(rt, w)
    requires rest == [] || IsSpace(rt, rest[0])
    ensures WordLen(rt, w + rest) == |w|
    decreases |w|
  {
    if w == [] {
      assert w + rest == rest;
    } else {
      assert !IsSpace(rt, w[0]);
      assert !HasSpace(rt, w[1..]) by {
        forall i | 0 <= i < |w[1..]| ensures !IsSpace(rt, w[1..][i]) {
          assert w[1..][i] == w[i + 1];
        }
      }
      WordLenPrefix(rt, w[1..], rest);
      assert (w + rest)[1..] == w[1..] + rest;
    }
  }

  predicate NotDot(c: char) { c != '.' }

  /** `s.replace('.', '')`. */
  function WithoutDots(s: string): string { Filter(s, NotDot) }

  /** `s.replace(/\D/g, '')`: the digits of `s`, in order. */
  function DigitsOnly(s: string): (r: string)
    ensures AllDigits(r) && |r| <= |s|
  {
    Filter(s, IsDigit)
  }

  /** With the dots removed, a string is all digits exactly when it consists of digits and
      dots, and it is empty exactly when it consists of dots. */
  lemma WithoutDotsSpec(s: string)
    ensures AllDigits(WithoutDots(s)) <==> forall i :: 0 <= i < |s| ==> IsDigit(s[i]) || s[i] == '.'
    ensures WithoutDots(s) == [] <==> forall i :: 0 <= i < |s| ==> s[i] == '.'
  {
    var w := WithoutDots(s);
    forall x ensures x in w <==> x in s && x != '.' { FilterIn(s, NotDot, x); }
    if AllDigits(w) {
      forall i | 0 <= i < |s| ensures IsDigit(s[i]) || s[i] == '.' {
        if s[i] != '.' {
          assert s[i] in w;
          var j :| 0 <= j < |w| && w[j] == s[i];
        }
      }
    }
    if forall i :: 0 <= i < |s| ==> IsDigit(s[i]) || s[i] == '.' {
      forall j | 0 <= j < |w| ensures IsDigit(w[j]) {
        assert w[j] in w;
        var i :| 0 <= i < |s| && s[i] == w[j];
      }
    }
    if forall i :: 0 <= i < |s| ==> s[i] == '.' {
      FilterNone(s, NotDot);
    } else {
      var i :| 0 <= i < |s| && s[i] != '.';
      assert s[i] in w;
    }
  }
}
