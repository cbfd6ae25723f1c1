/**
 * The JavaScript string built-ins that the dashboard's filters, forms and
 * call screens rely on: `toLowerCase`, `includes`, `trim`, `split`, `join`,
 * `replace` with a string pattern, `Number.prototype.toString` for integers,
 * `padStart`, and the `||` default of a possibly-empty string.
 */
module JsText {
  import opened Wrappers

  // ---------------------------------------------------------------------------
  // toLowerCase

  /** Lower-cases one character; only the ASCII letters A-Z are folded. */
  function LowerChar(c: char): (r: char)
    ensures 'A' <= c <= 'Z' ==> 'a' <= r <= 'z'
    ensures !('A' <= c <= 'Z') ==> r == c
  {
    if 'A' <= c <= 'Z' then (c as int + 32) as char else c
  }

  /** `s.toLowerCase()`, character by character. */
  function ToLower(s: string): (r: string)
    ensures |r| == |s|
  {
    seq(|s|, i requires 0 <= i < |s| => LowerChar(s[i]))
  }

  /** Lower-casing twice is lower-casing once. */
  lemma ToLowerIdempotent(s: string)
    ensures ToLower(ToLower(s)) == ToLower(s)
  {
    var once := ToLower(s);
    forall i | 0 <= i < |s| ensures ToLower(once)[i] == once[i] {
      assert LowerChar(LowerChar(s[i])) == LowerChar(s[i]);
    }
  }

  /** Lower-casing distributes over concatenation. */
  lemma ToLowerConcat(a: string, b: string)
    ensures ToLower(a + b) == ToLower(a) + ToLower(b)
  {
    assert forall i | 0 <= i < |a + b| :: ToLower(a + b)[i] == (ToLower(a) + ToLower(b))[i];
  }

  // ---------------------------------------------------------------------------
  // includes

  predicate IsPrefix(p: string, s: string) {
    |p| <= |s| && s[..|p|] == p
  }

  /** `t` occurs in `s` starting at position `i`. */
  predicate OccursAt(s: string, t: string, i: nat) {
    i + |t| <= |s| && s[i..i + |t|] == t
  }

  /** `s.includes(t)`: `t` occurs in `s` at some position. */
  predicate Includes(s: string, t: string) {
    exists i: nat :: i <= |s| && OccursAt(s, t, i)
  }

  /** An occurrence of `t` at position `i` makes `s.includes(t)` true. */
  lemma IncludesAt(s: string, t: string, i: nat)
    requires OccursAt(s, t, i)
    ensures Includes(s, t)
  {
  }

  /** An occurrence in the tail of `s` is an occurrence in `s`. */
  lemma IncludesTail(s: string, t: string)
    requires |s| > 0 && Includes(s[1..], t)
    ensures Includes(s, t)
  {
    var i: nat :| i <= |s[1..]| && OccursAt(s[1..], t, i);
    assert s[1..][i..i + |t|] == s[i + 1..i + 1 + |t|];
    IncludesAt(s, t, i + 1);
  }

  /** The empty string is included in every string. */
  lemma IncludesEmpty(s: string)
    ensures Includes(s, "")
  {
    assert OccursAt(s, "", 0);
  }

  /** A string that lacks one of the characters of `t` does not include `t`. */
  lemma MissingCharExcludes(s: string, t: string, c: char)
    requires c in t && c !in s
    ensures !Includes(s, t)
  {
  }

  /** An occurrence in a part of a concatenation is an occurrence in the whole. */
  lemma IncludesInConcat(a: string, b: string, t: string)
    requires Includes(a, t) || Includes(b, t)
    ensures Includes(a + b, t)
  {
    if Includes(a, t) {
      var i: nat :| i <= |a| && OccursAt(a, t, i);
      assert (a + b)[i..i + |t|] == a[i..i + |t|];
      IncludesAt(a + b, t, i);
    } else {
      var i: nat :| i <= |b| && OccursAt(b, t, i);
      assert (a + b)[|a| + i..|a| + i + |t|] == b[i..i + |t|];
      IncludesAt(a + b, t, |a| + i);
    }
  }

  /** The middle part of a three-part concatenation is included in it. */
  lemma IncludesMiddle(a: string, t: string, b: string)
    ensures Includes(a + t + b, t)
  {
    assert (a + t + b)[|a|..|a| + |t|] == t;
    IncludesAt(a + t + b, t, |a|);
  }

  /** Case-insensitive containment, the test every search box of the dashboard uses. */
  predicate IncludesIgnoringCase(s: string, term: string) {
    Includes(ToLower(s), ToLower(term))
  }

  // ---------------------------------------------------------------------------
  // trim

  /** The characters `String.prototype.trim` removes: white space and line terminators. */
  predicate IsWhiteSpace(c: char) {
    c == ' ' || c == '\t' || c == '\n' || c == '\r' || c == '\U{000B}' || c == '\U{000C}'
    || c == '\U{00A0}' || c == '\U{1680}' || ('\U{2000}' <= c <= '\U{200A}')
    || c == '\U{2028}' || c == '\U{2029}' || c == '\U{202F}' || c == '\U{205F}'
    || c == '\U{3000}' || c == '\U{FEFF}'
  }

  function TrimStart(s: string): (r: string)
    ensures |r| <= |s| && r == s[|s| - |r|..]
    ensures r == [] || !IsWhiteSpace(r[0])
    ensures forall i :: 0 <= i < |s| - |r| ==> IsWhiteSpace(s[i])
  {
    if |s| > 0 && IsWhiteSpace(s[0]) then TrimStart(s[1..]) else s
  }

  function TrimEnd(s: string): (r: string)
    ensures |r| <= |s| && r == s[..|r|]
    ensures r == [] || !IsWhiteSpace(r[|r| - 1])
    ensures forall i :: |r| <= i < |s| ==> IsWhiteSpace(s[i])
  {
    if |s| > 0 && IsWhiteSpace(s[|s| - 1]) then TrimEnd(s[..|s| - 1]) else s
  }

  /** `s.trim()`: the slice of `s` left after dropping white space at both ends. */
  function Trim(s: string): (r: string)
    ensures r == [] || (!IsWhiteSpace(r[0]) && !IsWhiteSpace(r[|r| - 1]))
    ensures Includes(s, r)
  {
    var front := TrimStart(s);
    var r := TrimEnd(front);
    assert OccursAt(s, r, |s| - |front|) by {
      assert r == s[|s| - |front|..|s| - |front| + |r|];
    }
    IncludesAt(s, r, |s| - |front|);
    r
  }

  /**
   * `trim` removes white space at the two ends and nothing else: the result
   * is the slice of `s` starting where `TrimStart` stops, character for
   * character, and every character outside that slice is white space.
   */
  lemma {:induction false} TrimSlice(s: string)
    ensures var k := |s| - |TrimStart(s)|; var r := Trim(s);
      k + |r| <= |s| && (forall j :: 0 <= j < |r| ==> r[j] == s[k + j])
      && (forall i :: 0 <= i < k ==> IsWhiteSpace(s[i]))
      && (forall i :: k + |r| <= i < |s| ==> IsWhiteSpace(s[i]))
  {
    TrimmedChars(s);
    TrimmedTail(s);
  }

  lemma {:induction false} TrimmedChars(s: string)
    ensures var k := |s| - |TrimStart(s)|; var r := Trim(s);
      k + |r| <= |s| && forall j :: 0 <= j < |r| ==> r[j] == s[k + j]
  {
    WhiteEnds(s, TrimStart(s), TrimEnd(TrimStart(s)));
  }

  lemma {:induction false} TrimmedTail(s: string)
    ensures var k := |s| - |TrimStart(s)|; var r := Trim(s);
      k + |r| <= |s| && forall i :: k + |r| <= i < |s| ==> IsWhiteSpace(s[i])
  {
    WhiteEnds(s, TrimStart(s), TrimEnd(TrimStart(s)));
  }

  /** A white-space suffix `r` of `s`, cut down by a white-space tail, is a slice with white space around it. */
  lemma {:induction false} WhiteEnds(s: string, front: string, r: string)
    requires |front| <= |s| && front == s[|s| - |front|..]
    requires |r| <= |front| && r == front[..|r|]
    requires forall i :: 0 <= i < |s| - |front| ==> IsWhiteSpace(s[i])
    requires forall i :: |r| <= i < |front| ==> IsWhiteSpace(front[i])
    ensures var k := |s| - |front|;
      k + |r| <= |s| && (forall j :: 0 <= j < |r| ==> r[j] == s[k + j])
      && (forall i :: 0 <= i < k ==> IsWhiteSpace(s[i]))
      && (forall i :: k + |r| <= i < |s| ==> IsWhiteSpace(s[i]))
  {
    var k := |s| - |front|;
    forall i | k + |r| <= i < |s|
      ensures IsWhiteSpace(s[i])
    {
      assert s[i] == front[i - k];
    }
  }

  /** A leading space makes no difference to the trimmed string. */
  lemma TrimLeadingSpace(t: string)
    ensures Trim(" " + t) == Trim(t)
  {
    assert (" " + t)[1..] == t;
  }

  /** `!s.trim()`: the string is empty or white space only. */
  lemma {:induction false} TrimEmptyIffBlank(s: string)
    ensures Trim(s) == [] <==> forall i :: 0 <= i < |s| ==> IsWhiteSpace(s[i])
  {
    var front := TrimStart(s);
    if Trim(s) == [] {
      assert front == [];
    } else {
      var k: nat :| k <= |s| && OccursAt(s, Trim(s), k);
      assert s[k] == Trim(s)[0];
    }
  }

  // ---------------------------------------------------------------------------
  // split and join

  /** Number of occurrences of `c` in `s`. */
  function CountChar(s: string, c: char): nat {
    if s == [] then 0 else (if s[0] == c then 1 else 0) + CountChar(s[1..], c)
  }

  /**
   * `s.split(sep)` for a one-character separator: the pieces between
   * separators, including empty ones; `"".split(",")` is `[""]`.
   */
  function Split(s: string, sep: char): (parts: seq<string>)
    ensures |parts| == CountChar(s, sep) + 1
    ensures forall p :: p in parts ==> sep !in p
  {
    if s == [] then [""]
    else
      var rest := Split(s[1..], sep);
      if s[0] == sep then [""] + rest
      else [[s[0]] + rest[0]] + rest[1..]
  }

  /** A piece without the separator splits into itself. */
  lemma {:induction false} SplitNoSeparator(a: string, sep: char)
    requires sep !in a
    ensures Split(a, sep) == [a]
  {
    if a != [] {
      SplitNoSeparator(a[1..], sep);
      assert [a[0]] + a[1..] == a;
    }
  }

  /** A separator-free piece followed by the separator comes off as the first part. */
  lemma {:induction false} SplitAfterPiece(a: string, sep: char, b: string)
    requires sep !in a
    ensures Split(a + [sep] + b, sep) == [a] + Split(b, sep)
  {
    var s := a + [sep] + b;
    if a == [] {
      assert s[1..] == b;
    } else {
      assert s[1..] == a[1..] + [sep] + b;
      SplitAfterPiece(a[1..], sep, b);
      assert [a[0]] + a[1..] == a;
    }
  }

  /** `parts.join(sep)`. */
  function Join(parts: seq<string>, sep: string): string {
    if parts == [] then ""
    else if |parts| == 1 then parts[0]
    else parts[0] + sep + Join(parts[1..], sep)
  }

  /** Joining the pieces of a split with the same separator gives back the string. */
  lemma {:induction false} JoinSplit(s: string, sep: char)
    ensures Join(Split(s, sep), [sep]) == s
  {
    if s != [] {
      var rest := Split(s[1..], sep);
      JoinSplit(s[1..], sep);
      if s[0] == sep {
        assert Split(s, sep) == [""] + rest;
        assert ([""] + rest)[1..] == rest;
      } else if |rest| == 1 {
        assert Split(s, sep) == [[s[0]] + rest[0]];
      } else {
        assert Split(s, sep)[1..] == rest[1..];
        assert Join(rest, [sep]) == rest[0] + [sep] + Join(rest[1..], [sep]);
      }
    }
  }

  // ---------------------------------------------------------------------------
  // replace

  /**
   * The replacement text `replace` inserts for one match (GetSubstitution in
   * section 22.1.3.19.1 of ECMA-262): `$$` is a dollar sign, `$&` the matched
   * text, `` $` `` the text before the match and `$'` the text after it. A
   * string pattern has no capture groups, so every other `$` is kept as it is.
   */
  function Substitution(replacement: string, matched: string, before: string, after: string): (r: string)
    ensures '$' !in replacement ==> r == replacement
    decreases |replacement|
  {
    if replacement == [] then []
    else if |replacement| >= 2 && replacement[0] == '$' && replacement[1] in "$&`'" then
      var inserted := match replacement[1]
        case '$' => "$"
        case '&' => matched
        case '`' => before
        case _ => after;
      inserted + Substitution(replacement[2..], matched, before, after)
    else
      [replacement[0]] + Substitution(replacement[1..], matched, before, after)
  }

  /** Each of the four patterns on its own stands for what it names. */
  lemma SubstitutionPatterns(matched: string, before: string, after: string)
    ensures Substitution("$$", matched, before, after) == "$"
    ensures Substitution("$&", matched, before, after) == matched
    ensures Substitution("$`", matched, before, after) == before
    ensures Substitution("$'", matched, before, after) == after
  {
    assert "$$"[2..] == [] && "$&"[2..] == [] && "$`"[2..] == [] && "$'"[2..] == [];
    assert "$" + [] == "$" && matched + [] == matched && before + [] == before && after + [] == after;
  }

  /**
   * `s.replace(pattern, replacement)` with a string pattern: only the first
   * occurrence is replaced; with no occurrence `s` comes back unchanged.
   */
  function ReplaceFirst(s: string, pattern: string, replacement: string): string {
    ReplaceScan([], s, pattern, replacement)
  }

  /** The search for the first occurrence, with `done` the text already passed over. */
  function ReplaceScan(done: string, s: string, pattern: string, replacement: string): string
    decreases |s|
  {
    if IsPrefix(pattern, s) then
      done + Substitution(replacement, pattern, done, s[|pattern|..]) + s[|pattern|..]
    else if s == [] then done
    else ReplaceScan(done + [s[0]], s[1..], pattern, replacement)
  }

  /** A string that does not include the pattern is left as it is. */
  lemma ReplaceFirstAbsent(s: string, pattern: string, replacement: string)
    requires !Includes(s, pattern)
    ensures ReplaceFirst(s, pattern, replacement) == s
  {
    ReplaceScanAbsent([], s, pattern, replacement);
    assert [] + s == s;
  }

  lemma {:induction false} ReplaceScanAbsent(done: string, s: string, pattern: string, replacement: string)
    requires !Includes(s, pattern)
    ensures ReplaceScan(done, s, pattern, replacement) == done + s
    decreases |s|
  {
    assert !IsPrefix(pattern, s) by {
      if IsPrefix(pattern, s) {
        IncludesAt(s, pattern, 0);
      }
    }
    if s != [] {
      if Includes(s[1..], pattern) {
        IncludesTail(s, pattern);
      }
      ReplaceScanAbsent(done + [s[0]], s[1..], pattern, replacement);
      assert (done + [s[0]]) + s[1..] == done + s;
    } else {
      assert done + s == done;
    }
  }

  /**
   * Text in front of the first occurrence is kept, the occurrence becomes the
   * substituted replacement, and everything after it (later occurrences
   * included) is kept: the prefix `a` is free of the pattern's first
   * character, so the pattern cannot start inside it.
   */
  lemma ReplaceFirstOccurrence(a: string, pattern: string, c: string, replacement: string)
    requires |pattern| > 0 && pattern[0] !in a
    ensures ReplaceFirst(a + pattern + c, pattern, replacement)
            == a + Substitution(replacement, pattern, a, c) + c
  {
    ReplaceScanOccurrence([], a, pattern, c, replacement);
    assert [] + a == a;
  }

  lemma {:induction false} ReplaceScanOccurrence(done: string, a: string, pattern: string, c: string, replacement: string)
    requires |pattern| > 0 && pattern[0] !in a
    ensures ReplaceScan(done, a + pattern + c, pattern, replacement)
            == done + a + Substitution(replacement, pattern, done + a, c) + c
    decreases |a|
  {
    var s := a + pattern + c;
    if a == [] {
      assert s == pattern + c && IsPrefix(pattern, s);
      assert s[|pattern|..] == c;
      assert done + a == done;
    } else {
      assert s[0] == a[0] != pattern[0];
      assert !IsPrefix(pattern, s);
      assert s[1..] == a[1..] + pattern + c;
      ReplaceScanOccurrence(done + [a[0]], a[1..], pattern, c, replacement);
      assert (done + [a[0]]) + a[1..] == done + a;
    }
  }

  // ---------------------------------------------------------------------------
  // numbers as text

  predicate IsDigit(c: char) {
    '0' <= c <= '9'
  }

  function DigitChar(d: nat): (c: char)
    requires d < 10
    ensures IsDigit(c)
  {
    ('0' as int + d) as char
  }

  /** The decimal value of a string of digits (the inverse of `NatToString`). */
  function DigitsValue(s: string): nat
    requires forall i :: 0 <= i < |s| ==> IsDigit(s[i])
  {
    if s == [] then 0
    else DigitsValue(s[..|s| - 1]) * 10 + DigitValue(s[|s| - 1])
  }

  function DigitValue(c: char): (d: nat)
    requires IsDigit(c)
    ensures d < 10
  {
    c as int - '0' as int
  }

  /** `n.toString()` for a non-negative integer: decimal digits, no leading zero. */
  function NatToString(n: nat): (s: string)
    ensures |s| >= 1
    ensures forall i :: 0 <= i < |s| ==> IsDigit(s[i])
    ensures n < 10 <==> |s| == 1
  {
    if n < 10 then [DigitChar(n)] else NatToString(n / 10) + [DigitChar(n % 10)]
  }

  /** Reading back the digits of `n` gives `n`. */
  lemma {:induction false} NatToStringRoundTrip(n: nat)
    ensures DigitsValue(NatToString(n)) == n
  {
    if n >= 10 {
      var s := NatToString(n);
      NatToStringRoundTrip(n / 10);
      assert s[..|s| - 1] == NatToString(n / 10);
    }
  }

  /** `i.toString()` for any integer: a minus sign before the digits of a negative one. */
  function IntToString(i: int): (s: string)
    ensures |s| >= 1
    ensures i >= 0 ==> s == NatToString(i)
    ensures i < 0 ==> s[0] == '-'
  {
    if i < 0 then "-" + NatToString(-i) else NatToString(i)
  }

  /** Every character of `s` is a decimal digit. */
  predicate AllDigits(s: string) {
    forall i :: 0 <= i < |s| ==> IsDigit(s[i])
  }

  /**
   * `Number(text)` for integer texts: white space around the number is
   * ignored, a blank text is 0, and an optional sign followed by decimal
   * digits is that integer. None stands for NaN, which every other text is
   * taken to give.
   */
  function TextNumber(text: string): Option<int> {
    TrimmedNumber(Trim(text))
  }

  /** The number a text without surrounding white space stands for. */
  function TrimmedNumber(t: string): (n: Option<int>)
    ensures t == "" ==> n == Some(0)
    ensures AllDigits(t) ==> n == Some(DigitsValue(t))
  {
    if t == "" then Some(0)
    else if AllDigits(t) then Some(DigitsValue(t))
    else if |t| >= 2 && (t[0] == '-' || t[0] == '+') && AllDigits(t[1..]) then
      var magnitude: int := DigitsValue(t[1..]);
      Some(if t[0] == '-' then -magnitude else magnitude)
    else None
  }

  /** `Number(String(n))` is `n`: the decimal text of an integer reads back as that integer. */
  lemma TextNumberRoundTrip(n: int)
    ensures TextNumber(IntToString(n)) == Some(n)
  {
    if n >= 0 {
      NatNumberRoundTrip(n);
    } else {
      NegNumberRoundTrip(n);
    }
  }

  lemma NatNumberRoundTrip(n: nat)
    ensures TextNumber(IntToString(n)) == Some(n)
  {
    var s := NatToString(n);
    TextNumberUnpadded(s);
    NatToStringRoundTrip(n);
  }

  lemma NegNumberRoundTrip(n: int)
    requires n < 0
    ensures TextNumber(IntToString(n)) == Some(n)
  {
    NegTrimmed(n);
    NegUnpadded(n);
  }

  lemma NegTrimmed(n: int)
    requires n < 0
    ensures TrimmedNumber(IntToString(n)) == Some(n)
  {
    var digits := NatToString(-n);
    NatToStringRoundTrip(-n);
    NegativeNumber(digits);
    assert IntToString(n) == "-" + digits;
  }

  lemma NegUnpadded(n: int)
    requires n < 0
    ensures Trim(IntToString(n)) == IntToString(n)
  {
    var digits := NatToString(-n);
    var s := IntToString(n);
    assert s[|s| - 1] == digits[|digits| - 1];
    TrimUnpadded(s);
  }

  /** With no white space at either end, `Number` reads the text as it is. */
  lemma TextNumberUnpadded(s: string)
    requires s != [] && !IsWhiteSpace(s[0]) && !IsWhiteSpace(s[|s| - 1])
    ensures TextNumber(s) == TrimmedNumber(s)
  {
    TrimUnpadded(s);
  }

  /** A minus sign before a string of digits gives the negated value. */
  lemma NegativeNumber(digits: string)
    requires digits != [] && AllDigits(digits)
    ensures TrimmedNumber("-" + digits) == Some(-(DigitsValue(digits) as int))
  {
    var s := "-" + digits;
    assert s[1..] == digits;
    assert !IsDigit(s[0]);
  }

  /** A text that starts and ends with something other than white space is its own trim. */
  lemma TrimUnpadded(s: string)
    requires s != [] && !IsWhiteSpace(s[0]) && !IsWhiteSpace(s[|s| - 1])
    ensures Trim(s) == s
  {
    assert TrimStart(s) == s;
    assert TrimEnd(s) == s;
  }

  /** `s.padStart(width, fill)`: `fill` repeated in front until `s` is `width` long. */
  function PadStart(s: string, width: nat, fill: char): (r: string)
    ensures |r| == if |s| >= width then |s| else width
    ensures r[|r| - |s|..] == s
    ensures forall i :: 0 <= i < |r| - |s| ==> r[i] == fill
    decreases width - |s|
  {
    if |s| >= width then s else PadStart([fill] + s, width, fill)
  }

  /** Leading zeros do not change the value of a string of digits. */
  lemma {:induction false} LeadingZerosValue(zeros: string, s: string)
    requires forall i :: 0 <= i < |zeros| ==> zeros[i] == '0'
    requires forall i :: 0 <= i < |s| ==> IsDigit(s[i])
    ensures DigitsValue(zeros + s) == DigitsValue(s)
    decreases |s|
  {
    if s == [] {
      LeadingZerosOnly(zeros);
      assert zeros + s == zeros;
    } else {
      assert (zeros + s)[..|zeros + s| - 1] == zeros + s[..|s| - 1];
      LeadingZerosValue(zeros, s[..|s| - 1]);
    }
  }

  lemma {:induction false} LeadingZerosOnly(zeros: string)
    requires forall i :: 0 <= i < |zeros| ==> zeros[i] == '0'
    ensures DigitsValue(zeros) == 0
  {
    if zeros != [] {
      LeadingZerosOnly(zeros[..|zeros| - 1]);
    }
  }

  // ---------------------------------------------------------------------------
  // `||` defaults

  /** `value || fallback` for a string that may be undefined: the empty string is falsy too. */
  function StringOr(value: Option<string>, fallback: string): (r: string)
    ensures value.Some? && value.value != "" ==> r == value.value
    ensures value.None? || value.value == "" ==> r == fallback
    ensures r == "" <==> (value.None? || value.value == "") && fallback == ""
    ensures fallback != "" ==> r != ""
  {
    if value.Some? && value.value != "" then value.value else fallback
  }

  /** `value || fallback` for a number that may be undefined: zero is falsy too. */
  function NumberOr(value: Option<int>, fallback: int): (r: int)
    ensures value.Some? && value.value != 0 ==> r == value.value
    ensures value.None? || value.value == 0 ==> r == fallback
    ensures r == 0 <==> (value.None? || value.value == 0) && fallback == 0
    ensures fallback != 0 ==> r != 0
  {
    if value.Some? && value.value != 0 then value.value else fallback
  }

  /** A string form field counts as filled in when it is defined and non-empty (truthy). */
  predicate Filled(value: Option<string>) {
    value.Some? && value.value != ""
  }
}
