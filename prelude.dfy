/** Shared vocabulary: optional values, results, instants and the few pieces of
    Python string behaviour the assistant relies on (decimal rendering of
    integers, `str.lower`, `str.title` and the `in` substring test), for ASCII text. */
module Prelude {

  datatype Option<+T> = None | Some(value: T)

  datatype Result<+R, +E> = Success(value: R) | Failure(error: E)

  /** A point in time, in microseconds (the resolution of Python's `datetime`). */
  type Instant = int

  const MicrosPerHour: int := 3_600_000_000
  const MicrosPerDay: int := 86_400_000_000

  /** `(later - earlier).days` of a Python `timedelta`: whole days, rounded down. */
  function DaysBetween(earlier: Instant, later: Instant): (d: int)
    ensures d * MicrosPerDay <= later - earlier < (d + 1) * MicrosPerDay
  {
    (later - earlier) / MicrosPerDay
  }

  /** `datetime.now() + timedelta(hours=h)`. */
  function HoursAfter(t: Instant, h: int): Instant
  {
    t + h * MicrosPerHour
  }

  /** The wall clock as the callers see it: the current instant and its text
      renderings, plus `datetime.fromisoformat`, which is `None` where Python
      raises (text that is not ISO, or a value that cannot be compared with now). */
  datatype Clock = Clock(
    now: Instant,
    iso: string,         // now.isoformat()
    dashedDate: string,  // now.strftime('%Y-%m-%d')
    dayStamp: string,    // now.strftime('%Y%m%d')
    minuteStamp: string, // now.strftime('%Y%m%d_%H%M')
    secondStamp: string, // now.strftime('%Y%m%d_%H%M%S')
    fromIso: string -> Option<Instant>)

  // ----- decimal rendering: Python's str() of a non-negative int -----

  function DigitChar(d: nat): (c: char)
    requires d < 10
    ensures '0' <= c <= '9'
  {
    "0123456789"[d]
  }

  function DigitValue(c: char): nat
  {
    if '0' <= c <= '9' then (c as int - '0' as int) as nat else 0
  }

  /** `str(n)` for a natural number. */
  function NatToString(n: nat): (s: string)
    ensures |s| >= 1
    ensures forall i :: 0 <= i < |s| ==> '0' <= s[i] <= '9'
    decreases n
  {
    if n < 10 then [DigitChar(n)] else NatToString(n / 10) + [DigitChar(n % 10)]
  }

  /** `int(s)` for a non-empty string of decimal digits. */
  function ParseDecimal(s: string): nat
  {
    if s == [] then 0 else ParseDecimal(s[..|s| - 1]) * 10 + DigitValue(s[|s| - 1])
  }

  lemma {:induction false} ParseRendered(n: nat)
    ensures ParseDecimal(NatToString(n)) == n
    decreases n
  {
    var s := NatToString(n);
    if n < 10 {
      assert s[..|s| - 1] == [];
    } else {
      var prefix := NatToString(n / 10);
      assert s[..|s| - 1] == prefix;
      ParseRendered(n / 10);
    }
  }

  /** Distinct numbers render as distinct strings. */
  lemma NatToStringInjective(a: nat, b: nat)
    ensures NatToString(a) == NatToString(b) ==> a == b
  {
    ParseRendered(a);
    ParseRendered(b);
  }

  /** A common prefix followed by distinct numbers gives distinct strings. */
  lemma PrefixedNumbersDistinct(prefix: string, a: nat, b: nat)
    requires a != b
    ensures prefix + NatToString(a) != prefix + NatToString(b)
  {
    if prefix + NatToString(a) == prefix + NatToString(b) {
      assert NatToString(a) == (prefix + NatToString(a))[|prefix|..];
      assert NatToString(b) == (prefix + NatToString(b))[|prefix|..];
      NatToStringInjective(a, b);
    }
  }

  // ----- ASCII case -----

  predicate IsUpper(c: char) { 'A' <= c <= 'Z' }
  predicate IsLower(c: char) { 'a' <= c <= 'z' }
  predicate IsLetter(c: char) { IsUpper(c) || IsLower(c) }

  function ToLowerChar(c: char): (r: char)
    ensures IsLetter(c) <==> IsLetter(r)
    ensures !IsLetter(c) ==> r == c
    ensures !IsUpper(r)
  {
    if IsUpper(c) then (c as int - 'A' as int + 'a' as int) as char else c
  }

  function ToUpperChar(c: char): (r: char)
    ensures IsLetter(c) <==> IsLetter(r)
    ensures !IsLetter(c) ==> r == c
    ensures !IsLower(r)
  {
    if IsLower(c) then (c as int - 'a' as int + 'A' as int) as char else c
  }

  /** `s.lower()`. */
  function Lower(s: string): (r: string)
    ensures |r| == |s|
    ensures forall i :: 0 <= i < |s| ==> r[i] == ToLowerChar(s[i])
  {
    if s == [] then [] else [ToLowerChar(s[0])] + Lower(s[1..])
  }

  lemma LowerConcat(a: string, b: string)
    ensures Lower(a + b) == Lower(a) + Lower(b)
  {
    var x, y := Lower(a + b), Lower(a) + Lower(b);
    forall i | 0 <= i < |a + b|
      ensures x[i] == y[i]
    {
      if i < |a| { assert (a + b)[i] == a[i]; } else { assert (a + b)[i] == b[i - |a|]; }
    }
    assert x == y;
  }

  /** `s.title()`: a letter becomes upper case when the character before it is
      not a letter, and lower case otherwise; other characters are kept. */
  function Title(s: string): (r: string)
    ensures |r| == |s|
    ensures forall i :: 0 <= i < |s| && !IsLetter(s[i]) ==> r[i] == s[i]
    ensures forall i :: 0 <= i < |s| && IsLetter(s[i]) ==>
      r[i] == if i == 0 || !IsLetter(s[i - 1]) then ToUpperChar(s[i]) else ToLowerChar(s[i])
  {
    TitleAfterShape(false, s);
    TitleAfter(false, s)
  }

  /** `Title` of the rest of a string, given whether the character before it
      is a letter. */
  function TitleAfter(afterLetter: bool, s: string): string
    decreases s
  {
    if s == [] then []
    else
      var c := s[0];
      var t := if !IsLetter(c) then c else if afterLetter then ToLowerChar(c) else ToUpperChar(c);
      [t] + TitleAfter(IsLetter(c), s[1..])
  }

  /** Title-casing keeps the length and leaves non-letters where they are; a
      letter is upper-cased at the start of a word and lower-cased inside one. */
  lemma {:induction false} TitleAfterShape(afterLetter: bool, s: string)
    ensures |TitleAfter(afterLetter, s)| == |s|
    ensures forall i :: 0 <= i < |s| && !IsLetter(s[i]) ==> TitleAfter(afterLetter, s)[i] == s[i]
    ensures forall i :: 0 <= i < |s| && IsLetter(s[i]) ==>
      TitleAfter(afterLetter, s)[i]
        == if (i == 0 && !afterLetter) || (i > 0 && !IsLetter(s[i - 1])) then ToUpperChar(s[i]) else ToLowerChar(s[i])
    decreases s
  {
    if s != [] {
      TitleAfterShape(IsLetter(s[0]), s[1..]);
      var t := TitleAfter(afterLetter, s);
      var rest := TitleAfter(IsLetter(s[0]), s[1..]);
      forall i | 1 <= i < |s| ensures t[i] == rest[i - 1] && s[1..][i - 1] == s[i] {
      }
    }
  }

  // ----- substring test: Python's `needle in haystack` -----

  /** `needle` starts at position `i` of `haystack`. */
  predicate OccursAt(haystack: string, needle: string, i: int)
  {
    0 <= i <= |haystack| - |needle| && haystack[i..i + |needle|] == needle
  }

  predicate Contains(haystack: string, needle: string)
  {
    exists i :: 0 <= i <= |haystack| - |needle| && OccursAt(haystack, needle, i)
  }

  predicate AllLetters(w: string)
  {
    forall i :: 0 <= i < |w| ==> IsLetter(w[i])
  }

  lemma WindowIsLetters(s: string, w: string, i: int)
    requires OccursAt(s, w, i) && AllLetters(w)
    ensures forall p :: i <= p < i + |w| ==> IsLetter(s[p])
  {
    forall p | i <= p < i + |w| ensures IsLetter(s[p]) {
      assert s[p] == s[i..i + |w|][p - i];
    }
  }

  /** A word made of letters occurs in `a + b`, where a non-letter ends `a` or
      starts `b`, exactly when it occurs in `a` or in `b`: no occurrence can
      straddle the boundary. */
  lemma ContainsAcrossBoundary(a: string, b: string, w: string)
    requires |w| > 0 && AllLetters(w)
    requires (|a| > 0 && !IsLetter(a[|a| - 1])) || (|b| > 0 && !IsLetter(b[0]))
    ensures Contains(a + b, w) <==> Contains(a, w) || Contains(b, w)
  {
    if Contains(a + b, w) {
      ContainsSplits(a, b, w);
    }
    if Contains(a, w) || Contains(b, w) {
      ContainsExtends(a, b, w);
    }
  }

  /** A match in `a + b` that cannot straddle the boundary lies in one part. */
  lemma ContainsSplits(a: string, b: string, w: string)
    requires |w| > 0 && AllLetters(w)
    requires (|a| > 0 && !IsLetter(a[|a| - 1])) || (|b| > 0 && !IsLetter(b[0]))
    requires Contains(a + b, w)
    ensures Contains(a, w) || Contains(b, w)
  {
    var s := a + b;
    var i :| 0 <= i <= |s| - |w| && OccursAt(s, w, i);
    WindowIsLetters(s, w, i);
    if |a| > 0 { assert s[|a| - 1] == a[|a| - 1]; }
    if |b| > 0 { assert s[|a|] == b[0]; }
    if i + |w| <= |a| {
      assert a[i..i + |w|] == s[i..i + |w|];
      assert OccursAt(a, w, i);
    } else if i >= |a| {
      assert b[i - |a|..i - |a| + |w|] == s[i..i + |w|];
      assert OccursAt(b, w, i - |a|);
    } else {
      assert false;
    }
  }

  /** A match in either part is a match in `a + b`. */
  lemma ContainsExtends(a: string, b: string, w: string)
    requires Contains(a, w) || Contains(b, w)
    ensures Contains(a + b, w)
  {
    var s := a + b;
    if Contains(a, w) {
      var i :| 0 <= i <= |a| - |w| && OccursAt(a, w, i);
      assert s[i..i + |w|] == a[i..i + |w|];
      assert OccursAt(s, w, i);
    } else {
      var i :| 0 <= i <= |b| - |w| && OccursAt(b, w, i);
      assert s[i + |a|..i + |a| + |w|] == b[i..i + |w|];
      assert OccursAt(s, w, i + |a|);
    }
  }

  /** A word made of letters does not occur in text without letters. */
  lemma NoLetterNoMatch(s: string, w: string)
    requires |w| > 0 && AllLetters(w)
    requires forall i :: 0 <= i < |s| ==> !IsLetter(s[i])
    ensures !Contains(s, w)
  {
    forall i | 0 <= i <= |s| - |w| ensures !OccursAt(s, w, i) {
      assert s[i..i + |w|][0] == s[i];
      assert IsLetter(w[0]);
    }
  }

  /** `sep.join(parts)` for a one-character separator. */
  function Join(parts: seq<string>, sep: char): string
    requires |parts| >= 1
  {
    if |parts| == 1 then parts[0] else parts[0] + [sep] + Join(parts[1..], sep)
  }

  /** Joining the pieces with the separator gives the string back. */
  lemma {:induction false} SplitJoin(s: string, sep: char)
    ensures Join(Split(s, sep), sep) == s
  {
    if s != [] {
      SplitJoin(s[1..], sep);
      var rest := Split(s[1..], sep);
      if s[0] == sep {
        assert Split(s, sep)[1..] == rest;
        assert s == [sep] + s[1..];
      } else {
        var parts := Split(s, sep);
        assert parts[0] == [s[0]] + rest[0] && parts[1..] == rest[1..];
        if |rest| > 1 {
          assert Join(rest, sep) == rest[0] + [sep] + Join(rest[1..], sep);
        }
        assert s == [s[0]] + s[1..];
      }
    }
  }

  /** A string without the separator is a single piece. */
  lemma {:induction false} SplitNoSep(s: string, sep: char)
    requires sep !in s
    ensures Split(s, sep) == [s]
  {
    if s != [] {
      assert sep !in s[1..] by { forall c | c in s[1..] ensures c in s { } }
      SplitNoSep(s[1..], sep);
      assert s == [s[0]] + s[1..];
    }
  }

  /** Splitting at a separator splits the two sides independently. */
  lemma {:induction false} SplitAround(a: string, b: string, sep: char)
    ensures Split(a + [sep] + b, sep) == Split(a, sep) + Split(b, sep)
  {
    var s := a + [sep] + b;
    if a == [] {
      assert s == [sep] + b;
      assert s[1..] == b;
    } else {
      assert s[0] == a[0] && s[1..] == a[1..] + [sep] + b;
      SplitAround(a[1..], b, sep);
    }
  }

  /** The pieces of `s.split(sep)` for a one-character separator. */
  function Split(s: string, sep: char): (parts: seq<string>)
    ensures |parts| >= 1
    ensures forall p :: p in parts ==> sep !in p
  {
    if s == [] then [""]
    else
      var rest := Split(s[1..], sep);
      assert rest[0] in rest;
      assert forall p :: p in rest[1..] ==> p in rest;
      if s[0] == sep then [""] + rest else [[s[0]] + rest[0]] + rest[1..]
  }
}
