/**
 * String helpers with the meaning of the JavaScript string methods that the
 * application uses (startsWith, endsWith, includes, trim, split, toLowerCase).
 * Strings are sequences of characters; no encoding is modelled.
 */
module Strings {
  import opened Wrappers

  predicate StartsWith(s: string, prefix: string)
  {
    |prefix| <= |s| && s[..|prefix|] == prefix
  }

  predicate EndsWith(s: string, suffix: string)
  {
    |suffix| <= |s| && s[|s| - |suffix|..] == suffix
  }

  /** `sub` occurs in `s` starting at index `i`. */
  predicate OccursAt(s: string, sub: string, i: int)
  {
    0 <= i <= |s| - |sub| && s[i..i + |sub|] == sub
  }

  /** `s.includes(sub)`. */
  predicate Contains(s: string, sub: string)
  {
    exists i | 0 <= i <= |s| - |sub| :: OccursAt(s, sub, i)
  }

  /** A text that contains a word contains every prefix of that word. */
  lemma ContainsPrefix(s: string, word: string, prefix: string)
    requires Contains(s, word) && StartsWith(word, prefix)
    ensures Contains(s, prefix)
  {
    var i :| 0 <= i <= |s| - |word| && OccursAt(s, word, i);
    assert s[i..i + |prefix|] == s[i..i + |word|][..|prefix|];
    assert OccursAt(s, prefix, i);
  }

  /** What occurs in a substring of `s` occurs in `s`. */
  lemma ContainsTransitive(s: string, w: string, v: string)
    requires Contains(s, w) && Contains(w, v)
    ensures Contains(s, v)
  {
    var i :| 0 <= i <= |s| - |w| && OccursAt(s, w, i);
    var j :| 0 <= j <= |w| - |v| && OccursAt(w, v, j);
    forall k | 0 <= k < |v|
      ensures s[i + j..i + j + |v|][k] == v[k]
    {
      assert v[k] == w[j + k] == s[i..i + |w|][j + k];
    }
    assert OccursAt(s, v, i + j);
  }

  // ---- ASCII case folding (String.prototype.toLowerCase restricted to A-Z) ----

  predicate IsUpper(c: char)
  {
    'A' <= c <= 'Z'
  }

  function LowerChar(c: char): (r: char)
    ensures !IsUpper(r)
    ensures !IsUpper(c) ==> r == c
  {
    if IsUpper(c) then (c as int + 32) as char else c
  }

  function Lower(s: string): (r: string)
    ensures |r| == |s|
    ensures forall i :: 0 <= i < |s| ==> r[i] == LowerChar(s[i])
  {
    seq(|s|, i requires 0 <= i < |s| => LowerChar(s[i]))
  }

  lemma LowerIdempotent(s: string)
    ensures Lower(Lower(s)) == Lower(s)
  {
  }

  // ---- whitespace as JavaScript's \s and String.prototype.trim see it ----

  predicate IsSpace(c: char)
  {
    c == ' ' || c == '\t' || c == '\n' || c == '\U{000B}' || c == '\U{000C}' || c == '\r'
    || c == '\U{00A0}' || c == '\U{1680}' || ('\U{2000}' <= c <= '\U{200A}')
    || c == '\U{2028}' || c == '\U{2029}' || c == '\U{202F}' || c == '\U{205F}'
    || c == '\U{3000}' || c == '\U{FEFF}'
  }

  predicate AllSpace(s: string)
  {
    forall i :: 0 <= i < |s| ==> IsSpace(s[i])
  }

  function TrimStart(s: string): (r: string)
    ensures |r| <= |s| && r == s[|s| - |r|..]
    ensures AllSpace(s[..|s| - |r|])
    ensures r != [] ==> !IsSpace(r[0])
    ensures r == [] <==> AllSpace(s)
  {
    if s != [] && IsSpace(s[0]) then
      var r := TrimStart(s[1..]);
      TrimStartStep(s, r);
      r
    else s
  }

  /** One step of TrimStart: skipping a leading space keeps its guarantees. */
  lemma TrimStartStep(s: string, r: string)
    requires s != [] && IsSpace(s[0])
    requires |r| <= |s| - 1 && r == s[1..][|s| - 1 - |r|..]
    requires AllSpace(s[1..][..|s| - 1 - |r|])
    requires r != [] ==> !IsSpace(r[0])
    ensures r == s[|s| - |r|..]
    ensures AllSpace(s[..|s| - |r|])
    ensures r == [] <==> AllSpace(s)
  {
    assert s[1..][|s| - 1 - |r|..] == s[|s| - |r|..];
    assert s[..|s| - |r|] == [s[0]] + s[1..][..|s| - 1 - |r|];
    if r != [] {
      assert s[|s| - |r|] == r[0];
    } else {
      assert s[..|s|] == s;
    }
  }

  function TrimEnd(s: string): (r: string)
    ensures |r| <= |s| && r == s[..|r|]
    ensures AllSpace(s[|r|..])
    ensures r != [] ==> !IsSpace(r[|r| - 1])
    ensures r == [] <==> AllSpace(s)
  {
    if s != [] && IsSpace(s[|s| - 1]) then
      assert AllSpace(s) <==> AllSpace(s[..|s| - 1]) by {
        assert forall i :: 0 <= i < |s| - 1 ==> s[i] == s[..|s| - 1][i];
      }
      TrimEnd(s[..|s| - 1])
    else s
  }

  /** `s.trim()`: the infix left after stripping white space at both ends. */
  function Trim(s: string): (r: string)
    ensures Contains(s, r)
    ensures exists i, j :: 0 <= i <= j <= |s| && r == s[i..j] && AllSpace(s[..i]) && AllSpace(s[j..])
    ensures r != [] ==> !IsSpace(r[0]) && !IsSpace(r[|r| - 1])
    ensures r == [] <==> AllSpace(s)
  {
    var t := TrimStart(s);
    var r := TrimEnd(t);
    TrimBothEnds(s, t, r);
    r
  }

  /** Trimming trimmed text changes nothing. */
  lemma TrimIdempotent(s: string)
    ensures Trim(Trim(s)) == Trim(s)
  {
    var r := Trim(s);
    if r != [] {
      assert TrimStart(r) == r;
      assert TrimEnd(r) == r;
    }
  }

  /** Stripping the front and then the back leaves an infix without white space at its ends. */
  lemma TrimBothEnds(s: string, t: string, r: string)
    requires |t| <= |s| && t == s[|s| - |t|..]
    requires t != [] ==> !IsSpace(t[0])
    requires t == [] <==> AllSpace(s)
    requires |r| <= |t| && r == t[..|r|]
    requires r != [] ==> !IsSpace(r[|r| - 1])
    requires r == [] <==> AllSpace(t)
    requires AllSpace(s[..|s| - |t|]) && AllSpace(t[|r|..])
    ensures Contains(s, r)
    ensures exists i, j :: 0 <= i <= j <= |s| && r == s[i..j] && AllSpace(s[..i]) && AllSpace(s[j..])
    ensures r != [] ==> !IsSpace(r[0]) && !IsSpace(r[|r| - 1])
    ensures r == [] <==> AllSpace(s)
  {
    var i := |s| - |t|;
    assert OccursAt(s, r, i) by {
      assert r == s[i..][..|r|];
    }
    assert r == s[i..i + |r|] && s[i + |r|..] == t[|r|..];
    if t != [] {
      assert !AllSpace(t) by {
        assert !IsSpace(t[0]);
      }
      assert r[0] == t[0];
    }
  }

  // ---- String.prototype.split on a set of single-character separators ----

  /** `s.split(sep)` where `sep` matches any single character of `seps`. */
  function Split(s: string, seps: set<char>): (r: seq<string>)
    ensures |r| >= 1
    ensures forall k, i :: 0 <= k < |r| && 0 <= i < |r[k]| ==> r[k][i] !in seps
    ensures |r| == 1 ==> r[0] == s
  {
    if s == [] then [[]]
    else if s[0] in seps then [[]] + Split(s[1..], seps)
    else
      var rest := Split(s[1..], seps);
      [[s[0]] + rest[0]] + rest[1..]
  }

  /** Array.prototype.join with a one-character separator. */
  function Join(pieces: seq<string>, sep: char): string
  {
    if |pieces| == 0 then []
    else if |pieces| == 1 then pieces[0]
    else pieces[0] + [sep] + Join(pieces[1..], sep)
  }

  /** Splitting on one character and joining with it gives the text back. */
  lemma {:induction false} SplitJoin(s: string, sep: char)
    ensures Join(Split(s, {sep}), sep) == s
  {
    if s == [] {
    } else if s[0] == sep {
      var rest := Split(s[1..], {sep});
      SplitJoin(s[1..], sep);
      assert Split(s, {sep}) == [[]] + rest;
      assert ([[]] + rest)[1..] == rest;
    } else {
      var rest := Split(s[1..], {sep});
      SplitJoin(s[1..], sep);
      var r := [[s[0]] + rest[0]] + rest[1..];
      assert Split(s, {sep}) == r;
      if |rest| == 1 {
        assert r == [[s[0]] + rest[0]];
      } else {
        assert r[1..] == rest[1..];
        assert Join(r, sep) == r[0] + [sep] + Join(rest[1..], sep);
        assert Join(rest, sep) == rest[0] + [sep] + Join(rest[1..], sep);
      }
    }
  }

  /**
   * The last element of `s.split(...)`, as `.pop()` returns it: the text after
   * the last separator (all of `s` when it has none).
   */
  function LastSegment(s: string, seps: set<char>): (r: string)
    ensures EndsWith(s, r)
    ensures forall i :: 0 <= i < |r| ==> r[i] !in seps
    ensures |r| < |s| ==> s[|s| - |r| - 1] in seps
  {
    if s == [] then []
    else if s[|s| - 1] in seps then []
    else
      var r := LastSegment(s[..|s| - 1], seps);
      assert s[..|s| - 1][|s| - 1 - |r|..] == s[|s| - 1 - |r|..|s| - 1];
      r + [s[|s| - 1]]
  }

  /** Number of occurrences of `c` in `s`. */
  function Count(s: string, c: char): nat
  {
    if s == [] then 0 else (if s[0] == c then 1 else 0) + Count(s[1..], c)
  }

  /** Splitting on one character yields one piece more than it has occurrences. */
  lemma {:induction false} SplitCount(s: string, sep: char)
    ensures |Split(s, {sep})| == Count(s, sep) + 1
  {
    if s != [] {
      SplitCount(s[1..], sep);
    }
  }

  // ---- Decimal numerals (String(n) and parsing of digit runs) ----

  predicate IsDigit(c: char)
  {
    '0' <= c <= '9'
  }

  predicate AllDigits(s: string)
  {
    forall i :: 0 <= i < |s| ==> IsDigit(s[i])
  }

  function DigitChar(d: nat): (c: char)
    requires d < 10
    ensures IsDigit(c) && c as int - '0' as int == d
  {
    ('0' as int + d) as char
  }

  /** `String(n)` for a natural number: its decimal numeral, without leading zeros. */
  function Decimal(n: nat): (r: string)
    ensures |r| >= 1 && AllDigits(r)
    ensures |r| > 1 ==> r[0] != '0'
  {
    if n < 10 then [DigitChar(n)] else Decimal(n / 10) + [DigitChar(n % 10)]
  }

  /** The value of a run of decimal digits ("" is 0). */
  function DigitsValue(s: string): (v: nat)
    requires AllDigits(s)
  {
    if s == [] then 0 else DigitsValue(s[..|s| - 1]) * 10 + (s[|s| - 1] as int - '0' as int)
  }

  /** Reading the numeral of `n` gives back `n`. */
  lemma {:induction false} DecimalRoundTrip(n: nat)
    ensures DigitsValue(Decimal(n)) == n
  {
    if n >= 10 {
      DecimalRoundTrip(n / 10);
      var r := Decimal(n);
      assert r[..|r| - 1] == Decimal(n / 10);
    }
  }

  /** The longest prefix of decimal digits. */
  function LeadingDigits(s: string): (r: string)
    ensures StartsWith(s, r) && AllDigits(r)
    ensures |r| < |s| ==> !IsDigit(s[|r|])
  {
    if s != [] && IsDigit(s[0]) then [s[0]] + LeadingDigits(s[1..]) else []
  }

  /**
   * `parseInt(s, 10)`: leading white space is skipped, one optional sign is
   * read, then the longest run of digits; no digits gives NaN (None).
   */
  function ParseInt(s: string): (r: Option<int>)
    ensures r.None? <==> LeadingDigits(Unsigned(TrimStart(s))) == []
    ensures r.Some? ==> r.value == DigitsValue(LeadingDigits(Unsigned(TrimStart(s))))
                        || r.value == -(DigitsValue(LeadingDigits(Unsigned(TrimStart(s)))) as int)
    ensures r.Some? ==> exists i :: 0 <= i < |s| && IsDigit(s[i])
    ensures r.Some? && r.value < 0 ==> '-' in s
  {
    var t := TrimStart(s);
    var r := ParseSigned(t);
    if r.None? then r
    else
      var u := Unsigned(t);
      assert u != [] && IsDigit(u[0]);
      var k := if u == t then |s| - |t| else |s| - |t| + 1;
      assert s[k] == u[0];
      assert r.value < 0 ==> s[|s| - |t|] == '-';
      r
  }

  /**
   * parseInt after the white space: an optional sign, then the leading
   * digits; NaN exactly when no digit follows the sign.
   */
  function ParseSigned(t: string): (r: Option<int>)
    ensures r.Some? <==> LeadingDigits(Unsigned(t)) != []
    ensures r.Some? ==> (r.value < 0 ==> t[0] == '-') && (t[0] != '-' ==> r.value >= 0)
  {
    var digits := LeadingDigits(Unsigned(t));
    var value: int := if digits == [] then 0 else DigitsValue(digits);
    if digits == [] then None
    else if t[0] == '-' then Some(-value)
    else Some(value)
  }

  /** The text after one leading sign character, if there is one. */
  function Unsigned(t: string): (r: string)
    ensures r == t || (t != [] && (t[0] == '-' || t[0] == '+') && r == t[1..])
  {
    if t != [] && (t[0] == '-' || t[0] == '+') then t[1..] else t
  }

  /** `String(n)` for an integer. */
  function IntString(n: int): (r: string)
    ensures r != [] && !IsSpace(r[0])
  {
    if n < 0 then "-" + Decimal(-n) else Decimal(n)
  }

  /** A digit run followed by a non-digit (or nothing) is the leading digit run. */
  lemma {:induction false} LeadingDigitsOf(d: string, rest: string)
    requires AllDigits(d)
    requires rest == [] || !IsDigit(rest[0])
    ensures LeadingDigits(d + rest) == d
  {
    if d != [] {
      assert (d + rest)[1..] == d[1..] + rest;
      LeadingDigitsOf(d[1..], rest);
    } else {
      assert d + rest == rest;
    }
  }

  /** Text that does not start with white space is left alone by trimStart. */
  lemma TrimStartKeeps(s: string)
    requires s != [] && !IsSpace(s[0])
    ensures TrimStart(s) == s
  {
  }

  /** Once the white space is gone, parseInt reads the sign and the digit run after it. */
  lemma ParseSignedDigits(t: string, d: string)
    requires t != [] && d != [] && LeadingDigits(Unsigned(t)) == d
    ensures ParseSigned(t) == Some(if t[0] == '-' then -(DigitsValue(d) as int) else DigitsValue(d) as int)
  {
  }

  /** trimStart removes exactly a leading run of white space. */
  lemma {:induction false} TrimStartAfterSpace(w: string, t: string)
    requires AllSpace(w) && (t == [] || !IsSpace(t[0]))
    ensures TrimStart(w + t) == t
  {
    if w != [] {
      assert (w + t)[1..] == w[1..] + t;
      TrimStartAfterSpace(w[1..], t);
    } else {
      assert w + t == t;
    }
  }

  /** Leading white space is skipped: parseInt then reads the sign and digits after it. */
  lemma ParseAfterSpace(w: string, t: string)
    requires AllSpace(w) && (t == [] || !IsSpace(t[0]))
    ensures ParseInt(w + t) == ParseSigned(t)
  {
    TrimStartAfterSpace(w, t);
  }

  /** A '+' sign is read and dropped: `parseInt("+" + digits + rest)` is the digits' value. */
  lemma ParsePlusDigits(d: string, rest: string)
    requires d != [] && AllDigits(d)
    requires rest == [] || !IsDigit(rest[0])
    ensures ParseInt("+" + d + rest) == Some(DigitsValue(d) as int)
  {
    var s := "+" + d + rest;
    assert s[1..] == d + rest;
    TrimStartKeeps(s);
    LeadingDigitsOf(d, rest);
    ParseSignedDigits(s, d);
  }

  /** Parsing a digit run followed by a non-digit reads the run. */
  lemma ParseDigits(d: string, rest: string)
    requires d != [] && AllDigits(d)
    requires rest == [] || !IsDigit(rest[0])
    ensures ParseInt(d + rest) == Some(DigitsValue(d) as int)
  {
    var s := d + rest;
    assert s[0] == d[0];
    assert ParseInt(s) == ParseSigned(s) by {
      TrimStartKeeps(s);
    }
    assert LeadingDigits(Unsigned(s)) == d by {
      assert Unsigned(s) == s;
      LeadingDigitsOf(d, rest);
    }
    ParseSignedDigits(s, d);
  }

  /** Parsing a minus and a digit run followed by a non-digit reads the negated run. */
  lemma ParseNegatedDigits(d: string, rest: string)
    requires d != [] && AllDigits(d)
    requires rest == [] || !IsDigit(rest[0])
    ensures ParseInt("-" + d + rest) == Some(-(DigitsValue(d) as int))
  {
    var u := d + rest;
    var s := "-" + d + rest;
    assert s == ['-'] + u;
    assert ParseInt(s) == ParseSigned(s) by {
      TrimStartKeeps(s);
    }
    assert LeadingDigits(Unsigned(s)) == d by {
      assert s[1..] == u;
      LeadingDigitsOf(d, rest);
    }
    ParseSignedDigits(s, d);
  }

  /**
   * Parsing the numeral of an integer gives the integer back, whatever
   * non-digit text follows it ("90", "-3", "12px").
   */
  lemma ParseIntRoundTrip(n: int, rest: string)
    requires rest == [] || !IsDigit(rest[0])
    ensures ParseInt(IntString(n) + rest) == Some(n)
  {
    var m: nat := if n < 0 then -n else n;
    var d := Decimal(m);
    DecimalRoundTrip(m);
    if n < 0 {
      ParseNegatedDigits(d, rest);
    } else {
      ParseDigits(d, rest);
    }
  }

  /** Blank text never parses. */
  lemma BlankIsNaN(s: string)
    requires AllSpace(s)
    ensures ParseInt(s).None?
  {
  }
}
