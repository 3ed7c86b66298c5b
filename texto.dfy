/** Character and string helpers with the meaning the services give them:
    JavaScript `trim`/`toUpperCase`/`toLowerCase`/`includes`/`split`/`padStart`
    and Python `strip`/`upper`/`split`.  Case mapping covers the ASCII and Latin-1
    letters and the whitespace set is the one the data can contain (see README). */
module Texto {
  import Seqs
  import opened Base

  /** Whitespace as `trim`, `strip` and `\s` see it in this data: space, tab,
      line feed, carriage return, vertical tab, form feed and no-break space. */
  predicate IsSpace(c: char) {
    c == ' ' || c == '\t' || c == '\n' || c == '\r' || c == '\U{0B}' || c == '\U{0C}' || c == '\U{A0}'
  }

  /** `s` with its leading whitespace removed. */
  function TrimStart(s: string): string
    decreases |s|
  {
    if |s| > 0 && IsSpace(s[0]) then TrimStart(s[1..]) else s
  }

  /** Trimming the start drops a run of whitespace and keeps the rest of the
      text, which then does not start with whitespace. */
  lemma {:induction false} TrimStartForma(s: string)
    ensures var r := TrimStart(s);
            |r| <= |s| && r == s[|s| - |r|..]
            && (|r| > 0 ==> !IsSpace(r[0]))
            && forall i :: 0 <= i < |s| - |r| ==> IsSpace(s[i])
    decreases |s|
  {
    if |s| > 0 && IsSpace(s[0]) {
      TrimStartForma(s[1..]);
      var r := TrimStart(s);
      assert s[1..][|s| - 1 - |r|..] == s[|s| - |r|..];
    }
  }

  /** `s` with its trailing whitespace removed. */
  function TrimEnd(s: string): string
    decreases |s|
  {
    if |s| > 0 && IsSpace(s[|s| - 1]) then TrimEnd(s[..|s| - 1]) else s
  }

  /** Trimming the end drops a run of whitespace and keeps the rest of the
      text, which then does not end with whitespace. */
  lemma {:induction false} TrimEndForma(s: string)
    ensures var r := TrimEnd(s);
            |r| <= |s| && r == s[..|r|]
            && (|r| > 0 ==> !IsSpace(r[|r| - 1]))
            && forall i :: |r| <= i < |s| ==> IsSpace(s[i])
    decreases |s|
  {
    if |s| > 0 && IsSpace(s[|s| - 1]) {
      TrimEndForma(s[..|s| - 1]);
      var r := TrimEnd(s);
      assert s[..|s| - 1][..|r|] == s[..|r|];
    }
  }

  /** `trim()` / `strip()`: the text between the first and the last
      non-whitespace characters. */
  function Trim(s: string): (r: string)
    ensures |r| <= |s|
    ensures |r| > 0 ==> !IsSpace(r[0]) && !IsSpace(r[|r| - 1])
    ensures r == "" <==> forall i :: 0 <= i < |s| ==> IsSpace(s[i])
  {
    TrimStartForma(s);
    TrimEndForma(TrimStart(s));
    TrimEnd(TrimStart(s))
  }

  /** Trimming what is already trimmed changes nothing. */
  lemma TrimIdempotent(s: string)
    ensures Trim(Trim(s)) == Trim(s)
  {
    var t := Trim(s);
    TrimStartForma(s);
    TrimEndForma(TrimStart(s));
    assert TrimStart(t) == t;
    assert TrimEnd(t) == t;
  }

  /** A string that neither starts nor ends with whitespace is its own trim. */
  lemma TrimOfTrimmed(s: string)
    requires |s| > 0 ==> !IsSpace(s[0]) && !IsSpace(s[|s| - 1])
    ensures Trim(s) == s
  {
    assert TrimStart(s) == s;
    assert TrimEnd(s) == s;
  }

  /** Upper case of the ASCII and Latin-1 letters (`ç` to `Ç`, `ã` to `Ã`). */
  function UpperChar(c: char): char {
    if 'a' <= c <= 'z' || ('\U{E0}' <= c <= '\U{FE}' && c != '\U{F7}') then (c as int - 32) as char else c
  }

  /** Lower case of the ASCII and Latin-1 letters. */
  function LowerChar(c: char): char {
    if 'A' <= c <= 'Z' || ('\U{C0}' <= c <= '\U{DE}' && c != '\U{D7}') then (c as int + 32) as char else c
  }

  /** `toUpperCase()` / `upper()` on the ASCII and Latin-1 letters. */
  function Upper(s: string): (r: string)
    ensures |r| == |s|
    ensures forall i :: 0 <= i < |s| ==> r[i] == UpperChar(s[i])
  {
    seq(|s|, i requires 0 <= i < |s| => UpperChar(s[i]))
  }

  /** Upper-casing twice is upper-casing once. */
  lemma UpperIdempotent(s: string)
    ensures Upper(Upper(s)) == Upper(s)
  {
  }

  /** Upper-casing neither creates nor removes whitespace, so a trimmed
      string stays trimmed. */
  lemma UpperTrimmed(s: string)
    requires |s| > 0 ==> !IsSpace(s[0]) && !IsSpace(s[|s| - 1])
    ensures Trim(Upper(s)) == Upper(s)
  {
    TrimOfTrimmed(Upper(s));
  }

  /** `toLowerCase()` on the ASCII and Latin-1 letters. */
  function Lower(s: string): (r: string)
    ensures |r| == |s|
    ensures forall i :: 0 <= i < |s| ==> r[i] == LowerChar(s[i])
  {
    seq(|s|, i requires 0 <= i < |s| => LowerChar(s[i]))
  }

  /** `s.includes(t)` / Python `t in s`. */
  predicate Contains(s: string, t: string) {
    exists i :: 0 <= i <= |s| - |t| && OccursAt(s, t, i)
  }

  /** `t` occurs in `s` starting at index `i`. */
  predicate OccursAt(s: string, t: string, i: int) {
    0 <= i <= |s| - |t| && s[i..i + |t|] == t
  }

  /** Containment is transitive: a text holding `t` holds every part of `t`. */
  lemma ContainsTrans(s: string, t: string, u: string)
    requires Contains(s, t) && Contains(t, u)
    ensures Contains(s, u)
  {
    var i :| 0 <= i <= |s| - |t| && OccursAt(s, t, i);
    var j :| 0 <= j <= |t| - |u| && OccursAt(t, u, j);
    var a, b := s[i + j..i + j + |u|], t[j..j + |u|];
    forall k | 0 <= k < |u| ensures a[k] == b[k] {
      assert s[i..i + |t|][j + k] == t[j + k];
    }
    assert a == b;
    assert OccursAt(s, u, i + j);
  }

  /** A text holds its own slices. */
  lemma ContainsSlice(s: string, i: nat, j: nat)
    requires i <= j <= |s|
    ensures Contains(s, s[i..j])
  {
    assert OccursAt(s, s[i..j], i);
  }

  predicate IsDigit(c: char) {
    '0' <= c <= '9'
  }

  predicate AllDigits(s: string) {
    forall i :: 0 <= i < |s| ==> IsDigit(s[i])
  }

  /** The decimal digits of `s`, in order (`replace(/\D/g, '')`). */
  function Digits(s: string): (r: string)
    ensures AllDigits(r)
    ensures |r| <= |s|
  {
    if |s| == 0 then "" else Digits(s[..|s| - 1]) + (if IsDigit(s[|s| - 1]) then [s[|s| - 1]] else "")
  }

  /** A string made of digits only is its own digit string. */
  lemma {:induction false} DigitsOfDigits(s: string)
    requires AllDigits(s)
    ensures Digits(s) == s
  {
    if |s| > 0 {
      DigitsOfDigits(s[..|s| - 1]);
      assert s[..|s| - 1] + [s[|s| - 1]] == s;
    }
  }

  /** The digits of two strings one after the other are the digits of each. */
  lemma {:induction false} DigitsAppend(a: string, b: string)
    ensures Digits(a + b) == Digits(a) + Digits(b)
    decreases |b|
  {
    if |b| > 0 {
      var b0 := b[..|b| - 1];
      assert (a + b)[..|a + b| - 1] == a + b0;
      DigitsAppend(a, b0);
    } else {
      assert a + b == a;
    }
  }

  /** A separator adds no digit. */
  lemma DigitsSeparador(s: string, c: char)
    requires !IsDigit(c)
    ensures Digits(s + [c]) == Digits(s)
  {
    assert (s + [c])[..|s|] == s;
  }

  /** Appending digits appends them to the digits. */
  lemma DigitsMaisDigitos(s: string, d: string)
    requires AllDigits(d)
    ensures Digits(s + d) == Digits(s) + d
  {
    DigitsAppend(s, d);
    DigitsOfDigits(d);
  }

  /** Index of the first `c` in `s`, or `|s|` when there is none. */
  function IndexOf(s: string, c: char): (i: nat)
    ensures i <= |s|
    ensures forall k :: 0 <= k < i ==> s[k] != c
    ensures i < |s| ==> s[i] == c
    decreases |s|
  {
    if |s| == 0 then 0 else if s[0] == c then 0 else 1 + IndexOf(s[1..], c)
  }

  /** `s.split(c)[0]`: the text before the first `c` (all of `s` without one). */
  function FirstField(s: string, c: char): (r: string)
    ensures |r| <= |s| && r == s[..|r|] && c !in r
    ensures |r| < |s| ==> s[|r|] == c
  {
    s[..IndexOf(s, c)]
  }

  /** `s.split(c)[1]` for a string that contains `c`: the text between the
      first and the second `c` (or the end). */
  function SecondField(s: string, c: char): (r: string)
    requires c in s
    ensures c !in r
  {
    var i := IndexOf(s, c);
    FirstField(s[i + 1..], c)
  }

  function DigitValue(c: char): nat
    requires IsDigit(c)
  {
    c as int - '0' as int
  }

  /** Value of a non-empty string of decimal digits. */
  function DigitsValue(s: string): nat
    requires AllDigits(s)
    decreases |s|
  {
    if |s| == 0 then 0 else 10 * DigitsValue(s[..|s| - 1]) + DigitValue(s[|s| - 1])
  }

  /** Length of the longest run of digits at the start of `s`. */
  function DigitRun(s: string): (n: nat)
    ensures n <= |s| && AllDigits(s[..n])
    ensures n < |s| ==> !IsDigit(s[n])
    decreases |s|
  {
    if |s| > 0 && IsDigit(s[0]) then 1 + DigitRun(s[1..]) else 0
  }

  /** `parseInt(s)`: leading whitespace, an optional sign and at least one
      digit; `None` stands for `NaN`. */
  function ParseInt(s: string): (r: Option<int>)
    ensures AllDigits(s) && |s| > 0 ==> r == Some(DigitsValue(s))
  {
    var t := TrimStart(s);
    var neg := |t| > 0 && t[0] == '-';
    var u := if |t| > 0 && (t[0] == '-' || t[0] == '+') then t[1..] else t;
    var n := DigitRun(u);
    if n == 0 then None
    else
      var v := DigitsValue(u[..n]);
      assert AllDigits(s) && |s| > 0 ==> t == s && u == s && n == |s| && u[..n] == s;
      Some(if neg then -(v as int) else v as int)
  }

  /** Decimal rendering of a natural number (`String(n)`, f-strings). */
  function NatToString(n: nat): (r: string)
    ensures |r| > 0 && AllDigits(r)
    decreases n
  {
    if n < 10 then [('0' as int + n) as char]
    else NatToString(n / 10) + [('0' as int + n % 10) as char]
  }

  /** `String.prototype.padStart(n, c)` with a one-character pad. */
  function PadStart(s: string, n: nat, c: char): (r: string)
    ensures |r| == if |s| >= n then |s| else n
    ensures r[|r| - |s|..] == s
    ensures forall i :: 0 <= i < |r| - |s| ==> r[i] == c
  {
    if |s| >= n then s else seq(n - |s|, _ => c) + s
  }
}
