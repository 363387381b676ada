/**
 * String operations shared by the JavaScript front end and the Python
 * formatter: trimming, ASCII lower-casing, substring search, splitting on
 * separator characters, joining, padding and decimal rendering.
 */
module Text {

  /** The whitespace `String.prototype.trim` and `str.strip` remove (the ASCII part). */
  predicate IsSpace(c: char) {
    c == ' ' || c == '\t' || c == '\n' || c == '\r' || c == '\U{000B}' || c == '\U{000C}'
  }

  predicate AllSpace(s: string) {
    forall i :: 0 <= i < |s| ==> IsSpace(s[i])
  }

  /**
   * `s.trim()` in JavaScript and `s.strip()` in Python: a leading space is
   * dropped, else a trailing one, until both ends are non-space.
   */
  function Trim(s: string): (r: string)
    ensures |r| <= |s|
    ensures r == [] || (!IsSpace(r[0]) && !IsSpace(r[|r| - 1]))
    ensures forall c :: c in r ==> c in s
    ensures r == [] <==> AllSpace(s)
    ensures exists i, j :: 0 <= i <= j <= |s| && r == s[i..j] && AllSpace(s[..i]) && AllSpace(s[j..])
    decreases |s|
  {
    if s != [] && IsSpace(s[0]) then
      var r := Trim(s[1..]);
      SpaceDropped(s, s[1..]);
      TrimmedFront(s, s[1..], r);
      r
    else if s != [] && IsSpace(s[|s| - 1]) then
      var r := Trim(s[..|s| - 1]);
      SpaceDropped(s, s[..|s| - 1]);
      TrimmedBack(s, s[..|s| - 1], r);
      r
    else
      TrimmedWhole(s);
      s
  }

  /** A string with no space at either end is its own trimmed slice. */
  lemma TrimmedWhole(s: string)
    requires s == [] || (!IsSpace(s[0]) && !IsSpace(s[|s| - 1]))
    ensures s == [] <==> AllSpace(s)
    ensures exists i, j :: 0 <= i <= j <= |s| && s == s[i..j] && AllSpace(s[..i]) && AllSpace(s[j..])
  {
    assert s == s[0..|s|] && s[..0] == [] && s[|s|..] == [];
  }

  /** Dropping a space from either end keeps the characters otherwise, and blankness. */
  lemma SpaceDropped(s: string, t: string)
    requires s != []
    requires (IsSpace(s[0]) && t == s[1..]) || (IsSpace(s[|s| - 1]) && t == s[..|s| - 1])
    ensures forall c :: c in t ==> c in s
    ensures AllSpace(s) <==> AllSpace(t)
  {
    if IsSpace(s[0]) && t == s[1..] {
      assert forall k :: 0 <= k < |t| ==> t[k] == s[k + 1];
    } else {
      assert forall k :: 0 <= k < |t| ==> t[k] == s[k];
    }
  }

  /** A trimmed slice of `s[1..]` is a trimmed slice of `s` when `s[0]` is a space. */
  lemma TrimmedFront(s: string, t: string, r: string)
    requires s != [] && IsSpace(s[0]) && t == s[1..]
    requires exists i, j :: 0 <= i <= j <= |t| && r == t[i..j] && AllSpace(t[..i]) && AllSpace(t[j..])
    ensures exists i, j :: 0 <= i <= j <= |s| && r == s[i..j] && AllSpace(s[..i]) && AllSpace(s[j..])
  {
    var i, j :| 0 <= i <= j <= |t| && r == t[i..j] && AllSpace(t[..i]) && AllSpace(t[j..]);
    assert t[i..j] == s[i + 1..j + 1];
    assert s[..i + 1] == [s[0]] + t[..i];
    assert t[j..] == s[j + 1..];
  }

  /** A trimmed slice of `s` less its last character is a trimmed slice of `s` when that character is a space. */
  lemma TrimmedBack(s: string, t: string, r: string)
    requires s != [] && IsSpace(s[|s| - 1]) && t == s[..|s| - 1]
    requires exists i, j :: 0 <= i <= j <= |t| && r == t[i..j] && AllSpace(t[..i]) && AllSpace(t[j..])
    ensures exists i, j :: 0 <= i <= j <= |s| && r == s[i..j] && AllSpace(s[..i]) && AllSpace(s[j..])
  {
    var i, j :| 0 <= i <= j <= |t| && r == t[i..j] && AllSpace(t[..i]) && AllSpace(t[j..]);
    assert t[i..j] == s[i..j];
    assert t[..i] == s[..i];
    assert s[j..] == t[j..] + [s[|s| - 1]];
  }

  function LowerChar(c: char): char {
    if 'A' <= c <= 'Z' then (c as int + 32) as char else c
  }

  /** `s.toLowerCase()` for ASCII letters. */
  function Lower(s: string): (r: string)
    ensures |r| == |s|
    ensures forall i :: 0 <= i < |s| ==> r[i] == LowerChar(s[i])
  {
    seq(|s|, i requires 0 <= i < |s| => LowerChar(s[i]))
  }

  /** `s.includes(k)` / `k in s`: `k` occurs in `s` at some index. */
  predicate Contains(s: string, k: string) {
    exists i :: 0 <= i <= |s| && k <= s[i..]
  }

  /** Concatenation associates; called where the solver would otherwise search for the regrouping. */
  lemma AppendAssociates<T>(a: seq<T>, b: seq<T>, c: seq<T>)
    ensures (a + b) + c == a + (b + c)
  {
  }

  /** A count of the characters of `s` that belong to `seps`. */
  function CountIn(s: string, seps: set<char>): nat
    decreases |s|
  {
    if s == [] then 0 else (if s[0] in seps then 1 else 0) + CountIn(s[1..], seps)
  }

  predicate NoneIn(s: string, seps: set<char>) {
    forall i :: 0 <= i < |s| ==> s[i] !in seps
  }

  /**
   * The pieces of `s` between separator characters, in order, empty pieces
   * included: `s.split(',')` in JavaScript and Python, `re.split('[;,]', s)`.
   */
  function Split(s: string, seps: set<char>): (r: seq<string>)
    ensures |r| == CountIn(s, seps) + 1
    ensures forall i :: 0 <= i < |r| ==> NoneIn(r[i], seps)
    decreases |s|
  {
    if s == [] then [""]
    else if s[0] in seps then [""] + Split(s[1..], seps)
    else
      var rest := Split(s[1..], seps);
      assert NoneIn([s[0]] + rest[0], seps) by {
        assert NoneIn(rest[0], seps);
      }
      [[s[0]] + rest[0]] + rest[1..]
  }

  /** `sep.join(parts)` / `parts.join(sep)`. */
  function Join(parts: seq<string>, sep: string): string
    decreases |parts|
  {
    if |parts| == 0 then ""
    else if |parts| == 1 then parts[0]
    else parts[0] + sep + Join(parts[1..], sep)
  }

  lemma {:induction false} JoinCons(x: string, rest: seq<string>, sep: string)
    requires rest != []
    ensures Join([x] + rest, sep) == x + sep + Join(rest, sep)
  {
    assert ([x] + rest)[1..] == rest;
  }

  /** Joining the pieces of a split with the one separator gives the string back. */
  lemma {:induction false} JoinSplit(s: string, c: char)
    ensures Join(Split(s, {c}), [c]) == s
    decreases |s|
  {
    if s == [] {
    } else if s[0] == c {
      JoinSplit(s[1..], c);
      JoinCons("", Split(s[1..], {c}), [c]);
      assert s == [c] + s[1..];
    } else {
      var rest := Split(s[1..], {c});
      JoinSplit(s[1..], c);
      assert Split(s, {c}) == [[s[0]] + rest[0]] + rest[1..];
      JoinPrepend(s[0], rest, [c]);
      assert s == [s[0]] + s[1..];
    }
  }

  /** A character put in front of the first part ends up in front of the join. */
  lemma JoinPrepend(x: char, parts: seq<string>, sep: string)
    requires parts != []
    ensures Join([[x] + parts[0]] + parts[1..], sep) == [x] + Join(parts, sep)
  {
    if |parts| > 1 {
      JoinCons([x] + parts[0], parts[1..], sep);
      JoinCons(parts[0], parts[1..], sep);
      assert parts == [parts[0]] + parts[1..];
      AppendAssociates([x], parts[0], sep + Join(parts[1..], sep));
    }
  }

  /**
   * Splitting a join on a separator gives the parts back when no part holds
   * any of the separator characters.
   */
  lemma {:induction false} SplitJoin(parts: seq<string>, c: char, seps: set<char>)
    requires parts != [] && c in seps
    requires forall i :: 0 <= i < |parts| ==> NoneIn(parts[i], seps)
    ensures Split(Join(parts, [c]), seps) == parts
    decreases |parts|
  {
    if |parts| == 1 {
      SplitPlain(parts[0], seps);
    } else {
      SplitJoin(parts[1..], c, seps);
      SplitAfterPlain(parts[0], c, Join(parts[1..], [c]), seps);
      assert parts == [parts[0]] + parts[1..];
    }
  }

  /** A string without separators splits into itself. */
  lemma {:induction false} SplitPlain(s: string, seps: set<char>)
    requires NoneIn(s, seps)
    ensures Split(s, seps) == [s]
    decreases |s|
  {
    if s != [] {
      SplitPlain(s[1..], seps);
      assert s == [s[0]] + s[1..];
    }
  }

  /** The piece before the first separator is split off whole, whichever separator it is. */
  lemma {:induction false} SplitAfterPlain(p: string, c: char, t: string, seps: set<char>)
    requires NoneIn(p, seps) && c in seps
    ensures Split(p + [c] + t, seps) == [p] + Split(t, seps)
    decreases |p|
  {
    if p == [] {
      assert p + [c] + t == [c] + t;
      assert ([c] + t)[1..] == t;
    } else {
      SplitAfterPlain(p[1..], c, t, seps);
      assert (p + [c] + t)[1..] == p[1..] + [c] + t;
      assert p == [p[0]] + p[1..];
    }
  }

  /** The first `n` characters (all of them when there are fewer): `s.slice(0, n)`. */
  function Take(s: string, n: nat): (r: string)
    ensures |r| <= n && r <= s
    ensures |s| <= n ==> r == s
    ensures |s| > n ==> r == s[..n]
  {
    if |s| <= n then s else s[..n]
  }

  /** `s.padEnd(width)`: right-padded with spaces to `width`, unchanged when already as long. */
  function PadEnd(s: string, width: nat): (r: string)
    ensures |r| == if |s| >= width then |s| else width
    ensures s <= r
    ensures forall i :: |s| <= i < |r| ==> r[i] == ' '
  {
    if |s| >= width then s else s + seq(width - |s|, _ => ' ')
  }

  function DigitChar(d: nat): char
    requires d < 10
  {
    ('0' as int + d) as char
  }

  function NatToString(n: nat): (r: string)
    ensures r != []
    decreases n
  {
    if n < 10 then [DigitChar(n)] else NatToString(n / 10) + [DigitChar(n % 10)]
  }

  predicate IsDigit(c: char) {
    '0' <= c <= '9'
  }

  predicate AllDigits(s: string) {
    forall i :: 0 <= i < |s| ==> IsDigit(s[i])
  }

  function Pow10(k: nat): nat {
    if k == 0 then 1 else 10 * Pow10(k - 1)
  }

  /** The number a string of decimal digits denotes, read from the most significant digit. */
  function DecimalValue(s: string): int
    requires AllDigits(s)
    decreases |s|
  {
    if s == [] then 0 else (s[0] as int - '0' as int) * Pow10(|s| - 1) + DecimalValue(s[1..])
  }

  /** One more digit at the end multiplies the value by ten and adds the digit. */
  lemma {:induction false} DecimalAppend(s: string, c: char)
    requires AllDigits(s) && IsDigit(c)
    ensures AllDigits(s + [c])
    ensures DecimalValue(s + [c]) == 10 * DecimalValue(s) + (c as int - '0' as int)
    decreases |s|
  {
    if s != [] {
      var d := s[0] as int - '0' as int;
      var p := Pow10(|s| - 1);
      DecimalAppend(s[1..], c);
      assert (s + [c])[1..] == s[1..] + [c];
      assert DecimalValue(s + [c]) == d * (10 * p) + DecimalValue(s[1..] + [c]);
      assert DecimalValue(s) == d * p + DecimalValue(s[1..]);
      ShiftDigit(d, p, DecimalValue(s[1..]), c as int - '0' as int);
    }
  }

  lemma ShiftDigit(d: int, p: int, v: int, c: int)
    ensures d * (10 * p) + (10 * v + c) == 10 * (d * p + v) + c
  {
    assert d * (10 * p) == 10 * (d * p);
  }

  /**
   * `NatToString` writes the decimal digits of `n`: digits only, a leading
   * zero only for zero itself, and reading them back gives `n`.
   */
  lemma {:induction false} NatToStringDecimal(n: nat)
    ensures AllDigits(NatToString(n))
    ensures NatToString(n)[0] == '0' <==> n == 0
    ensures DecimalValue(NatToString(n)) == n
    decreases n
  {
    if n >= 10 {
      NatToStringDecimal(n / 10);
      DecimalAppend(NatToString(n / 10), DigitChar(n % 10));
      assert NatToString(n)[0] == NatToString(n / 10)[0];
    }
  }

  /** The decimal rendering of an integer, as JavaScript's `String(n)` and Python's `str(n)` give it. */
  function IntToString(n: int): string {
    if n < 0 then "-" + NatToString(-n) else NatToString(n)
  }

  /** `IntToString` writes the decimal digits of `n`, after a minus sign when it is negative. */
  lemma IntToStringDecimal(n: int)
    ensures var r := IntToString(n);
      && (n >= 0 ==> AllDigits(r) && r != [] && DecimalValue(r) == n)
      && (n < 0 ==> r[..1] == "-" && AllDigits(r[1..]) && DecimalValue(r[1..]) == -n)
  {
    if n < 0 {
      NatToStringDecimal(-n);
      assert IntToString(n)[1..] == NatToString(-n);
    } else {
      NatToStringDecimal(n);
    }
  }}

/** Generic sequence facts used by the list edits and the tag stripper. */
module Sequences {

  /** `a` can be obtained from `b` by deleting elements: same relative order. */
  predicate IsSubsequence<T(==)>(a: seq<T>, b: seq<T>)
    decreases |b|
  {
    a == [] || (b != [] && ((a[0] == b[0] && IsSubsequence(a[1..], b[1..])) || IsSubsequence(a, b[1..])))
  }

  lemma {:induction false} SubsequenceLength<T>(a: seq<T>, b: seq<T>)
    requires IsSubsequence(a, b)
    ensures |a| <= |b|
    decreases |b|
  {
    if |a| > 0 {
      if a[0] == b[0] && IsSubsequence(a[1..], b[1..]) {
        SubsequenceLength(a[1..], b[1..]);
      } else {
        SubsequenceLength(a, b[1..]);
      }
    }
  }

  lemma {:induction false} SubsequenceRefl<T>(a: seq<T>)
    ensures IsSubsequence(a, a)
    decreases |a|
  {
    if |a| > 0 {
      SubsequenceRefl(a[1..]);
    }
  }

  /** `b` with every element equal to `v` removed: `b.filter(x => x !== v)`. */
  function Without<T(==)>(b: seq<T>, v: T): (r: seq<T>)
    ensures v !in r
    ensures multiset(r) == multiset(b)[v := 0]
    ensures IsSubsequence(r, b)
    decreases |b|
  {
    if |b| == 0 then []
    else
      var rest := Without(b[1..], v);
      assert b == [b[0]] + b[1..];
      if b[0] == v then rest else [b[0]] + rest
  }

  lemma {:induction false} WithoutAbsent<T>(b: seq<T>, v: T)
    requires v !in b
    ensures Without(b, v) == b
    decreases |b|
  {
    if |b| > 0 {
      WithoutAbsent(b[1..], v);
    }
  }

  lemma {:induction false} WithoutAppend<T>(a: seq<T>, b: seq<T>, v: T)
    ensures Without(a + b, v) == Without(a, v) + Without(b, v)
    decreases |a|
  {
    if |a| > 0 {
      assert (a + b)[1..] == a[1..] + b;
      WithoutAppend(a[1..], b, v);
    } else {
      assert a + b == b;
    }
  }

  /** The clamped start index `Array.prototype.splice` uses: negative indices count from the end. */
  function SpliceStart(len: nat, index: int): (k: nat)
    ensures k <= len
    ensures 0 <= index <= len ==> k == index
    ensures index > len ==> k == len
    ensures -(len as int) <= index < 0 ==> k == len + index
    ensures index < -(len as int) ==> k == 0
  {
    if index < 0 then (if len + index < 0 then 0 else len + index)
    else if index > len then len
    else index
  }

  /** The array left by `a.splice(index, 1)`. */
  function Spliced<T>(a: seq<T>, index: int): (r: seq<T>)
    ensures var k := SpliceStart(|a|, index);
      && (k < |a| ==> |r| == |a| - 1 && r[..k] == a[..k] && r[k..] == a[k + 1..])
      && (k == |a| ==> r == a)
  {
    var k := SpliceStart(|a|, index);
    if k < |a| then a[..k] + a[k + 1..] else a
  }
}
