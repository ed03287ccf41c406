/**
 * String helpers the pages rely on, written out with the JavaScript semantics the
 * source uses: `Number.prototype.toString()` on a non-negative integer,
 * `String.prototype.padStart`, `split(' ')`, `join`, `toLowerCase()` (ASCII letters
 * only), `startsWith`, and `replace('-', '')`, which removes only the first match.
 */
module Text {

  predicate IsDigit(c: char) {
    '0' <= c <= '9'
  }

  predicate AllDigits(s: string) {
    forall i :: 0 <= i < |s| ==> IsDigit(s[i])
  }

  function DigitChar(d: nat): (c: char)
    requires d < 10
    ensures IsDigit(c)
  {
    (('0' as int) + d) as char
  }

  function DigitValue(c: char): (d: nat)
    requires IsDigit(c)
    ensures d < 10 && DigitChar(d) == c
  {
    (c as int) - ('0' as int)
  }

  /** Decimal rendering of a non-negative integer, as `String(n)` gives it. */
  function DecimalString(n: nat): (s: string)
    ensures |s| >= 1 && AllDigits(s)
    ensures |s| > 1 ==> s[0] != '0'
    ensures n < 10 <==> |s| == 1
    decreases n
  {
    if n < 10 then [DigitChar(n)] else DecimalString(n / 10) + [DigitChar(n % 10)]
  }

  /** The value of a string of decimal digits (leading zeros allowed); the partner of DecimalString. */
  function DecimalValue(s: string): nat
    requires AllDigits(s)
  {
    if s == [] then 0 else 10 * DecimalValue(s[..|s| - 1]) + DigitValue(s[|s| - 1])
  }

  lemma {:induction false} DecimalRoundTrip(n: nat)
    ensures DecimalValue(DecimalString(n)) == n
    decreases n
  {
    var s := DecimalString(n);
    if n >= 10 {
      DecimalRoundTrip(n / 10);
      assert s[..|s| - 1] == DecimalString(n / 10);
      assert s[|s| - 1] == DigitChar(n % 10);
    }
  }

  /** Two different numbers never render to the same digits. */
  lemma DecimalStringInjective(m: nat, n: nat)
    requires DecimalString(m) == DecimalString(n)
    ensures m == n
  {
    DecimalRoundTrip(m);
    DecimalRoundTrip(n);
  }

  /** `s.padStart(width, [fill])`: prepend copies of `fill` until the string is `width` long. */
  function PadStart(s: string, width: nat, fill: char): (r: string)
    ensures |r| == if |s| >= width then |s| else width
    ensures r[|r| - |s|..] == s
    ensures forall i :: 0 <= i < |r| - |s| ==> r[i] == fill
  {
    if |s| >= width then s
    else
      var pad := seq(width - |s|, _ => fill);
      assert (pad + s)[|pad|..] == s;
      pad + s
  }

  /** Index of the first `c` in `s`, or `|s|` when there is none (JavaScript `indexOf` gives -1). */
  function IndexOf(s: string, c: char): (i: nat)
    ensures i <= |s|
    ensures i < |s| ==> s[i] == c
    ensures forall j :: 0 <= j < i ==> s[j] != c
  {
    if s == [] then 0 else if s[0] == c then 0 else 1 + IndexOf(s[1..], c)
  }

  /** `s.split(sep)` for a one-character separator: always at least one part, and no part contains `sep`. */
  function Split(s: string, sep: char): (parts: seq<string>)
    ensures |parts| >= 1
    ensures forall k :: 0 <= k < |parts| ==> sep !in parts[k]
  {
    if s == [] then [""]
    else
      var rest := Split(s[1..], sep);
      if s[0] == sep then [""] + rest else [[s[0]] + rest[0]] + rest[1..]
  }

  /** `parts.join(sep)`. */
  function Join(parts: seq<string>, sep: string): string
  {
    if |parts| == 0 then ""
    else if |parts| == 1 then parts[0]
    else parts[0] + sep + Join(parts[1..], sep)
  }

  /** Splitting and re-joining with the same separator gives the string back. */
  lemma {:induction false} JoinSplit(s: string, sep: char)
    ensures Join(Split(s, sep), [sep]) == s
  {
    if s != [] {
      var rest := Split(s[1..], sep);
      JoinSplit(s[1..], sep);
      if s[0] == sep {
        assert Split(s, sep) == [""] + rest;
      } else {
        var parts := [[s[0]] + rest[0]] + rest[1..];
        assert Split(s, sep) == parts;
        if |rest| == 1 {
          assert Join(parts, [sep]) == [s[0]] + rest[0];
        } else {
          assert parts[1..] == rest[1..];
          assert Join(rest, [sep]) == rest[0] + [sep] + Join(rest[1..], [sep]);
          assert Join(parts, [sep]) == [s[0]] + rest[0] + [sep] + Join(rest[1..], [sep]);
        }
      }
    }
  }

  /** The first part is everything before the first separator; the remaining parts, re-joined, are everything after it. */
  lemma SplitAtFirst(s: string, sep: char)
    ensures var i := IndexOf(s, sep);
            && Split(s, sep)[0] == s[..i]
            && Join(Split(s, sep)[1..], [sep]) == (if i < |s| then s[i + 1..] else "")
  {
    SplitHead(s, sep);
    SplitTail(s, sep);
  }

  lemma {:induction false} SplitHead(s: string, sep: char)
    ensures Split(s, sep)[0] == s[..IndexOf(s, sep)]
  {
    if s != [] && s[0] != sep {
      var i := IndexOf(s, sep);
      SplitHead(s[1..], sep);
      assert i == 1 + IndexOf(s[1..], sep);
      assert s[..i] == [s[0]] + s[1..][..i - 1];
    }
  }

  lemma {:induction false} SplitTail(s: string, sep: char)
    ensures var i := IndexOf(s, sep);
            Join(Split(s, sep)[1..], [sep]) == (if i < |s| then s[i + 1..] else "")
  {
    if s == [] {
    } else if s[0] == sep {
      assert Split(s, sep)[1..] == Split(s[1..], sep);
      JoinSplit(s[1..], sep);
    } else {
      var i := IndexOf(s, sep);
      var rest := Split(s[1..], sep);
      SplitTail(s[1..], sep);
      assert i == 1 + IndexOf(s[1..], sep);
      assert Split(s, sep)[1..] == rest[1..];
      if i < |s| {
        assert s[i + 1..] == s[1..][i - 1 + 1..];
      }
    }
  }

  /** A string without the separator is a single part. */
  lemma {:induction false} SplitNoSeparator(a: string, sep: char)
    requires sep !in a
    ensures Split(a, sep) == [a]
  {
    if a != [] {
      SplitNoSeparator(a[1..], sep);
      assert [a[0]] + a[1..] == a;
    }
  }

  /** A separator after a part without one closes that part; splitting goes on behind it. */
  lemma {:induction false} SplitAfterPart(a: string, b: string, sep: char)
    requires sep !in a
    ensures Split(a + [sep] + b, sep) == [a] + Split(b, sep)
  {
    var s := a + [sep] + b;
    if a == [] {
      assert s[0] == sep && s[1..] == b;
    } else {
      SplitAfterPart(a[1..], b, sep);
      assert s[0] == a[0] && s[1..] == a[1..] + [sep] + b;
      assert [a[0]] + a[1..] == a;
    }
  }

  /**
   * `parts.join(', ')` split at ',' gives back the first part and every later one behind
   * its space, provided no part holds a ','.
   */
  lemma {:induction false} SplitCommaJoin(parts: seq<string>)
    requires |parts| >= 1 && forall k :: 0 <= k < |parts| ==> ',' !in parts[k]
    ensures var r := Split(Join(parts, ", "), ',');
            && |r| == |parts| && r[0] == parts[0]
            && forall k :: 1 <= k < |parts| ==> r[k] == " " + parts[k]
    decreases |parts|
  {
    if |parts| == 1 {
      SplitNoSeparator(parts[0], ',');
    } else {
      var rest := parts[1..];
      assert forall k :: 0 <= k < |rest| ==> rest[k] == parts[k + 1];
      SplitCommaJoin(rest);
      var j := Join(rest, ", ");
      var tail := Split(j, ',');
      assert Join(parts, ", ") == parts[0] + [','] + (" " + j);
      SplitAfterPart(parts[0], " " + j, ',');
      assert (" " + j)[0] == ' ' && (" " + j)[1..] == j;
      assert Split(" " + j, ',') == [[' '] + tail[0]] + tail[1..];
    }
  }

  /** `s.startsWith(prefix)`. */
  predicate StartsWith(s: string, prefix: string) {
    |prefix| <= |s| && s[..|prefix|] == prefix
  }

  predicate IsUpper(c: char) {
    'A' <= c <= 'Z'
  }

  function LowerChar(c: char): (l: char)
    ensures !IsUpper(l)
    ensures !IsUpper(c) ==> l == c
  {
    if IsUpper(c) then ((c as int) + 32) as char else c
  }

  /** `s.toLowerCase()` restricted to the ASCII letters A-Z. */
  function ToLower(s: string): (r: string)
    ensures |r| == |s|
    ensures forall i :: 0 <= i < |s| ==> r[i] == LowerChar(s[i])
  {
    seq(|s|, i requires 0 <= i < |s| => LowerChar(s[i]))
  }

  /** Lower-casing works character by character, so it commutes with cutting the string. */
  lemma ToLowerSlices(s: string, i: nat)
    requires i < |s|
    ensures ToLower(s)[..i] == ToLower(s[..i]) && ToLower(s)[i + 1..] == ToLower(s[i + 1..])
  {
  }

  lemma ToLowerIdempotent(s: string)
    ensures ToLower(ToLower(s)) == ToLower(s)
  {
  }

  /** `s.replace(c, '')` with a one-character string pattern: only the first occurrence goes. */
  function RemoveFirst(s: string, c: char): string
  {
    var i := IndexOf(s, c);
    if i < |s| then s[..i] + s[i + 1..] else s
  }

  /**
   * Removing the first occurrence splices out the `c` that has no `c` before it, keeping
   * everything else in order; so exactly one `c` goes, when there is one, and nothing else.
   */
  lemma RemoveFirstCount(s: string, c: char)
    ensures c in s ==> exists i :: 0 <= i < |s| && s[i] == c && c !in s[..i] && RemoveFirst(s, c) == s[..i] + s[i + 1..]
    ensures c in s ==> multiset(RemoveFirst(s, c)) == multiset(s) - multiset{c}
    ensures c !in s ==> RemoveFirst(s, c) == s
    ensures |RemoveFirst(s, c)| == |s| - (if c in s then 1 else 0)
    ensures forall x :: x in RemoveFirst(s, c) ==> x in s
  {
    var i := IndexOf(s, c);
    if i < |s| {
      assert c !in s[..i] by {
        forall j | 0 <= j < i ensures s[..i][j] != c {
          assert s[..i][j] == s[j];
        }
      }
      assert s == s[..i] + [s[i]] + s[i + 1..];
      assert multiset(s) == multiset(s[..i]) + multiset{c} + multiset(s[i + 1..]);
      forall x | x in RemoveFirst(s, c) ensures x in s {
        assert x in multiset(RemoveFirst(s, c));
      }
    } else {
      assert c !in s;
    }
  }
}
