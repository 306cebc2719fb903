/**
 * The JavaScript string operations the dashboard relies on, restricted to
 * ASCII case mapping and ASCII whitespace: `toLowerCase`, `toUpperCase` of one
 * character, `trim`, `split` on one character, `join`, `includes`,
 * `startsWith`, `replace(/"/g, "")`, `replace(/\s+/g, "_")` and the decimal
 * rendering of an integer.
 */
module Text {

  /** The ASCII members of JavaScript's `\s` class: space, tab, LF, VT, FF and CR. */
  predicate IsSpace(c: char) {
    c == ' ' || ('\t' <= c <= '\r')
  }

  predicate IsUpper(c: char) {
    'A' <= c <= 'Z'
  }

  predicate IsLower(c: char) {
    'a' <= c <= 'z'
  }

  predicate IsDigit(c: char) {
    '0' <= c <= '9'
  }

  predicate NoSpace(s: string) {
    forall i | 0 <= i < |s| :: !IsSpace(s[i])
  }

  predicate AllSpace(s: string) {
    forall i | 0 <= i < |s| :: IsSpace(s[i])
  }

  predicate NoUpper(s: string) {
    forall i | 0 <= i < |s| :: !IsUpper(s[i])
  }

  function LowerChar(c: char): (r: char)
    ensures !IsUpper(r)
    ensures IsSpace(r) <==> IsSpace(c)
    ensures !IsUpper(c) ==> r == c
  {
    if IsUpper(c) then (c as int + 32) as char else c
  }

  function UpperChar(c: char): (r: char)
    ensures !IsLower(r)
    ensures !IsLower(c) ==> r == c
  {
    if IsLower(c) then (c as int - 32) as char else c
  }

  /** `s.toLowerCase()` for ASCII letters; every other character is kept. */
  function Lower(s: string): (r: string)
    ensures |r| == |s|
    ensures NoUpper(r)
    ensures NoUpper(s) ==> r == s
    ensures forall i | 0 <= i < |s| :: IsSpace(r[i]) <==> IsSpace(s[i])
    ensures forall i | 0 <= i < |s| :: r[i] == s[i] || (IsUpper(s[i]) && IsLower(r[i]))
  {
    seq(|s|, i requires 0 <= i < |s| => LowerChar(s[i]))
  }

  /** Lower-casing works character by character, so it distributes over concatenation. */
  lemma LowerAppend(x: string, y: string)
    ensures Lower(x + y) == Lower(x) + Lower(y)
  {
    assert forall i | 0 <= i < |x + y| :: Lower(x + y)[i] == (Lower(x) + Lower(y))[i] by {
      forall i | 0 <= i < |x + y| ensures Lower(x + y)[i] == (Lower(x) + Lower(y))[i] {
        if i < |x| { assert (x + y)[i] == x[i]; } else { assert (x + y)[i] == y[i - |x|]; }
      }
    }
  }

  /** The length of the maximal whitespace run at the front of `s`. */
  function LeadingSpaces(s: string): (n: nat)
    ensures n <= |s|
    ensures forall i | 0 <= i < n :: IsSpace(s[i])
    ensures n == |s| || !IsSpace(s[n])
  {
    if |s| > 0 && IsSpace(s[0]) then 1 + LeadingSpaces(s[1..]) else 0
  }

  /** The length of the maximal whitespace run at the back of `s`. */
  function TrailingSpaces(s: string): (n: nat)
    ensures n <= |s|
    ensures forall i | |s| - n <= i < |s| :: IsSpace(s[i])
    ensures n == |s| || !IsSpace(s[|s| - n - 1])
  {
    if |s| > 0 && IsSpace(s[|s| - 1]) then 1 + TrailingSpaces(s[..|s| - 1]) else 0
  }

  /** `s.trim()`: what is left once the leading and trailing whitespace is gone. */
  function Trim(s: string): (r: string)
    ensures |r| <= |s|
    ensures |r| == 0 || (!IsSpace(r[0]) && !IsSpace(r[|r| - 1]))
    ensures NoSpace(s) ==> r == s
    ensures r == "" <==> AllSpace(s)
    ensures forall i | 0 <= i < |r| :: r[i] in s
  {
    var a := LeadingSpaces(s);
    var t := s[a..];
    var k := TrailingSpaces(t);
    assert NoSpace(s) ==> a == 0 && k == 0 by {
      if NoSpace(s) && |t| > 0 { assert t[|t| - 1] == s[|s| - 1]; }
    }
    assert t[..|t| - k] == "" ==> a == |s| by {
      if |t| > 0 { assert t[0] == s[a]; }
    }
    t[..|t| - k]
  }

  /** The number of occurrences of `c` in `s`. */
  function CountChar(s: string, c: char): nat {
    if |s| == 0 then 0 else (if s[0] == c then 1 else 0) + CountChar(s[1..], c)
  }

  /**
   * `s.split(c)` for a one-character separator: the pieces between the
   * occurrences of `c`, which is never empty (the empty string gives `[""]`).
   */
  function Split(s: string, c: char): (parts: seq<string>)
    ensures |parts| == CountChar(s, c) + 1
    ensures forall k | 0 <= k < |parts| :: c !in parts[k]
    decreases |s|
  {
    if |s| == 0 then [""]
    else
      var rest := Split(s[1..], c);
      if s[0] == c then [""] + rest
      else [[s[0]] + rest[0]] + rest[1..]
  }

  /** `parts.join(sep)`; the empty list joins to the empty string. */
  function Join(parts: seq<string>, sep: string): string {
    if |parts| == 0 then ""
    else if |parts| == 1 then parts[0]
    else parts[0] + sep + Join(parts[1..], sep)
  }

  /** Splitting on a character and joining on the same character gives the input back. */
  lemma {:induction false} JoinSplit(s: string, c: char)
    ensures Join(Split(s, c), [c]) == s
    decreases |s|
  {
    if |s| > 0 {
      var rest := Split(s[1..], c);
      JoinSplit(s[1..], c);
      if s[0] == c {
        assert Split(s, c) == [""] + rest;
        assert s == [c] + s[1..];
      } else {
        var parts := Split(s, c);
        assert parts == [[s[0]] + rest[0]] + rest[1..];
        if |rest| == 1 {
          assert Join(rest, [c]) == rest[0];
        } else {
          assert Join(rest, [c]) == rest[0] + [c] + Join(rest[1..], [c]);
          assert parts[1..] == rest[1..];
        }
      }
    }
  }

  /** A piece free of `c` in front of `y` merges into the first part of `y`'s split. */
  lemma {:induction false} SplitPrefix(x: string, y: string, c: char)
    requires c !in x
    ensures Split(x + y, c) == [x + Split(y, c)[0]] + Split(y, c)[1..]
    decreases |x|
  {
    if |x| > 0 {
      var s := Split(y, c);
      var r := Split(x[1..] + y, c);
      SplitPrefix(x[1..], y, c);
      assert (x + y)[0] == x[0] && (x + y)[1..] == x[1..] + y;
      assert Split(x + y, c) == [[x[0]] + r[0]] + r[1..];
      assert r[0] == x[1..] + s[0] && r[1..] == s[1..];
      assert [x[0]] + (x[1..] + s[0]) == x + s[0];
    } else {
      var s := Split(y, c);
      assert x + y == y && x + s[0] == s[0];
      assert s == [s[0]] + s[1..];
    }
  }

  /** Splitting a join on a separator no part contains gives the parts back. */
  lemma {:induction false} SplitJoin(parts: seq<string>, c: char)
    requires |parts| > 0
    requires forall k | 0 <= k < |parts| :: c !in parts[k]
    ensures Split(Join(parts, [c]), c) == parts
    decreases |parts|
  {
    if |parts| == 1 {
      SplitPrefix(parts[0], "", c);
      assert Split("", c) == [""];
      assert parts[0] + "" == parts[0];
      assert Join(parts, [c]) == parts[0];
    } else {
      var rest := Join(parts[1..], [c]);
      SplitJoin(parts[1..], c);
      assert ([c] + rest)[0] == c && ([c] + rest)[1..] == rest;
      var s := Split([c] + rest, c);
      assert s == [""] + parts[1..];
      assert s[0] == "" && s[1..] == parts[1..];
      SplitPrefix(parts[0], [c] + rest, c);
      assert parts[0] + s[0] == parts[0];
      assert parts == [parts[0]] + parts[1..];
      assert Join(parts, [c]) == parts[0] + ([c] + rest);
    }
  }

  /** `s.replace(/x/g, "")` for one character `x`: every occurrence deleted, the rest kept in order. */
  function RemoveChar(s: string, x: char): (r: string)
    ensures x !in r
    ensures |r| == |s| - CountChar(s, x)
    ensures x !in s ==> r == s
    ensures forall i | 0 <= i < |r| :: r[i] in s
  {
    if |s| == 0 then ""
    else if s[0] == x then RemoveChar(s[1..], x)
    else [s[0]] + RemoveChar(s[1..], x)
  }

  /** `s.startsWith(p)`. */
  predicate StartsWith(s: string, p: string) {
    |p| <= |s| && s[..|p|] == p
  }

  /** `hay.includes(needle)`: `needle` occurs somewhere in `hay` as a contiguous piece. */
  predicate Includes(hay: string, needle: string)
    decreases |hay|
  {
    StartsWith(hay, needle) || (|hay| > 0 && Includes(hay[1..], needle))
  }

  /** The empty string occurs in every string, and every string occurs in itself. */
  lemma IncludesTrivial(hay: string)
    ensures Includes(hay, "")
    ensures Includes(hay, hay)
  {
    assert StartsWith(hay, "");
    assert StartsWith(hay, hay);
  }

  /** `needle` sits in `hay` starting at index `k`. */
  predicate OccursAt(hay: string, needle: string, k: int) {
    0 <= k && k + |needle| <= |hay| && hay[k..k + |needle|] == needle
  }

  /** Strings with different first characters differ. */
  lemma DifferAtFirst(a: string, b: string)
    requires |a| > 0 && |b| > 0 && a[0] != b[0]
    ensures a != b
  {
  }

  /** A window of `hay[1..]` is the window of `hay` one position further on. */
  lemma TailWindow(hay: string, k: int, n: int)
    requires |hay| > 0 && 0 <= k && 0 <= n && k + n <= |hay| - 1
    ensures hay[1..][k..k + n] == hay[k + 1..k + 1 + n]
  {
  }

  /** `Includes` holds exactly when some window of `hay` equals `needle`. */
  lemma {:induction false} IncludesAt(hay: string, needle: string)
    ensures Includes(hay, needle) <==> exists k :: OccursAt(hay, needle, k)
    decreases |hay|
  {
    if |hay| > 0 {
      IncludesAt(hay[1..], needle);
      if Includes(hay, needle) && !StartsWith(hay, needle) {
        var k :| OccursAt(hay[1..], needle, k);
        TailWindow(hay, k, |needle|);
        assert OccursAt(hay, needle, k + 1);
      }
      if StartsWith(hay, needle) {
        assert OccursAt(hay, needle, 0);
      }
      if exists k :: OccursAt(hay, needle, k) {
        var k :| OccursAt(hay, needle, k);
        if k > 0 {
          TailWindow(hay, k - 1, |needle|);
          assert OccursAt(hay[1..], needle, k - 1);
        } else {
          assert StartsWith(hay, needle);
        }
      }
    } else {
      if Includes(hay, needle) {
        assert OccursAt(hay, needle, 0);
      }
      if exists k :: OccursAt(hay, needle, k) {
        var k :| OccursAt(hay, needle, k);
        assert StartsWith(hay, needle);
      }
    }
  }

  /**
   * `s.replace(/\s+/g, "_")`, read left to right: a whitespace character
   * becomes `_` when it starts a run and disappears when the previous
   * character (`inRun`) was whitespace too; every other character is kept.
   */
  function Collapse(s: string, inRun: bool): (r: string)
    ensures |r| <= |s|
    ensures forall i | 0 <= i < |r| :: r[i] == '_' || r[i] in s
    ensures NoSpace(r)
    ensures NoSpace(s) ==> r == s
    ensures NoUpper(s) ==> NoUpper(r)
  {
    if |s| == 0 then ""
    else if IsSpace(s[0]) then (if inRun then "" else "_") + Collapse(s[1..], true)
    else [s[0]] + Collapse(s[1..], false)
  }

  /** Every maximal run of whitespace in `s` becomes one `_`. */
  function CollapseSpaces(s: string): (r: string)
    ensures |r| <= |s|
    ensures forall i | 0 <= i < |r| :: r[i] == '_' || r[i] in s
    ensures NoSpace(r)
    ensures NoSpace(s) ==> r == s
    ensures NoUpper(s) ==> NoUpper(r)
  {
    Collapse(s, false)
  }

  /** Whether a run of whitespace is open after reading `a`, starting in state `inRun`. */
  function EndsInRun(a: string, inRun: bool): bool {
    if |a| == 0 then inRun else IsSpace(a[|a| - 1])
  }

  /** Rewriting a concatenation rewrites the second part in the state the first part leaves. */
  lemma {:induction false} CollapseAppend(a: string, y: string, inRun: bool)
    ensures Collapse(a + y, inRun) == Collapse(a, inRun) + Collapse(y, EndsInRun(a, inRun))
    decreases |a|
  {
    if |a| > 0 {
      assert (a + y)[0] == a[0];
      assert (a + y)[1..] == a[1..] + y;
      CollapseAppend(a[1..], y, IsSpace(a[0]));
      assert EndsInRun(a[1..], IsSpace(a[0])) == EndsInRun(a, inRun);
    } else {
      assert a + y == y;
    }
  }

  /** A whitespace run read while already inside a run produces nothing. */
  lemma {:induction false} CollapseInsideRun(w: string)
    requires AllSpace(w)
    ensures Collapse(w, true) == ""
    decreases |w|
  {
    if |w| > 0 {
      CollapseInsideRun(w[1..]);
    }
  }

  /**
   * The defining property of `replace(/\s+/g, "_")`: a maximal whitespace run
   * `w` between `a` and `b` contributes exactly one `_`, and the two sides are
   * rewritten independently.
   */
  lemma CollapseSpacesRun(a: string, w: string, b: string)
    requires |w| > 0 && AllSpace(w)
    requires |a| == 0 || !IsSpace(a[|a| - 1])
    requires |b| == 0 || !IsSpace(b[0])
    ensures CollapseSpaces(a + w + b) == CollapseSpaces(a) + "_" + CollapseSpaces(b)
  {
    CollapseAppend(a + w, b, false);
    CollapseAppend(a, w, false);
    CollapseInsideRun(w[1..]);
    assert Collapse(w, false) == "_";
    assert EndsInRun(a + w, false) == true;
    assert Collapse(b, true) == Collapse(b, false);
  }

  /** The decimal digits of a natural number, most significant first. */
  function NatToString(n: nat): (r: string)
    ensures |r| > 0
    ensures forall i | 0 <= i < |r| :: IsDigit(r[i])
  {
    if n < 10 then [(48 + n) as char] else NatToString(n / 10) + [(48 + n % 10) as char]
  }

  /** `String(n)` for an integer `n`. */
  function IntToString(n: int): string {
    if n < 0 then "-" + NatToString(-n) else NatToString(n)
  }

  /** The value of a string of decimal digits. */
  function DigitsValue(s: string): int
    requires forall i | 0 <= i < |s| :: IsDigit(s[i])
  {
    if |s| == 0 then 0 else 10 * DigitsValue(s[..|s| - 1]) + (s[|s| - 1] as int - 48)
  }

  /** Reading back the digits of `n` gives `n`: the decimal rendering loses nothing. */
  lemma {:induction false} NatToStringRoundTrip(n: nat)
    ensures DigitsValue(NatToString(n)) == n
  {
    if n >= 10 {
      var r := NatToString(n);
      NatToStringRoundTrip(n / 10);
      assert r[..|r| - 1] == NatToString(n / 10);
    }
  }
}
