/**
 * The Python string operations the webhook handler relies on, over `string`
 * (`seq<char>`): ASCII lower-casing, the substring test `p in s`,
 * `s.split(sep)` and `sep.join(parts)` for a one-character separator, and
 * `s.splitlines()` restricted to '\n' line ends.
 */
module Text {

  /** ASCII lower-casing of one character; every other character is unchanged. */
  function LowerChar(c: char): char {
    if 'A' <= c <= 'Z' then (c as int + 32) as char else c
  }

  /** `s.lower()` and `s.casefold()`, which agree on ASCII text. */
  function Lower(s: string): string {
    seq(|s|, i requires 0 <= i < |s| => LowerChar(s[i]))
  }

  lemma LowerAppend(a: string, b: string)
    ensures Lower(a + b) == Lower(a) + Lower(b)
  {
  }

  /** Lower-casing twice is lower-casing once, so `HasTrigger(Lower(s)) == HasTrigger(s)`. */
  lemma LowerIdempotent(s: string)
    ensures Lower(Lower(s)) == Lower(s)
  {
  }

  /** `p` occurs in `s` starting at index `i`. */
  predicate OccursAt(s: string, p: string, i: int) {
    0 <= i && i + |p| <= |s| && s[i..i + |p|] == p
  }

  /** Python's `p in s` for strings. */
  predicate Contains(s: string, p: string) {
    exists i :: 0 <= i <= |s| - |p| && OccursAt(s, p, i)
  }

  /** An occurrence of a pattern covers no character that the pattern lacks. */
  lemma OccurrenceAvoids(s: string, p: string, i: int, sep: char)
    requires sep !in p
    requires OccursAt(s, p, i)
    ensures forall k :: i <= k < i + |p| ==> s[k] != sep
  {
    forall k | i <= k < i + |p|
      ensures s[k] != sep
    {
      assert s[k] == p[k - i];
      assert p[k - i] in p;
    }
  }

  /** An occurrence of a pattern that has no `sep` in it cannot straddle a `sep`. */
  lemma ContainsAcrossSeparator(a: string, sep: char, b: string, p: string)
    requires sep !in p
    requires Contains(a + [sep] + b, p)
    ensures Contains(a, p) || Contains(b, p)
  {
    var s := a + [sep] + b;
    var i :| 0 <= i <= |s| - |p| && OccursAt(s, p, i);
    OccurrenceAvoids(s, p, i, sep);
    assert s[|a|] == sep;
    assert !(i <= |a| < i + |p|);
    if i + |p| <= |a| {
      assert s[i..i + |p|] == a[i..i + |p|];
      assert OccursAt(a, p, i);
    } else {
      var j := i - |a| - 1;
      assert s[i..i + |p|] == b[j..j + |p|];
      assert OccursAt(b, p, j);
    }
  }

  /** The number of occurrences of `c` in `s`. */
  function Count(s: string, c: char): nat
    decreases |s|
  {
    if s == [] then 0 else (if s[0] == c then 1 else 0) + Count(s[1..], c)
  }

  /**
   * Python's `s.split(sep)`: the pieces between occurrences of `sep`, empty
   * pieces included; there is always at least one piece.
   */
  function Split(s: string, sep: char): (parts: seq<string>)
    ensures |parts| > 0
    ensures forall part :: part in parts ==> sep !in part
    decreases |s|
  {
    if s == [] then [[]]
    else
      var rest := Split(s[1..], sep);
      if s[0] == sep then [[]] + rest
      else [[s[0]] + rest[0]] + rest[1..]
  }

  /** Python's `sep.join(parts)`. */
  function Join(parts: seq<string>, sep: char): string
    decreases |parts|
  {
    if |parts| == 0 then []
    else if |parts| == 1 then parts[0]
    else parts[0] + [sep] + Join(parts[1..], sep)
  }

  /** `s.split(sep)` has one piece more than `s` has separators. */
  lemma {:induction false} SplitCount(s: string, sep: char)
    ensures |Split(s, sep)| == Count(s, sep) + 1
    decreases |s|
  {
    if s != [] {
      SplitCount(s[1..], sep);
    }
  }

  /** Joining the pieces of a split restores the string. */
  lemma {:induction false} SplitJoin(s: string, sep: char)
    ensures Join(Split(s, sep), sep) == s
    decreases |s|
  {
    if s != [] {
      var rest := Split(s[1..], sep);
      SplitJoin(s[1..], sep);
      var parts := Split(s, sep);
      assert s == [s[0]] + s[1..];
      if s[0] == sep {
        assert parts == [[]] + rest;
        assert parts[1..] == rest;
        assert Join(parts, sep) == [] + [sep] + Join(rest, sep);
      } else if |rest| == 1 {
        assert parts == [[s[0]] + rest[0]];
      } else {
        assert parts == [[s[0]] + rest[0]] + rest[1..];
        assert parts[1..] == rest[1..];
        assert Join(parts, sep) == [s[0]] + rest[0] + [sep] + Join(rest[1..], sep);
        assert Join(rest, sep) == rest[0] + [sep] + Join(rest[1..], sep);
      }
    }
  }

  /** A string without the separator splits into itself. */
  lemma {:induction false} SplitNoSeparator(s: string, sep: char)
    requires sep !in s
    ensures Split(s, sep) == [s]
    decreases |s|
  {
    if s != [] {
      assert s[1..] == s[|s| - |s[1..]|..];
      assert sep !in s[1..];
      SplitNoSeparator(s[1..], sep);
      assert s == [s[0]] + s[1..];
    }
  }

  /** Splitting at a separator splits each side independently. */
  lemma {:induction false} SplitConcat(x: string, y: string, sep: char)
    ensures Split(x + [sep] + y, sep) == Split(x, sep) + Split(y, sep)
    decreases |x|
  {
    var s := x + [sep] + y;
    if x == [] {
      assert s == [sep] + y;
      assert s[1..] == y;
    } else {
      assert s[1..] == x[1..] + [sep] + y;
      SplitConcat(x[1..], y, sep);
    }
  }

  /** Joining with a separator and splitting again gives back the pieces. */
  lemma {:induction false} JoinSplit(parts: seq<string>, sep: char)
    requires |parts| > 0
    requires forall part :: part in parts ==> sep !in part
    ensures Split(Join(parts, sep), sep) == parts
    decreases |parts|
  {
    if |parts| == 1 {
      SplitNoSeparator(parts[0], sep);
    } else {
      assert parts[0] in parts;
      SplitNoSeparator(parts[0], sep);
      assert forall part :: part in parts[1..] ==> part in parts;
      JoinSplit(parts[1..], sep);
      SplitConcat(parts[0], Join(parts[1..], sep), sep);
      assert parts == [parts[0]] + parts[1..];
    }
  }

  /** Appending one piece appends a separator and that piece. */
  lemma {:induction false} JoinSnoc(parts: seq<string>, last: string, sep: char)
    requires |parts| > 0
    ensures Join(parts + [last], sep) == Join(parts, sep) + [sep] + last
    decreases |parts|
  {
    if |parts| > 1 {
      assert (parts + [last])[1..] == parts[1..] + [last];
      JoinSnoc(parts[1..], last, sep);
    }
  }

  /**
   * Python's `s.splitlines()` for text whose only line break is '\n': the
   * lines without their terminators, and no empty last line for a trailing
   * '\n'; the empty string has no lines.
   */
  function SplitLines(s: string): (lines: seq<string>)
    ensures forall line :: line in lines ==> '\n' !in line
  {
    if s == [] then []
    else
      var parts := Split(s, '\n');
      if parts[|parts| - 1] == [] then
        assert forall line :: line in parts[..|parts| - 1] ==> line in parts;
        parts[..|parts| - 1]
      else parts
  }

  /** Joining the lines with '\n' restores the text, less a trailing '\n'. */
  lemma SplitLinesJoin(s: string)
    ensures Join(SplitLines(s), '\n') == if s != [] && s[|s| - 1] == '\n' then s[..|s| - 1] else s
  {
    if s != [] {
      var parts := Split(s, '\n');
      var n := |parts|;
      SplitJoin(s, '\n');
      if parts[n - 1] == [] {
        if n == 1 {
          assert false;
        }
        assert parts == parts[..n - 1] + [parts[n - 1]];
        JoinSnoc(parts[..n - 1], [], '\n');
        assert s == Join(parts[..n - 1], '\n') + ['\n'];
      } else {
        var last := parts[n - 1];
        assert last in parts;
        assert last[|last| - 1] in last;
        if n > 1 {
          assert parts == parts[..n - 1] + [last];
          JoinSnoc(parts[..n - 1], last, '\n');
        }
        assert s[|s| - 1] == last[|last| - 1];
      }
    }
  }
}
