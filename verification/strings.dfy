/** String helpers with the meaning of the Python built-ins the harvester
    uses: `str.lower()`, the `in` substring test, `str.startswith`,
    `sep.join(parts)`, `str.split(sep)` and the slice `s[:n]`. */
module Strings {

  /** `str.lower()` on one character; only ASCII letters are folded. */
  function LowerChar(c: char): char {
    if 'A' <= c <= 'Z' then (c as int + 32) as char else c
  }

  function ToLower(s: string): string {
    seq(|s|, i requires 0 <= i < |s| => LowerChar(s[i]))
  }

  /** `pat` occurs in `s` starting at index `i`. */
  predicate MatchAt(s: string, pat: string, i: int) {
    0 <= i <= |s| - |pat| && s[i..i + |pat|] == pat
  }

  /** Python's `pat in s` for two strings. */
  predicate Contains(s: string, pat: string) {
    exists i :: 0 <= i <= |s| - |pat| && MatchAt(s, pat, i)
  }

  predicate StartsWith(s: string, prefix: string) {
    |prefix| <= |s| && s[..|prefix|] == prefix
  }

  /** Python's `sep.join(parts)`. */
  function Join(parts: seq<string>, sep: string): string {
    if |parts| == 0 then ""
    else if |parts| == 1 then parts[0]
    else parts[0] + sep + Join(parts[1..], sep)
  }

  /** Python's `s.split(sep)` for a one-character separator: always at least
      one piece, empty pieces kept (`"".split(';') == ['']`). */
  function Split(s: string, sep: char): (parts: seq<string>)
    ensures |parts| >= 1
    ensures forall i :: 0 <= i < |parts| ==> sep !in parts[i]
  {
    if |s| == 0 then [""]
    else
      var rest := Split(s[1..], sep);
      if s[0] == sep then [""] + rest
      else [[s[0]] + rest[0]] + rest[1..]
  }

  /** Python's `s[:n]` for a non-negative `n`. */
  function Truncate(s: string, n: nat): (r: string)
    ensures |r| == (if |s| <= n then |s| else n)
    ensures r <= s
    ensures |s| <= n ==> r == s
  {
    if |s| <= n then s else s[..n]
  }

  /** Every character is ASCII, so Python 2 can encode the text into a
      byte string without error. */
  predicate IsAscii(s: string) {
    forall i :: 0 <= i < |s| ==> s[i] as int < 128
  }

  /** Joining the pieces of a split with the separator gives back the
      original string. */
  lemma {:induction false} JoinSplit(s: string, sep: char)
    ensures Join(Split(s, sep), [sep]) == s
  {
    if |s| > 0 {
      var rest := Split(s[1..], sep);
      JoinSplit(s[1..], sep);
      if s[0] == sep {
        assert ([""] + rest)[1..] == rest;
      } else if |rest| > 1 {
        var parts := [[s[0]] + rest[0]] + rest[1..];
        assert parts[1..] == rest[1..];
        assert Join(rest, [sep]) == rest[0] + [sep] + Join(rest[1..], [sep]);
      }
    }
  }

  /** Splitting a join of separator-free pieces gives back the pieces. */
  lemma {:induction false} SplitJoin(parts: seq<string>, sep: char)
    requires |parts| >= 1
    requires forall i :: 0 <= i < |parts| ==> sep !in parts[i]
    ensures Split(Join(parts, [sep]), sep) == parts
  {
    if |parts| == 1 {
      SplitFree(parts[0], sep);
    } else {
      SplitJoin(parts[1..], sep);
      SplitPrefix(parts[0], [sep] + Join(parts[1..], [sep]), sep);
      assert ([sep] + Join(parts[1..], [sep]))[1..] == Join(parts[1..], [sep]);
      assert parts[0] + [sep] + Join(parts[1..], [sep])
          == parts[0] + ([sep] + Join(parts[1..], [sep]));
    }
  }

  /** A separator-free string splits into itself alone. */
  lemma {:induction false} SplitFree(s: string, sep: char)
    requires sep !in s
    ensures Split(s, sep) == [s]
  {
    if |s| > 0 {
      SplitFree(s[1..], sep);
      assert [s[0]] + s[1..] == s;
    }
  }

  /** A separator-free prefix is glued onto the first piece of the rest. */
  lemma {:induction false} SplitPrefix(p: string, rest: string, sep: char)
    requires sep !in p
    requires |rest| > 0 && rest[0] == sep
    ensures Split(p + rest, sep) == [p] + Split(rest[1..], sep)
  {
    if |p| == 0 {
      assert p + rest == rest;
    } else {
      SplitPrefix(p[1..], rest, sep);
      assert (p + rest)[1..] == p[1..] + rest;
      assert [p[0]] + p[1..] == p;
    }
  }

  lemma ToLowerConcat(a: string, b: string)
    ensures ToLower(a + b) == ToLower(a) + ToLower(b)
  {
  }

  /** A pattern with no comma and not starting with a blank cannot straddle
      the `", "` that `'{0}, {1}'.format(a, b)` puts between two strings. */
  lemma ContainsAcrossComma(a: string, b: string, pat: string)
    requires ',' !in pat && |pat| > 0 && pat[0] != ' '
    requires Contains(a + ", " + b, pat)
    ensures Contains(a, pat) || Contains(b, pat)
  {
    var s := a + ", " + b;
    var i :| 0 <= i <= |s| - |pat| && MatchAt(s, pat, i);
    assert s[i..i + |pat|] == pat;
    assert s[|a|] == ',' && s[|a| + 1] == ' ';
    assert forall k :: 0 <= k < |pat| ==> pat[k] == s[i + k];
    if i + |pat| <= |a| {
      assert a[i..i + |pat|] == pat;
      assert MatchAt(a, pat, i);
    } else if i >= |a| + 2 {
      var j := i - |a| - 2;
      assert b[j..j + |pat|] == s[i..i + |pat|];
      assert MatchAt(b, pat, j);
    } else {
      assert false;
    }
  }

  /** A pattern whose first character never occurs in `s` does not occur in
      `s`. */
  lemma AbsentFirstChar(s: string, pat: string)
    requires |pat| > 0 && pat[0] !in s
    ensures !Contains(s, pat)
  {
    forall i | 0 <= i <= |s| - |pat| ensures !MatchAt(s, pat, i) {
      assert s[i..i + |pat|][0] == s[i];
    }
  }
}
