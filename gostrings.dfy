/**
 * The parts of Go's `strings` package the router relies on: `Split` with a
 * one-character separator, `HasPrefix` and `HasSuffix`.  Go's `Split(s, sep)`
 * cuts `s` around every occurrence of `sep` and always yields at least one
 * piece (`Split("", "/")` is `[""]`).
 */
module GoStrings {

  predicate HasPrefix(s: string, prefix: string) {
    |prefix| <= |s| && s[..|prefix|] == prefix
  }

  predicate HasSuffix(s: string, suffix: string) {
    |suffix| <= |s| && s[|s| - |suffix|..] == suffix
  }

  /** Number of occurrences of `c` in `s`. */
  function Count(s: string, c: char): nat {
    if |s| == 0 then 0 else (if s[0] == c then 1 else 0) + Count(s[1..], c)
  }

  /** The text of `s` before the first `c` (all of `s` when there is none). */
  function PrefixBefore(s: string, c: char): string {
    if |s| == 0 || s[0] == c then "" else [s[0]] + PrefixBefore(s[1..], c)
  }

  /** Go's `strings.Split(s, string(sep))`. */
  function Split(s: string, sep: char): (parts: seq<string>)
    ensures |parts| == Count(s, sep) + 1
    ensures forall i :: 0 <= i < |parts| ==> sep !in parts[i]
    ensures parts[0] == PrefixBefore(s, sep)
  {
    if |s| == 0 then [""]
    else
      var rest := Split(s[1..], sep);
      if s[0] == sep then [""] + rest
      else [[s[0]] + rest[0]] + rest[1..]
  }

  /** Go's `strings.Join(parts, string(sep))`, the inverse of `Split`. */
  function Join(parts: seq<string>, sep: char): string
    requires |parts| >= 1
  {
    if |parts| == 1 then parts[0] else parts[0] + [sep] + Join(parts[1..], sep)
  }

  /** Joining the pieces of a split gives back the original string. */
  lemma {:induction false} JoinSplit(s: string, sep: char)
    ensures Join(Split(s, sep), sep) == s
  {
    if |s| > 0 {
      JoinSplit(s[1..], sep);
      var rest := Split(s[1..], sep);
      if s[0] == sep {
        assert Split(s, sep) == [""] + rest;
        assert ([""] + rest)[1..] == rest;
      } else {
        var parts := Split(s, sep);
        assert parts == [[s[0]] + rest[0]] + rest[1..];
        if |rest| == 1 {
          assert Join(parts, sep) == [s[0]] + rest[0];
        } else {
          assert parts[1..] == rest[1..];
          assert Join(parts, sep) == [s[0]] + rest[0] + [sep] + Join(rest[1..], sep);
        }
        assert s == [s[0]] + s[1..];
      }
    }
  }

  /** Splitting a string that starts with a separator-free piece. */
  lemma {:induction false} SplitAfterPiece(p: string, t: string, sep: char)
    requires sep !in p
    ensures Split(p + t, sep) == [p + Split(t, sep)[0]] + Split(t, sep)[1..]
  {
    if |p| > 0 {
      SplitAfterPiece(p[1..], t, sep);
      assert (p + t)[1..] == p[1..] + t;
      assert (p + t)[0] == p[0];
      assert [p[0]] + (p[1..] + Split(t, sep)[0]) == p + Split(t, sep)[0];
    } else {
      assert p + t == t;
      var parts := Split(t, sep);
      assert p + parts[0] == parts[0];
      assert parts == [parts[0]] + parts[1..];
    }
  }

  /** Splitting the join of separator-free pieces gives back the pieces. */
  lemma {:induction false} SplitJoin(parts: seq<string>, sep: char)
    requires |parts| >= 1
    requires forall i :: 0 <= i < |parts| ==> sep !in parts[i]
    ensures Split(Join(parts, sep), sep) == parts
  {
    if |parts| == 1 {
      SplitAfterPiece(parts[0], "", sep);
      assert parts[0] + "" == parts[0];
    } else {
      var tail := Join(parts[1..], sep);
      SplitJoin(parts[1..], sep);
      SplitAfterPiece(parts[0], [sep] + tail, sep);
      assert parts[0] + [sep] + tail == parts[0] + ([sep] + tail);
      assert ([sep] + tail)[1..] == tail;
      assert Split([sep] + tail, sep) == [""] + parts[1..];
      assert parts[0] + "" == parts[0];
      assert [parts[0]] + parts[1..] == parts;
    }
  }

  /** A trailing separator does not change the text before the first separator. */
  lemma {:induction false} PrefixBeforeTrailing(s: string, c: char)
    ensures PrefixBefore(s + [c], c) == PrefixBefore(s, c)
  {
    if |s| > 0 {
      assert (s + [c])[1..] == s[1..] + [c];
      PrefixBeforeTrailing(s[1..], c);
    }
  }

  /** The text before the first `c` is a `c`-free prefix, followed by `c` unless it is everything. */
  lemma {:induction false} PrefixBeforeShape(s: string, c: char)
    ensures HasPrefix(s, PrefixBefore(s, c))
    ensures c !in PrefixBefore(s, c)
    ensures c !in s ==> PrefixBefore(s, c) == s
    ensures c in s ==> |PrefixBefore(s, c)| < |s| && s[|PrefixBefore(s, c)|] == c
  {
    if |s| > 0 && s[0] != c {
      PrefixBeforeShape(s[1..], c);
      assert s == [s[0]] + s[1..];
      assert c in s ==> c in s[1..];
    }
  }

  /** The segments of `/<n>/<d>` for separator-free `n` and `d`. */
  lemma {:induction false} TwoSegmentPath(n: string, d: string)
    requires '/' !in n && '/' !in d
    ensures Split("/" + n + "/" + d, '/') == ["", n, d]
  {
    var parts := ["", n, d];
    assert parts[1..] == [n, d] && parts[1..][1..] == [d];
    assert Join([d], '/') == d;
    assert Join(parts[1..], '/') == n + "/" + d;
    assert Join(parts, '/') == "" + "/" + (n + "/" + d);
    assert "" + "/" + (n + "/" + d) == "/" + n + "/" + d;
    SplitJoin(parts, '/');
  }

  /** The segments of `/<n>` for a separator-free `n`. */
  lemma {:induction false} OneSegmentPath(n: string)
    requires '/' !in n
    ensures Split("/" + n, '/') == ["", n]
  {
    var parts := ["", n];
    assert parts[1..] == [n];
    assert Join(parts, '/') == "" + "/" + n;
    assert "" + "/" + n == "/" + n;
    SplitJoin(parts, '/');
  }
}
