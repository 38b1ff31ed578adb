/**
 * Identifier patterns (`ID`, api.go).  Go's `regexp` package is not part of
 * the model: an `Engine` stands for it, a pair of functions saying whether a
 * pattern compiles and what the leftmost match of a pattern in a string is.
 * `GoRegexp` states what the model relies on about that engine: a match is
 * a substring of its input, and the two patterns the core itself uses, the
 * empty pattern and `NumericID`, behave as Go's leftmost-first search does.
 */
module Regexp {
  import opened Wrappers
  import opened Errors

  type ID = string

  /** `NumericID`: one or more decimal digits, unanchored. */
  const NumericID: ID := "([0-9]+)"
  const UUIDv7: ID := "^[0-9a-f]{8}(?:-[0-9a-f]{4}){3}-[0-9a-f]{12}$"

  datatype Engine = Engine(compiles: string -> bool, leftmost: (string, string) -> Option<string>)

  predicate IsDigit(c: char) {
    '0' <= c <= '9'
  }

  ghost predicate OccursAt(v: string, s: string, i: nat) {
    i + |v| <= |s| && s[i..i + |v|] == v
  }

  ghost predicate IsSubstring(v: string, s: string) {
    exists i: nat :: OccursAt(v, s, i)
  }

  /** `v` is the leftmost maximal run of digits in `s`, and it starts at `i`. */
  ghost predicate LeftmostMaximalRunAt(s: string, i: nat, v: string) {
    && OccursAt(v, s, i)
    && |v| > 0
    && (forall j :: 0 <= j < |v| ==> IsDigit(v[j]))
    && (forall j :: 0 <= j < i ==> !IsDigit(s[j]))
    && (i + |v| == |s| || !IsDigit(s[i + |v|]))
  }

  /** Length of the run of digits `s` starts with. */
  function DigitPrefixLength(s: string): (n: nat)
    ensures n <= |s|
    ensures forall j :: 0 <= j < n ==> IsDigit(s[j])
    ensures n < |s| ==> !IsDigit(s[n])
  {
    if |s| == 0 || !IsDigit(s[0]) then 0 else 1 + DigitPrefixLength(s[1..])
  }

  /** What Go's leftmost-first search finds for `NumericID` in `s`. */
  function LeftmostDigitRun(s: string): Option<string> {
    if |s| == 0 then None
    else if IsDigit(s[0]) then Some(s[..DigitPrefixLength(s)])
    else LeftmostDigitRun(s[1..])
  }

  /** `LeftmostDigitRun` finds nothing exactly when `s` has no digit, and otherwise the leftmost maximal run. */
  lemma {:induction false} LeftmostDigitRunFinds(s: string)
    ensures LeftmostDigitRun(s).None? <==> forall j :: 0 <= j < |s| ==> !IsDigit(s[j])
    ensures LeftmostDigitRun(s).Some? ==> exists i: nat :: LeftmostMaximalRunAt(s, i, LeftmostDigitRun(s).value)
  {
    if |s| > 0 {
      if IsDigit(s[0]) {
        assert LeftmostMaximalRunAt(s, 0, s[..DigitPrefixLength(s)]);
      } else {
        LeftmostDigitRunFinds(s[1..]);
        if LeftmostDigitRun(s[1..]).Some? {
          var v := LeftmostDigitRun(s[1..]).value;
          var i: nat :| LeftmostMaximalRunAt(s[1..], i, v);
          assert s[i + 1..i + 1 + |v|] == s[1..][i..i + |v|];
          assert LeftmostMaximalRunAt(s, i + 1, v);
        } else {
          assert forall j :: 1 <= j < |s| ==> s[j] == s[1..][j - 1];
        }
      }
    }
  }

  /** Conversely, a leftmost maximal run of digits is what `LeftmostDigitRun` returns. */
  lemma {:induction false} LeftmostMaximalRunIsFound(s: string, i: nat, v: string)
    requires LeftmostMaximalRunAt(s, i, v)
    ensures LeftmostDigitRun(s) == Some(v)
  {
    if i == 0 {
      var n := DigitPrefixLength(s);
      assert IsDigit(s[0]) by { assert s[0] == v[0]; }
      assert forall j :: 0 <= j < |v| ==> s[j] == v[j];
      assert n == |v|;
      assert s[..n] == v;
    } else {
      assert !IsDigit(s[0]);
      assert s[1..][i - 1..i - 1 + |v|] == s[i..i + |v|];
      assert forall j :: 0 <= j < i - 1 ==> s[1..][j] == s[j + 1];
      assert i - 1 + |v| < |s[1..]| ==> s[1..][i - 1 + |v|] == s[i + |v|];
      LeftmostMaximalRunIsFound(s[1..], i - 1, v);
    }
  }

  /** What the model relies on about Go's regexp package. */
  ghost predicate GoRegexp(e: Engine) {
    && (forall p, s :: e.leftmost(p, s).Some? ==> IsSubstring(e.leftmost(p, s).value, s))
    && e.compiles("")
    && (forall s :: e.leftmost("", s) == Some(""))
    && e.compiles(NumericID)
    && (forall s :: e.leftmost(NumericID, s) == LeftmostDigitRun(s))
  }

  /** An engine that knows only the empty pattern and `NumericID`. */
  const MinimalEngine: Engine :=
    Engine(p => p == "" || p == NumericID,
           (p, s) => if p == "" then Some("") else if p == NumericID then LeftmostDigitRun(s) else None)

  /** `GoRegexp` can be met: the minimal engine meets it. */
  lemma MinimalEngineIsGoRegexp()
    ensures GoRegexp(MinimalEngine)
  {
    forall p, s | MinimalEngine.leftmost(p, s).Some?
      ensures IsSubstring(MinimalEngine.leftmost(p, s).value, s)
    {
      if p == "" {
        assert OccursAt("", s, 0);
      } else {
        LeftmostDigitRunFinds(s);
      }
    }
  }

  /** `ID.IsValid`: whether the pattern compiles, with the compile error when it does not. */
  function IsValid(e: Engine, id: ID): (r: (bool, Option<Error>))
    ensures r.0 <==> e.compiles(id)
    ensures r.0 <==> r.1.None?
  {
    if e.compiles(id) then (true, None) else (false, Some(BadPattern(id)))
  }

  /**
   * `ID.Find`: `("", false)` when the pattern does not compile or does not
   * match; otherwise the leftmost match, which is a substring of `s`.
   */
  function Find(e: Engine, id: ID, s: string): (r: (string, bool))
    requires GoRegexp(e)
    ensures !e.compiles(id) ==> r == ("", false)
    ensures r.1 ==> IsSubstring(r.0, s)
    ensures !r.1 ==> r.0 == ""
    ensures id == "" ==> r == ("", true)
    ensures id == NumericID ==> (r.1 <==> exists j :: 0 <= j < |s| && IsDigit(s[j]))
    ensures id == NumericID && r.1 ==> exists i: nat :: LeftmostMaximalRunAt(s, i, r.0)
  {
    LeftmostDigitRunFinds(s);
    if !e.compiles(id) then ("", false)
    else match e.leftmost(id, s)
      case Some(v) => (v, true)
      case None => ("", false)
  }
}
