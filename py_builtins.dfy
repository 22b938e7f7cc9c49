/** The few Python built-ins whose exact behaviour the encoder depends on:
    `int()` on a float, list subscripts, `list.index` and `str.strip`. */
module PyBuiltins {

  datatype Option<T> = None | Some(value: T)

  /** `int(x)` for a float `x`: truncation toward zero (not floor). */
  function Trunc(x: real): (r: int)
    ensures 0.0 <= x ==> r as real <= x < r as real + 1.0
    ensures x < 0.0 ==> r as real - 1.0 < x <= r as real
  {
    if 0.0 <= x then x.Floor else -((-x).Floor)
  }

  /** The position a Python subscript `l[i]` reaches in a list of length `n`:
      negative indices count from the end, anything else raises IndexError. */
  function PyIndex(i: int, n: nat): (r: Option<nat>)
    ensures r.Some? <==> -(n as int) <= i < n
    ensures r.Some? ==> r.value < n
    ensures r.Some? && 0 <= i ==> r.value == i
    ensures r.Some? && i < 0 ==> r.value == i + n
  {
    if 0 <= i < n then Some(i) else if -(n as int) <= i < 0 then Some(i + n) else None
  }

  /** `s.index(x)`: the position of the first occurrence of `x`, or None
      where Python raises ValueError. */
  function IndexOf<T(==)>(s: seq<T>, x: T): (r: Option<nat>)
    ensures r.None? <==> x !in s
    ensures r.Some? ==> r.value < |s| && s[r.value] == x && x !in s[..r.value]
  {
    if s == [] then None
    else if s[0] == x then Some(0)
    else match IndexOf(s[1..], x)
      case None => None
      case Some(k) =>
        assert s[1..][..k] == s[1..k + 1];
        assert s[..k + 1] == [s[0]] + s[1..k + 1];
        Some(k + 1)
  }

  /** Number of leading characters of `s` equal to `c`. */
  function Leading(s: string, c: char): (n: nat)
    ensures n <= |s|
  {
    if s == [] || s[0] != c then 0 else 1 + Leading(s[1..], c)
  }

  /** Number of trailing characters of `s` equal to `c`. */
  function Trailing(s: string, c: char): (n: nat)
    ensures n <= |s|
  {
    if s == [] || s[|s| - 1] != c then 0 else 1 + Trailing(s[..|s| - 1], c)
  }

  /** `Leading` counts exactly the run of `c` at the start of `s`. */
  lemma {:induction false} LeadingRun(s: string, c: char)
    ensures forall k :: 0 <= k < Leading(s, c) ==> s[k] == c
    ensures Leading(s, c) < |s| ==> s[Leading(s, c)] != c
  {
    if s != [] && s[0] == c {
      LeadingRun(s[1..], c);
      forall k | 0 < k < Leading(s, c) ensures s[k] == c {
        assert s[k] == s[1..][k - 1];
      }
    }
  }

  /** `Trailing` counts exactly the run of `c` at the end of `s`. */
  lemma {:induction false} TrailingRun(s: string, c: char)
    ensures forall k :: |s| - Trailing(s, c) <= k < |s| ==> s[k] == c
    ensures Trailing(s, c) < |s| ==> s[|s| - 1 - Trailing(s, c)] != c
  {
    if s != [] && s[|s| - 1] == c {
      var t := s[..|s| - 1];
      TrailingRun(t, c);
      forall k | |s| - Trailing(s, c) <= k < |s| - 1 ensures s[k] == c {
        assert s[k] == t[k];
      }
    }
  }

  /** `s.strip(c)`: `s` without its leading and trailing run of `c`. */
  function StripChar(s: string, c: char): (r: string)
    ensures |r| <= |s|
  {
    var rest := s[Leading(s, c)..];
    rest[..|rest| - Trailing(rest, c)]
  }

  /** What `strip` promises: the result is a contiguous piece of `s` that
      neither starts nor ends with `c`, everything before and after it is
      `c`, and it is empty exactly when every character of `s` is `c`. */
  lemma StripCharSpec(s: string, c: char)
    ensures var r := StripChar(s, c);
            var a := Leading(s, c);
            && a + |r| <= |s|
            && r == s[a..a + |r|]
            && (forall k :: 0 <= k < a ==> s[k] == c)
            && (forall k :: a + |r| <= k < |s| ==> s[k] == c)
    ensures var r := StripChar(s, c); r != [] ==> r[0] != c && r[|r| - 1] != c
    ensures StripChar(s, c) == [] <==> forall k :: 0 <= k < |s| ==> s[k] == c
  {
    var a := Leading(s, c);
    var rest := s[a..];
    var r := StripChar(s, c);
    LeadingRun(s, c);
    TrailingRun(rest, c);
    assert r == s[a..a + |r|];
    forall k | a + |r| <= k < |s| ensures s[k] == c {
      assert s[k] == rest[k - a];
    }
    if r != [] {
      assert r[0] == s[a];
      assert r[|r| - 1] == rest[|rest| - 1 - Trailing(rest, c)];
    }
  }
}
