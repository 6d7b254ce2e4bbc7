/** String helpers over `seq<char>`.  JavaScript's `toLowerCase` and
    `toUpperCase` are modelled on ASCII letters only; every other character is
    left as it is. */
module Text {

  predicate IsUpperAscii(c: char) { 'A' <= c <= 'Z' }

  predicate IsLowerAscii(c: char) { 'a' <= c <= 'z' }

  function LowerChar(c: char): char {
    if IsUpperAscii(c) then (c as int + 32) as char else c
  }

  function UpperChar(c: char): char {
    if IsLowerAscii(c) then (c as int - 32) as char else c
  }

  /** `s.toLowerCase()` on ASCII. */
  function Lower(s: string): (r: string)
    ensures |r| == |s|
    ensures forall i :: 0 <= i < |s| ==> r[i] == LowerChar(s[i])
  {
    if s == [] then [] else [LowerChar(s[0])] + Lower(s[1..])
  }

  /** `s.toUpperCase()` on ASCII. */
  function Upper(s: string): (r: string)
    ensures |r| == |s|
    ensures forall i :: 0 <= i < |s| ==> r[i] == UpperChar(s[i])
  {
    if s == [] then [] else [UpperChar(s[0])] + Upper(s[1..])
  }

  /** Case-insensitive equality, `a.toLowerCase() === b.toLowerCase()`. */
  predicate EqualsIgnoreCase(a: string, b: string) {
    Lower(a) == Lower(b)
  }

  /** `s.startsWith(p)`. */
  predicate StartsWith(s: string, p: string) {
    |p| <= |s| && s[..|p|] == p
  }

  /** A string that disagrees with `p` at some position within both does not
      start with `p`. */
  lemma DiffersAt(s: string, p: string, i: nat)
    requires i < |s| && i < |p| && s[i] != p[i]
    ensures !StartsWith(s, p)
  {
  }

  /** `s.includes(t)`: `t` occurs somewhere in `s` as a contiguous block. */
  predicate Contains(s: string, t: string)
    decreases |s|
  {
    StartsWith(s, t) || (s != [] && Contains(s[1..], t))
  }

  /** The independent reading of `Contains`: some offset of `s` holds `t`. */
  predicate OccursAt(s: string, t: string, k: nat) {
    k + |t| <= |s| && s[k..k + |t|] == t
  }

  lemma {:induction false} ContainsIffOccurs(s: string, t: string)
    ensures Contains(s, t) <==> exists k: nat :: OccursAt(s, t, k)
    decreases |s|
  {
    if StartsWith(s, t) {
      assert OccursAt(s, t, 0);
    } else if s != [] {
      ContainsIffOccurs(s[1..], t);
      if Contains(s[1..], t) {
        var k: nat :| OccursAt(s[1..], t, k);
        assert s[k + 1..k + 1 + |t|] == s[1..][k..k + |t|];
        assert OccursAt(s, t, k + 1);
      } else {
        forall k: nat ensures !OccursAt(s, t, k) {
          if OccursAt(s, t, k) {
            if k > 0 {
              assert s[1..][k - 1..k - 1 + |t|] == s[k..k + |t|];
              assert OccursAt(s[1..], t, k - 1);
            }
          }
        }
      }
    }
  }

  /** The empty search term is found in every string. */
  lemma ContainsEmpty(s: string)
    ensures Contains(s, "")
  {
    assert StartsWith(s, "");
  }

  /** The text before the first `c`, or all of `s` when `c` does not occur:
      `s.split(c)[0]`. */
  function TakeUntil(s: string, c: char): (r: string)
    ensures |r| <= |s| && r == s[..|r|]
    ensures c !in r
    ensures |r| == |s| || s[|r|] == c
  {
    if s == [] || s[0] == c then [] else [s[0]] + TakeUntil(s[1..], c)
  }

  /** `s.split(c)`: the pieces between successive occurrences of `c`, always
      at least one (possibly empty) piece. */
  function Split(s: string, c: char): (parts: seq<string>)
    ensures |parts| >= 1
    ensures forall i :: 0 <= i < |parts| ==> c !in parts[i]
    decreases |s|
  {
    var head := TakeUntil(s, c);
    if |head| == |s| then [s] else [head] + Split(s[|head| + 1..], c)
  }

  /** Joining the pieces back with `c` gives the original string. */
  lemma {:induction false} SplitJoin(s: string, c: char)
    ensures Join(Split(s, c), c) == s
    decreases |s|
  {
    var head := TakeUntil(s, c);
    if |head| != |s| {
      var rest := s[|head| + 1..];
      SplitJoin(rest, c);
      assert s == head + [c] + rest;
    }
  }

  /** `parts.join(c)`. */
  function Join(parts: seq<string>, c: char): string {
    if parts == [] then []
    else if |parts| == 1 then parts[0]
    else parts[0] + [c] + Join(parts[1..], c)
  }

  /** The decimal spelling of a natural number, as `String(n)`. */
  function NatToString(n: nat): (r: string)
    ensures |r| >= 1
    ensures forall i :: 0 <= i < |r| ==> '0' <= r[i] <= '9'
    decreases n
  {
    if n < 10 then [Digit(n)] else NatToString(n / 10) + [Digit(n % 10)]
  }

  function Digit(d: nat): (c: char)
    requires d < 10
    ensures '0' <= c <= '9'
  {
    ('0' as int + d) as char
  }
}
