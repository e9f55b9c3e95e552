/** The anchored regular expressions of the validators (`/^\d{6}$/`,
    `/^[A-Z]{5}[0-9]{4}[A-Z]{1}$/`, ...) are all a fixed sequence of
    one-character classes. A pattern here is that sequence, one class per
    position, and `Matches` is the anchored match. */
module Patterns {
  import opened Common

  datatype CharClass =
    | Digit          // \d, [0-9]
    | Upper          // [A-Z]
    | UpperOrDigit   // [A-Z\d], [A-Z0-9]
    | Literal(c: char)

  predicate InClass(k: CharClass, c: char) {
    match k
    case Digit => IsDigit(c)
    case Upper => IsUpper(c)
    case UpperOrDigit => IsUpperOrDigit(c)
    case Literal(l) => c == l
  }

  /** `k{n}` */
  function Repeat(k: CharClass, n: nat): (p: seq<CharClass>)
    ensures |p| == n && forall i :: 0 <= i < n ==> p[i] == k
  {
    if n == 0 then [] else [k] + Repeat(k, n - 1)
  }

  /** `^p$` */
  predicate Matches(p: seq<CharClass>, s: string) {
    |s| == |p| && forall i :: 0 <= i < |s| ==> InClass(p[i], s[i])
  }

  /** A concatenated pattern matches exactly the concatenations of matches. */
  lemma MatchesConcat(p: seq<CharClass>, q: seq<CharClass>, s: string)
    requires |s| == |p| + |q|
    ensures Matches(p + q, s) <==> Matches(p, s[..|p|]) && Matches(q, s[|p|..])
  {
    if Matches(p, s[..|p|]) && Matches(q, s[|p|..]) {
      forall i | 0 <= i < |s| ensures InClass((p + q)[i], s[i]) {
        if i >= |p| { assert s[i] == s[|p|..][i - |p|]; }
        else { assert s[i] == s[..|p|][i]; }
      }
    }
  }

  /** `\d{n}` accepts exactly the strings of n ASCII digits. */
  lemma MatchesDigits(n: nat, s: string)
    ensures Matches(Repeat(Digit, n), s) <==> |s| == n && AllDigits(s)
  {
  }
}
