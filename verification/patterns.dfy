/**
 The two patterns that describe a volume's identifier, as regular expressions with their
 languages, and the length bounds that go with the second one.
 */
module Patterns {

  datatype Regex =
    | Class(chars: set<char>)
    | Concat(first: Regex, second: Regex)
    | Opt(r: Regex)
    | Repeat(r: Regex, lo: nat, hi: nat)
    | Star(r: Regex)

  // Is `s` in the language of `r`?
  ghost predicate Matches(r: Regex, s: string)
    decreases r, 0
  {
    match r
    case Class(cs) => |s| == 1 && s[0] in cs
    case Concat(a, b) => exists i :: 0 <= i <= |s| && Matches(a, s[..i]) && Matches(b, s[i..])
    case Opt(a) => s == "" || Matches(a, s)
    case Repeat(a, lo, hi) => exists n: nat :: lo <= n <= hi && MatchesTimes(a, n, s)
    case Star(a) => exists n: nat :: MatchesTimes(a, n, s)
  }

  // `s` is `n` matches of `r`, one after the other.
  ghost predicate MatchesTimes(r: Regex, n: nat, s: string)
    decreases r, n + 1
  {
    if n == 0 then s == ""
    else exists i :: 0 <= i <= |s| && Matches(r, s[..i]) && MatchesTimes(r, n - 1, s[i..])
  }

  // ---- The clauses of the definition, one by one ----

  lemma ClassClause(cs: set<char>, s: string)
    ensures Matches(Class(cs), s) <==> |s| == 1 && s[0] in cs
  {
  }

  lemma ConcatIntro(a: Regex, b: Regex, s: string, i: nat)
    requires i <= |s| && Matches(a, s[..i]) && Matches(b, s[i..])
    ensures Matches(Concat(a, b), s)
  {
  }

  lemma ConcatElim(a: Regex, b: Regex, s: string) returns (i: nat)
    requires Matches(Concat(a, b), s)
    ensures i <= |s| && Matches(a, s[..i]) && Matches(b, s[i..])
  {
    i :| 0 <= i <= |s| && Matches(a, s[..i]) && Matches(b, s[i..]);
  }

  lemma OptClause(a: Regex, s: string)
    ensures Matches(Opt(a), s) <==> s == "" || Matches(a, s)
  {
  }

  lemma RepeatIntro(a: Regex, lo: nat, hi: nat, s: string, n: nat)
    requires lo <= n <= hi && MatchesTimes(a, n, s)
    ensures Matches(Repeat(a, lo, hi), s)
  {
  }

  lemma RepeatElim(a: Regex, lo: nat, hi: nat, s: string) returns (n: nat)
    requires Matches(Repeat(a, lo, hi), s)
    ensures lo <= n <= hi && MatchesTimes(a, n, s)
  {
    n :| lo <= n <= hi && MatchesTimes(a, n, s);
  }

  lemma StarIntro(a: Regex, s: string, n: nat)
    requires MatchesTimes(a, n, s)
    ensures Matches(Star(a), s)
  {
  }

  lemma StarElim(a: Regex, s: string) returns (n: nat)
    requires Matches(Star(a), s)
    ensures MatchesTimes(a, n, s)
  {
    n :| MatchesTimes(a, n, s);
  }

  // ---- The patterns ----

  const LOWER_ALNUM: set<char> :=
    {'a', 'b', 'c', 'd', 'e', 'f', 'g', 'h', 'i', 'j', 'k', 'l', 'm', 'n', 'o', 'p', 'q', 'r', 's', 't', 'u',
     'v', 'w', 'x', 'y', 'z', '0', '1', '2', '3', '4', '5', '6', '7', '8', '9'}

  const LOWER_ALNUM_DASH: set<char> := LOWER_ALNUM + {'-'}

  // ^[a-z0-9]([a-z0-9-]{0,61}[a-z0-9])?$
  const ID_PATTERN: Regex :=
    Concat(Class(LOWER_ALNUM), Opt(Concat(Repeat(Class(LOWER_ALNUM_DASH), 0, 61), Class(LOWER_ALNUM))))

  // ^[a-z0-9]([-a-z0-9]*[a-z0-9])?$
  const NAME_PATTERN: Regex :=
    Concat(Class(LOWER_ALNUM), Opt(Concat(Star(Class(LOWER_ALNUM_DASH)), Class(LOWER_ALNUM))))

  const MIN_NAME_LENGTH: nat := 1
  const MAX_NAME_LENGTH: nat := 63

  // A label of letters, digits and inner dashes.
  predicate IsDnsLabel(s: string) {
    && |s| >= 1
    && s[0] in LOWER_ALNUM
    && s[|s| - 1] in LOWER_ALNUM
    && forall i :: 0 <= i < |s| ==> s[i] in LOWER_ALNUM_DASH
  }

  // What the id check accepts.
  predicate IsVolumeID(s: string) {
    IsDnsLabel(s) && |s| <= MAX_NAME_LENGTH
  }

  // ---- Languages ----

  lemma {:induction false} ClassTimes(cs: set<char>, n: nat, s: string)
    ensures MatchesTimes(Class(cs), n, s) <==> |s| == n && forall i :: 0 <= i < |s| ==> s[i] in cs
  {
    if n > 0 {
      if MatchesTimes(Class(cs), n, s) {
        var i :| 0 <= i <= |s| && Matches(Class(cs), s[..i]) && MatchesTimes(Class(cs), n - 1, s[i..]);
        ClassTimes(cs, n - 1, s[i..]);
        assert i == 1 && s[..1][0] == s[0];
        assert forall k :: 1 <= k < |s| ==> s[k] == s[1..][k - 1];
      }
      if |s| == n && forall i :: 0 <= i < |s| ==> s[i] in cs {
        ClassTimes(cs, n - 1, s[1..]);
        assert Matches(Class(cs), s[..1]) && MatchesTimes(Class(cs), n - 1, s[1..]);
      }
    }
  }

  predicate AllDashed(s: string) {
    forall i :: 0 <= i < |s| ==> s[i] in LOWER_ALNUM_DASH
  }

  lemma RepeatIsRun(hi: nat, s: string)
    ensures Matches(Repeat(Class(LOWER_ALNUM_DASH), 0, hi), s) <==> |s| <= hi && AllDashed(s)
  {
    if Matches(Repeat(Class(LOWER_ALNUM_DASH), 0, hi), s) {
      var n := RepeatElim(Class(LOWER_ALNUM_DASH), 0, hi, s);
      ClassTimes(LOWER_ALNUM_DASH, n, s);
    }
    if |s| <= hi && AllDashed(s) {
      ClassTimes(LOWER_ALNUM_DASH, |s|, s);
      RepeatIntro(Class(LOWER_ALNUM_DASH), 0, hi, s, |s|);
    }
  }

  lemma StarIsRun(s: string)
    ensures Matches(Star(Class(LOWER_ALNUM_DASH)), s) <==> AllDashed(s)
  {
    if Matches(Star(Class(LOWER_ALNUM_DASH)), s) {
      var n := StarElim(Class(LOWER_ALNUM_DASH), s);
      ClassTimes(LOWER_ALNUM_DASH, n, s);
    }
    if AllDashed(s) {
      ClassTimes(LOWER_ALNUM_DASH, |s|, s);
      StarIntro(Class(LOWER_ALNUM_DASH), s, |s|);
    }
  }

  function Framed(middle: Regex): Regex {
    Concat(Class(LOWER_ALNUM), Opt(Concat(middle, Class(LOWER_ALNUM))))
  }

  // What stands between the first and the last character.
  function Inner(s: string): string
    requires |s| >= 2
  {
    s[1..][..|s| - 2]
  }

  // A framed pattern: a first character, and unless that is all, something for the middle
  // and a last character.
  lemma FramedClause(middle: Regex, s: string)
    ensures Matches(Framed(middle), s) <==>
              && |s| >= 1 && s[0] in LOWER_ALNUM
              && (|s| >= 2 ==> s[|s| - 1] in LOWER_ALNUM && Matches(middle, Inner(s)))
  {
    var last := Class(LOWER_ALNUM);
    var tail := Concat(middle, last);
    if Matches(Framed(middle), s) {
      var i := ConcatElim(last, Opt(tail), s);
      ClassClause(LOWER_ALNUM, s[..i]);
      OptClause(tail, s[i..]);
      assert i == 1 && s[..1][0] == s[0];
      if |s| >= 2 {
        var t := s[1..];
        var j := ConcatElim(middle, last, t);
        ClassClause(LOWER_ALNUM, t[j..]);
        assert j == |s| - 2 && t[j..][0] == s[|s| - 1];
      }
    }
    if |s| >= 1 && s[0] in LOWER_ALNUM && (|s| >= 2 ==> s[|s| - 1] in LOWER_ALNUM && Matches(middle, Inner(s))) {
      var t := s[1..];
      ClassClause(LOWER_ALNUM, s[..1]);
      OptClause(tail, t);
      if |s| >= 2 {
        ClassClause(LOWER_ALNUM, t[|s| - 2..]);
        ConcatIntro(middle, last, t, |s| - 2);
      }
      ConcatIntro(last, Opt(tail), s, 1);
    }
  }

  lemma DnsLabelByParts(s: string)
    ensures IsDnsLabel(s) <==>
              && |s| >= 1 && s[0] in LOWER_ALNUM
              && (|s| >= 2 ==> s[|s| - 1] in LOWER_ALNUM && AllDashed(Inner(s)))
  {
    if |s| >= 2 {
      assert forall k :: 1 <= k < |s| - 1 ==> s[k] == Inner(s)[k - 1];
      assert forall k :: 0 <= k < |Inner(s)| ==> Inner(s)[k] == s[k + 1];
    }
  }

  // The id pattern matches exactly the strings that the metadata.name pattern matches
  // within its length bounds, and these are the strings the check accepts.
  lemma PatternsAgree(s: string)
    ensures Matches(ID_PATTERN, s) <==> Matches(NAME_PATTERN, s) && MIN_NAME_LENGTH <= |s| <= MAX_NAME_LENGTH
    ensures Matches(ID_PATTERN, s) <==> IsVolumeID(s)
  {
    FramedClause(Repeat(Class(LOWER_ALNUM_DASH), 0, 61), s);
    FramedClause(Star(Class(LOWER_ALNUM_DASH)), s);
    DnsLabelByParts(s);
    if |s| >= 2 {
      RepeatIsRun(61, Inner(s));
      StarIsRun(Inner(s));
    }
  }
}
