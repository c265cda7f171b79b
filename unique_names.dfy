/**
 * createUniqueName: the nickname given to a duplicated pipeline. A name
 * that collides with an existing nickname gets " (1)" appended, or, when it
 * already ends in a parenthesised number, that number incremented; the
 * rewrite repeats until the name is free.
 */
module UniqueNames {
  import opened Wrappers

  /** Integer.parseInt on an empty suffix throws NumberFormatException. */
  datatype NameError = NumberFormat

  predicate IsDigit(c: char) { '0' <= c <= '9' }

  predicate AllDigits(s: string) {
    forall i :: 0 <= i < |s| ==> IsDigit(s[i])
  }

  /** The characters a Java regex `.` does not match (no DOTALL, no UNIX_LINES). */
  predicate IsLineTerminator(c: char) {
    c == '\n' || c == '\r' || c == '\U{0085}' || c == '\U{2028}' || c == '\U{2029}'
  }

  predicate HasLineTerminator(s: string) {
    exists i :: 0 <= i < |s| && IsLineTerminator(s[i])
  }

  /** String.lastIndexOf(char): the last position holding `c`, or -1. */
  function LastIndexOf(s: string, c: char): (r: int)
    ensures -1 <= r < |s|
    ensures r >= 0 ==> s[r] == c
    ensures forall i :: r < i < |s| ==> s[i] != c
  {
    if s == [] then -1
    else if s[|s| - 1] == c then |s| - 1
    else LastIndexOf(s[..|s| - 1], c)
  }

  /**
   * The test `s.matches(".*\\([0-9]*\\)")`, phrased through the last '(':
   * the name ends in ')', the text between the last '(' and that ')' is
   * digits, and the text before the '(' has no line terminator.
   */
  predicate HasNumberSuffix(s: string) {
    && |s| >= 2
    && s[|s| - 1] == ')'
    && var p := LastIndexOf(s, '(');
    && p >= 0
    && AllDigits(s[p + 1 .. |s| - 1])
    && !HasLineTerminator(s[..p])
  }

  /** The regular expression read literally: some '(' splits the name as `.*` `(` `[0-9]*` `)`. */
  ghost predicate MatchesSuffixRegex(s: string) {
    exists p :: 0 <= p < |s| - 1 && s[p] == '(' && s[|s| - 1] == ')'
                && AllDigits(s[p + 1 .. |s| - 1]) && !HasLineTerminator(s[..p])
  }

  /** The '(' of the regular expression is necessarily the last one. */
  lemma NumberSuffixIsRegex(s: string)
    ensures HasNumberSuffix(s) <==> MatchesSuffixRegex(s)
  {
    if MatchesSuffixRegex(s) {
      var p :| 0 <= p < |s| - 1 && s[p] == '(' && s[|s| - 1] == ')'
               && AllDigits(s[p + 1 .. |s| - 1]) && !HasLineTerminator(s[..p]);
      var q := LastIndexOf(s, '(');
      if q > p {
        assert false;
      }
    }
  }

  /** The name up to and including the suffix's '('. */
  function SuffixPrefix(s: string): string
    requires HasNumberSuffix(s)
  {
    s[..LastIndexOf(s, '(') + 1]
  }

  /** The digits inside the suffix's parentheses. */
  function SuffixDigits(s: string): string
    requires HasNumberSuffix(s)
  {
    s[LastIndexOf(s, '(') + 1 .. |s| - 1]
  }

  function DigitChar(d: nat): (c: char)
    requires d < 10
    ensures IsDigit(c)
  {
    (('0' as int) + d) as char
  }

  /** Decimal value of a digit string (Integer.parseInt on digits). */
  function DigitsToNat(d: string): nat
    requires AllDigits(d)
  {
    if d == [] then 0 else DigitsToNat(d[..|d| - 1]) * 10 + ((d[|d| - 1] as int) - ('0' as int))
  }

  /** Decimal rendering without leading zeros (string concatenation of an int). */
  function NatToString(n: nat): (r: string)
    ensures |r| >= 1 && AllDigits(r)
  {
    if n < 10 then [DigitChar(n)] else NatToString(n / 10) + [DigitChar(n % 10)]
  }

  /** Parsing a rendered number gives the number back. */
  lemma {:induction false} DigitsRoundTrip(n: nat)
    ensures DigitsToNat(NatToString(n)) == n
  {
    if n >= 10 {
      var s := NatToString(n);
      assert s[..|s| - 1] == NatToString(n / 10);
      DigitsRoundTrip(n / 10);
    }
  }

  function Pow10(e: nat): (r: nat)
    ensures r >= 1
  {
    if e == 0 then 1 else 10 * Pow10(e - 1)
  }

  /** A number rendered in at most `len` digits is below 10^len. */
  lemma {:induction false} NatToStringLength(n: nat, len: nat)
    requires |NatToString(n)| <= len
    ensures n < Pow10(len)
  {
    if n >= 10 {
      NatToStringLength(n / 10, len - 1);
      assert n == 10 * (n / 10) + n % 10;
    } else {
      assert Pow10(len) == 10 * Pow10(len - 1);
    }
  }

  lemma NumberSuffixHasNoLineTerminator(s: string)
    ensures HasNumberSuffix(s) ==> !HasLineTerminator(s)
  {
    if !HasNumberSuffix(s) { return; }
    var p := LastIndexOf(s, '(');
    forall i | 0 <= i < |s| ensures !IsLineTerminator(s[i]) {
      if i < p {
        assert s[i] == s[..p][i];
      } else if p < i < |s| - 1 {
        assert s[i] == s[p + 1 .. |s| - 1][i - p - 1];
      }
    }
  }

  lemma LineTerminatorKept(s: string, t: string)
    requires HasLineTerminator(s)
    ensures HasLineTerminator(s + t)
  {
    var i :| 0 <= i < |s| && IsLineTerminator(s[i]);
    assert (s + t)[i] == s[i];
  }

  /** The candidate `prefix` + n + ")" of the numbering phase. */
  function Candidate(prefix: string, n: nat): string {
    prefix + NatToString(n) + ")"
  }

  /** A prefix that ends in '(' and has no line terminator before it. */
  predicate GoodPrefix(prefix: string) {
    |prefix| >= 1 && prefix[|prefix| - 1] == '(' && !HasLineTerminator(prefix[..|prefix| - 1])
  }

  /** A candidate matches the suffix pattern again, with its own prefix and number. */
  lemma CandidateShape(prefix: string, n: nat)
    requires GoodPrefix(prefix)
    ensures HasNumberSuffix(Candidate(prefix, n))
    ensures LastIndexOf(Candidate(prefix, n), '(') == |prefix| - 1
    ensures SuffixPrefix(Candidate(prefix, n)) == prefix
    ensures SuffixDigits(Candidate(prefix, n)) == NatToString(n)
  {
    var c := Candidate(prefix, n);
    var digits := NatToString(n);
    var q := LastIndexOf(c, '(');
    assert c[|prefix| - 1] == '(';
    if q > |prefix| - 1 {
      assert false;
    }
    assert c[..q] == prefix[..|prefix| - 1];
    assert c[q + 1 .. |c| - 1] == digits;
  }

  function Repeat(s: string, m: nat): string {
    if m == 0 then [] else Repeat(s, m - 1) + s
  }

  /** `name` is prefix + j + ")" for the least j >= from that is not taken. */
  ghost predicate IsFirstFree(prefix: string, from: nat, existing: seq<string>, name: string) {
    exists j: nat :: from <= j && name == Candidate(prefix, j) && name !in existing
                     && forall i: nat :: from <= i < j ==> Candidate(prefix, i) in existing
  }

  /** `name` is `nickname` followed by the fewest copies of " (1)" that make it free. */
  ghost predicate IsFirstFreeRepeat(nickname: string, existing: seq<string>, name: string) {
    exists m: nat :: 1 <= m && name == nickname + Repeat(" (1)", m) && name !in existing
                     && forall i: nat :: i < m ==> nickname + Repeat(" (1)", i) in existing
  }

  /**
   * What createUniqueName promises about a successful `name`: it is free,
   * a free nickname is kept, and a taken one is numbered as the loop does.
   */
  ghost predicate IsUniqueNameFor(nickname: string, existing: seq<string>, name: string) {
    && name !in existing
    && (nickname !in existing ==> name == nickname)
    && (nickname in existing && HasNumberSuffix(nickname) ==>
          SuffixDigits(nickname) != [] && IsFirstFree(SuffixPrefix(nickname), DigitsToNat(SuffixDigits(nickname)) + 1, existing, name))
    && (nickname in existing && !HasNumberSuffix(nickname) && !HasLineTerminator(nickname) ==>
          IsFirstFree(nickname + " (", 1, existing, name))
    && (nickname in existing && HasLineTerminator(nickname) ==> IsFirstFreeRepeat(nickname, existing, name))
  }

  ghost function MaxLen(names: seq<string>): (r: nat)
    ensures forall s :: s in names ==> |s| <= r
  {
    if names == [] then 0
    else var r := MaxLen(names[..|names| - 1]);
      assert names == names[..|names| - 1] + [names[|names| - 1]];
      if |names[|names| - 1]| > r then |names[|names| - 1]| else r
  }

  /** Where the numbering of a taken `nickname` starts: its own suffix plus one, or " (1)". */
  ghost predicate NumberingStart(nickname: string, prefix: string, from: nat) {
    || (HasNumberSuffix(nickname) && SuffixDigits(nickname) != [] && prefix == SuffixPrefix(nickname)
        && from == DigitsToNat(SuffixDigits(nickname)) + 1)
    || (!HasNumberSuffix(nickname) && !HasLineTerminator(nickname) && prefix == nickname + " (" && from == 1)
  }

  /** Loop state while " (1)" is being appended to a name with a line terminator. */
  ghost predicate RepeatPhase(nickname: string, existing: seq<string>, name: string, m: nat) {
    && name == nickname + Repeat(" (1)", m)
    && (m == 0 ==> name == nickname)
    && (m > 0 ==> HasLineTerminator(nickname) && nickname in existing)
    && forall i: nat :: i < m ==> nickname + Repeat(" (1)", i) in existing
  }

  /** Loop state while the number inside the suffix is being counted up. */
  ghost predicate NumberPhase(nickname: string, existing: seq<string>, name: string, prefix: string, from: nat, k: nat) {
    && nickname in existing
    && GoodPrefix(prefix)
    && name == Candidate(prefix, k)
    && from <= k
    && (forall i: nat :: from <= i < k ==> Candidate(prefix, i) in existing)
    && NumberingStart(nickname, prefix, from)
  }

  /**
   * One pass of the renaming loop: a name matching the suffix pattern gets
   * its number parsed and incremented, any other name gets " (1)" appended.
   */
  function Rewrite(name: string): (r: Result<string, NameError>)
    ensures r.Failure? <==> HasNumberSuffix(name) && SuffixDigits(name) == []
    ensures !HasNumberSuffix(name) ==> r == Success(name + " (1)")
  {
    if HasNumberSuffix(name) then
      var parenStart := LastIndexOf(name, '(');
      var digits := name[parenStart + 1 .. |name| - 1];
      if digits == [] then Failure(NumberFormat)
      else Success(name[..parenStart + 1] + NatToString(DigitsToNat(digits) + 1) + ")")
    else Success(name + " (1)")
  }

  /** One rewrite of a taken candidate yields the next candidate. */
  lemma NumberStep(nickname: string, existing: seq<string>, name: string, prefix: string, from: nat, k: nat)
    requires NumberPhase(nickname, existing, name, prefix, from, k) && name in existing
    ensures k < Pow10(MaxLen(existing))
    ensures Rewrite(name).Success?
    ensures NumberPhase(nickname, existing, Rewrite(name).value, prefix, from, k + 1)
  {
    assert |NatToString(k)| <= MaxLen(existing);
    NatToStringLength(k, MaxLen(existing));
    CandidateShape(prefix, k);
    DigitsRoundTrip(k);
  }

  /** The first rewrite of a taken name that carries a non-empty number suffix. */
  lemma StartFromSuffix(nickname: string, existing: seq<string>)
    requires nickname in existing && HasNumberSuffix(nickname) && SuffixDigits(nickname) != []
    ensures var n := DigitsToNat(SuffixDigits(nickname)) + 1;
            Rewrite(nickname).Success? && NumberPhase(nickname, existing, Rewrite(nickname).value, SuffixPrefix(nickname), n, n)
  {
    NumberSuffixHasNoLineTerminator(nickname);
    var p := LastIndexOf(nickname, '(');
    assert SuffixPrefix(nickname)[..p] == nickname[..p];
  }

  /** The first rewrite of a taken name without a suffix or a line terminator. */
  lemma StartPlain(nickname: string, existing: seq<string>)
    requires nickname in existing && !HasNumberSuffix(nickname) && !HasLineTerminator(nickname)
    ensures Rewrite(nickname).Success? && NumberPhase(nickname, existing, Rewrite(nickname).value, nickname + " (", 1, 1)
  {
    var prefix := nickname + " (";
    assert prefix[..|prefix| - 1] == nickname + " ";
    assert nickname + " (1)" == Candidate(prefix, 1);
  }

  /** A name with a line terminator never matches the suffix pattern; it only grows. */
  lemma RepeatStep(nickname: string, existing: seq<string>, name: string, m: nat)
    requires RepeatPhase(nickname, existing, name, m) && name in existing && HasLineTerminator(nickname)
    ensures Rewrite(name) == Success(name + " (1)")
    ensures RepeatPhase(nickname, existing, name + " (1)", m + 1)
  {
    LineTerminatorKept(nickname, Repeat(" (1)", m));
    NumberSuffixHasNoLineTerminator(name);
  }

  /** The invariant of the renaming loop, in whichever phase it is. */
  ghost predicate LoopInv(nickname: string, existing: seq<string>, name: string,
                          numbering: bool, prefix: string, from: nat, k: nat, m: nat) {
    if numbering then NumberPhase(nickname, existing, name, prefix, from, k)
    else RepeatPhase(nickname, existing, name, m)
  }

  /** Progress of the renaming loop: numbering counts up towards `limit`, appending grows towards `bound`. */
  ghost function LoopMeasure(numbering: bool, limit: nat, bound: nat, k: nat, name: string): int {
    if numbering then limit - k else limit + bound + 5 - |name|
  }

  /** A successful rewrite of a taken name keeps the invariant and makes progress. */
  lemma LoopStep(nickname: string, existing: seq<string>, name: string,
                 numbering: bool, prefix: string, from: nat, k: nat, m: nat)
      returns (numbering': bool, prefix': string, from': nat, k': nat, m': nat)
    requires LoopInv(nickname, existing, name, numbering, prefix, from, k, m)
    requires name in existing && Rewrite(name).Success?
    ensures LoopInv(nickname, existing, Rewrite(name).value, numbering', prefix', from', k', m')
    ensures var limit, bound := Pow10(MaxLen(existing)), MaxLen(existing);
            LoopMeasure(numbering', limit, bound, k', Rewrite(name).value) < LoopMeasure(numbering, limit, bound, k, name)
            && 0 <= LoopMeasure(numbering, limit, bound, k, name)
  {
    var bound := MaxLen(existing);
    assert |name| <= bound;
    if numbering {
      NumberStep(nickname, existing, name, prefix, from, k);
      numbering', prefix', from', k', m' := true, prefix, from, k + 1, m;
    } else if HasLineTerminator(nickname) {
      RepeatStep(nickname, existing, name, m);
      numbering', prefix', from', k', m' := false, prefix, from, k, m + 1;
    } else if HasNumberSuffix(nickname) {
      assert name == nickname;
      StartFromSuffix(nickname, existing);
      var n := DigitsToNat(SuffixDigits(nickname)) + 1;
      numbering', prefix', from', k', m' := true, SuffixPrefix(nickname), n, n, m;
    } else {
      assert name == nickname;
      StartPlain(nickname, existing);
      numbering', prefix', from', k', m' := true, nickname + " (", 1, 1, m;
    }
  }

  /** The rewrite fails only on the first pass, on a taken name ending in "()". */
  lemma LoopFailure(nickname: string, existing: seq<string>, name: string,
                    numbering: bool, prefix: string, from: nat, k: nat, m: nat)
    requires LoopInv(nickname, existing, name, numbering, prefix, from, k, m)
    requires name in existing && Rewrite(name).Failure?
    ensures nickname in existing && HasNumberSuffix(nickname) && SuffixDigits(nickname) == []
  {
    if numbering {
      NumberStep(nickname, existing, name, prefix, from, k);
    } else if HasLineTerminator(nickname) {
      RepeatStep(nickname, existing, name, m);
    }
  }

  /** A free name ends the loop with the promised result. */
  lemma LoopExit(nickname: string, existing: seq<string>, name: string,
                 numbering: bool, prefix: string, from: nat, k: nat, m: nat)
    requires LoopInv(nickname, existing, name, numbering, prefix, from, k, m)
    requires name !in existing
    ensures IsUniqueNameFor(nickname, existing, name)
    ensures !(nickname in existing && HasNumberSuffix(nickname) && SuffixDigits(nickname) == [])
  {
    NumberSuffixHasNoLineTerminator(nickname);
    if numbering {
      assert IsFirstFree(prefix, from, existing, name);
    }
  }

  /**
   * The name given to a copy of `nickname`, unique among `existing`.
   * Whenever it succeeds the result is free; a free nickname is kept; a
   * taken one is numbered with the least free number from where its suffix
   * (or " (1)") starts; only an empty "()" suffix fails.
   */
  method CreateUniqueName(nickname: string, existing: seq<string>) returns (r: Result<string, NameError>)
    ensures r.Failure? <==> nickname in existing && HasNumberSuffix(nickname) && SuffixDigits(nickname) == []
    ensures r.Success? ==> IsUniqueNameFor(nickname, existing, r.value)
  {
    var uniqueName := nickname;
    ghost var numbering, prefix, from, k, m := false, [], 0, 0, 0;
    ghost var bound := MaxLen(existing);
    ghost var limit := Pow10(bound);
    assert nickname + Repeat(" (1)", 0) == nickname;
    while uniqueName in existing
      invariant LoopInv(nickname, existing, uniqueName, numbering, prefix, from, k, m)
      decreases LoopMeasure(numbering, limit, bound, k, uniqueName)
    {
      var next := Rewrite(uniqueName);
      if next.Failure? {
        LoopFailure(nickname, existing, uniqueName, numbering, prefix, from, k, m);
        return next;
      }
      numbering, prefix, from, k, m := LoopStep(nickname, existing, uniqueName, numbering, prefix, from, k, m);
      uniqueName := next.value;
    }
    LoopExit(nickname, existing, uniqueName, numbering, prefix, from, k, m);
    return Success(uniqueName);
  }

  /** How "Another (1)" splits into prefix and number. */
  lemma AnotherOneSuffix()
    ensures HasNumberSuffix("Another (1)")
    ensures SuffixPrefix("Another (1)") == "Another ("
    ensures DigitsToNat(SuffixDigits("Another (1)")) == 1 && SuffixDigits("Another (1)") != []
  {
    var prefix := "Another (";
    assert !HasLineTerminator(prefix[..|prefix| - 1]) by {
      forall i | 0 <= i < |prefix| - 1 ensures !IsLineTerminator(prefix[i]) {
        assert prefix[i] in "Another ";
      }
    }
    assert "Another (1)" == Candidate(prefix, 1);
    CandidateShape(prefix, 1);
    DigitsRoundTrip(1);
  }

  /** Duplicating "Another (1)" next to "Another" and "Another (1)" yields "Another (2)". */
  lemma AnotherOneIsRenumbered(name: string)
    requires IsUniqueNameFor("Another (1)", ["New Pipeline", "Another", "New Pipeline (1)", "Another (1)"], name)
    ensures name == "Another (2)"
  {
    var existing := ["New Pipeline", "Another", "New Pipeline (1)", "Another (1)"];
    var prefix := "Another (";
    AnotherOneSuffix();
    assert IsFirstFree(prefix, 2, existing, name);
    var j: nat :| 2 <= j && name == Candidate(prefix, j) && name !in existing
                  && forall i: nat :: 2 <= i < j ==> Candidate(prefix, i) in existing;
    assert Candidate(prefix, 2) == "Another (2)";
    assert "Another (2)" !in existing;
  }
}
