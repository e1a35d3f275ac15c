/**
 Excel sheet names: at most 31 characters, none of \ / ? * [ ] :, distinct ignoring case, and never "Summary".
 A clash is resolved by trying " (2)", " (3)", … until a name is free.
 */
module SheetNames {

  const LIMIT: nat := 31

  /** More sections than a JavaScript array can hold. */
  const MAX_SECTIONS: nat := 0x1_0000_0000

  predicate Forbidden(c: char) {
    c == '\\' || c == '/' || c == '?' || c == '*' || c == '[' || c == ']' || c == ':'
  }

  function Replace(s: string): string {
    seq(|s|, i requires 0 <= i < |s| => if Forbidden(s[i]) then '-' else s[i])
  }

  function TrimStart(s: string, blank: char -> bool): string {
    if s != [] && blank(s[0]) then TrimStart(s[1..], blank) else s
  }

  function TrimEnd(s: string, blank: char -> bool): string
    decreases |s|
  {
    if s != [] && blank(s[|s| - 1]) then TrimEnd(s[..|s| - 1], blank) else s
  }

  function Cut(s: string, n: nat): string {
    if |s| <= n then s else s[..n]
  }

  /** The name a section would have if it were alone. `blank` is what trim() removes. */
  function Base(name: string, blank: char -> bool): string {
    var trimmed := TrimEnd(TrimStart(Replace(name), blank), blank);
    Cut(if trimmed == "" then "Data" else trimmed, LIMIT)
  }

  function Digit(n: nat): char
    requires n < 10
  {
    ('0' as int + n) as char
  }

  function Digits(n: nat): string {
    if n < 10 then [Digit(n)] else Digits(n / 10) + [Digit(n % 10)]
  }

  function Suffix(n: nat): string {
    " (" + Digits(n) + ")"
  }

  function WithSuffix(base: string, n: nat): string {
    Cut(base, if |Suffix(n)| <= LIMIT then LIMIT - |Suffix(n)| else 0) + Suffix(n)
  }

  /** What toLowerCase must do for the suffixes to stay apart: leave spaces, brackets and digits at the end alone. */
  ghost predicate KeepsSuffixes(lower: string -> string) {
    forall s: string, n: nat :: lower(s + Suffix(n)) == lower(s) + Suffix(n)
  }

  // ---------------------------------------------------------------- suffixes

  predicate IsDigit(c: char) {
    '0' <= c <= '9'
  }

  function DigitValue(c: char): nat {
    if IsDigit(c) then c as int - '0' as int else 0
  }

  function Value(s: string): nat {
    if s == [] then 0 else Value(s[..|s| - 1]) * 10 + DigitValue(s[|s| - 1])
  }

  lemma ValueAppend(s: string, n: nat)
    requires n < 10
    ensures Value(s + [Digit(n)]) == Value(s) * 10 + n && IsDigit(Digit(n))
  {
    assert (s + [Digit(n)])[..|s|] == s;
  }

  lemma {:induction false} DigitsSpell(n: nat)
    ensures Value(Digits(n)) == n && forall c <- Digits(n) :: IsDigit(c)
  {
    hide Value, Digit, IsDigit;
    if n < 10 {
      ValueAppend([], n);
      assert [] + [Digit(n)] == [Digit(n)];
      assert Value([]) == 0 by { ValueOfNone(); }
    } else {
      DigitsSpell(n / 10);
      ValueAppend(Digits(n / 10), n % 10);
    }
  }

  lemma ValueOfNone()
    ensures Value([]) == 0
  {}

  function Pow10(k: nat): nat {
    if k == 0 then 1 else 10 * Pow10(k - 1)
  }

  lemma {:induction false} DigitsLength(n: nat, k: nat)
    requires n < Pow10(k) && k > 0
    ensures |Digits(n)| <= k
  {
    if n >= 10 {
      DigitsLength(n / 10, k - 1);
    }
  }

  /** The text ends in "(", these digits, and one more character. */
  ghost predicate EndsIn(s: string, d: string) {
    && |s| >= |d| + 2 && s[|s| - 2 - |d|] == '('
    && forall k :: 0 <= k < |d| ==> d[k] == s[|s| - 1 - |d| + k] && IsDigit(d[k])
  }

  lemma SuffixEnds(a: string, n: nat)
    ensures EndsIn(a + Suffix(n), Digits(n))
  {
    var s, d := a + Suffix(n), Digits(n);
    DigitsSpell(n);
    hide Digits;
    forall k | 0 <= k < |d|
      ensures d[k] == s[|s| - 1 - |d| + k] && IsDigit(d[k])
    {
      assert d[k] in d;
    }
  }

  lemma LongerDigitsDoNotEnd(s: string, x: string, y: string)
    requires EndsIn(s, x) && |x| < |y|
    ensures !EndsIn(s, y)
  {
    var atBracket := y[|y| - 1 - |x|];
  }

  /** A suffix can be read off the end of any name. */
  lemma SuffixesApart(a: string, b: string, m: nat, n: nat)
    requires a + Suffix(m) == b + Suffix(n)
    ensures m == n
  {
    var s, x, y := a + Suffix(m), Digits(m), Digits(n);
    SuffixEnds(a, m);
    SuffixEnds(b, n);
    DigitsSpell(m);
    DigitsSpell(n);
    hide Digits, Suffix;
    if |x| < |y| {
      LongerDigitsDoNotEnd(s, x, y);
    } else if |y| < |x| {
      LongerDigitsDoNotEnd(s, y, x);
    } else {
      assert x == y;
    }
  }

  // ---------------------------------------------------------------- characters

  ghost predicate Clean(s: string) {
    forall c <- s :: !Forbidden(c)
  }

  lemma {:induction false} TrimStartClean(s: string, blank: char -> bool)
    requires Clean(s)
    ensures Clean(TrimStart(s, blank))
  {
    if s != [] && blank(s[0]) {
      TrimStartClean(s[1..], blank);
    }
  }

  lemma {:induction false} TrimEndClean(s: string, blank: char -> bool)
    requires Clean(s)
    ensures Clean(TrimEnd(s, blank))
    decreases |s|
  {
    if s != [] && blank(s[|s| - 1]) {
      TrimEndClean(s[..|s| - 1], blank);
    }
  }

  /** Nonempty, short enough, and of allowed characters. */
  ghost predicate Allowed(s: string) {
    0 < |s| <= LIMIT && Clean(s)
  }

  lemma {:induction false} TrimStartIs(s: string, blank: char -> bool) returns (i: nat)
    ensures i <= |s| && TrimStart(s, blank) == s[i..]
    ensures (forall k :: 0 <= k < i ==> blank(s[k])) && (i < |s| ==> !blank(s[i]))
  {
    if s != [] && blank(s[0]) {
      var j := TrimStartIs(s[1..], blank);
      i := j + 1;
      assert forall k :: 0 < k < i ==> s[k] == s[1..][k - 1];
    } else {
      i := 0;
    }
  }

  lemma {:induction false} TrimEndIs(s: string, blank: char -> bool) returns (j: nat)
    ensures j <= |s| && TrimEnd(s, blank) == s[..j]
    ensures (forall k :: j <= k < |s| ==> blank(s[k])) && (j > 0 ==> !blank(s[j - 1]))
    decreases |s|
  {
    if s != [] && blank(s[|s| - 1]) {
      j := TrimEndIs(s[..|s| - 1], blank);
    } else {
      j := |s|;
    }
  }

  /** What stands between the blanks at both ends. */
  ghost predicate Trimmed(s: string, i: nat, j: nat, blank: char -> bool) {
    && i <= j <= |s| && (forall k :: 0 <= k < i || j <= k < |s| ==> blank(s[k]))
    && (i < j ==> !blank(s[i]) && !blank(s[j - 1]))
  }

  ghost predicate NamedAfter(base: string, s: string, i: nat, j: nat, blank: char -> bool) {
    Trimmed(s, i, j, blank) && base == if i == j then "Data" else if j - i <= 31 then s[i..j] else s[i..i + 31]
  }

  /**
   A section's own name: its forbidden characters as dashes, without the blanks around it, the first 31 characters
   of that, or Data when nothing is left.
   */
  lemma BaseIs(name: string, blank: char -> bool)
    ensures |Replace(name)| == |name|
    ensures forall k :: 0 <= k < |name| ==>
              Replace(name)[k] == if name[k] in {'\\', '/', '?', '*', '[', ']', ':'} then '-' else name[k]
    ensures exists i: nat, j: nat :: NamedAfter(Base(name, blank), Replace(name), i, j, blank)
  {
    var s := Replace(name);
    var i := TrimStartIs(s, blank);
    var j := TrimEndIs(s[i..], blank);
    TrimmedIs(s, i, j, blank);
    var mid := s[i..i + j];
    assert s[i..][..j] == mid && (mid == "" <==> j == 0);
    assert j > 31 ==> mid[..31] == s[i..i + 31];
    hide TrimStart, TrimEnd, Replace, Trimmed;
    assert Base(name, blank) == Cut(if mid == "" then "Data" else mid, LIMIT);
    assert NamedAfter(Base(name, blank), s, i, i + j, blank);
  }

  lemma TrimmedIs(s: string, i: nat, j: nat, blank: char -> bool)
    requires i <= |s| && j <= |s| - i
    requires (forall k :: 0 <= k < i ==> blank(s[k])) && (i < |s| ==> !blank(s[i]))
    requires (forall k :: j <= k < |s[i..]| ==> blank(s[i..][k])) && (j > 0 ==> !blank(s[i..][j - 1]))
    ensures Trimmed(s, i, i + j, blank)
  {
    forall k | i + j <= k < |s|
      ensures blank(s[k])
    {
      assert s[i..][k - i] == s[k];
    }
  }

  /** A numbered form: as much of the base as fits in 31 characters before a space and the number in brackets. */
  lemma NumberedIs(base: string, n: nat)
    requires n < Pow10(10)
    ensures exists k: nat, d: string ::
              && k <= |base| && WithSuffix(base, n) == base[..k] + (" (" + d + ")") && Value(d) == n && (forall c <- d :: IsDigit(c))
              && (k < |base| ==> |WithSuffix(base, n)| == 31) && |WithSuffix(base, n)| <= 31
  {
    DigitsSpell(n);
    DigitsLength(n, 10);
    hide Digits, Value, IsDigit;
    var d := Digits(n);
    var k := if |base| <= 28 - |d| then |base| else 28 - |d|;
    assert base[..|base|] == base;
    assert WithSuffix(base, n) == base[..k] + (" (" + d + ")");
  }

  lemma AllowedIs(s: string)
    ensures Allowed(s) <==> 0 < |s| <= 31 && forall c <- s :: c !in {'\\', '/', '?', '*', '[', ']', ':'}
  {}

  lemma BaseIsAllowed(name: string, blank: char -> bool)
    ensures Allowed(Base(name, blank))
  {
    TrimStartClean(Replace(name), blank);
    TrimEndClean(TrimStart(Replace(name), blank), blank);
    hide TrimStart, TrimEnd, Replace;
  }

  lemma WithSuffixIsAllowed(base: string, n: nat)
    requires Allowed(base) && n < Pow10(10)
    ensures Allowed(WithSuffix(base, n))
  {
    DigitsLength(n, 10);
    DigitsSpell(n);
    hide Digits;
  }

  // ---------------------------------------------------------------- the retry loop

  /** What the names so far take, with the summary sheet. */
  function Taken(names: seq<string>, lower: string -> string): set<string>
    decreases |names|
  {
    if names == [] then {"summary"} else Taken(names[..|names| - 1], lower) + {lower(names[|names| - 1])}
  }

  /** Every numbered form below n is taken. */
  ghost predicate TakenUpTo(base: string, n: nat, taken: set<string>, lower: string -> string) {
    forall m: nat :: 2 <= m < n ==> lower(WithSuffix(base, m)) in taken
  }

  /** The base itself when free, otherwise the first numbered form that is. */
  ghost predicate IsFirstFree(name: string, base: string, taken: set<string>, lower: string -> string) {
    && lower(name) !in taken
    && (name != base ==> lower(base) in taken && exists n: nat :: n >= 2 && name == WithSuffix(base, n) && TakenUpTo(base, n, taken, lower))
  }

  /** The numbered forms of one base up to n, lower-cased. */
  ghost function Tried(base: string, n: nat, lower: string -> string): set<string> {
    set m: nat | 2 <= m < n :: lower(WithSuffix(base, m))
  }

  lemma TriedNext(base: string, n: nat, lower: string -> string)
    requires n >= 2
    ensures Tried(base, n + 1, lower) == Tried(base, n, lower) + {lower(WithSuffix(base, n))}
  {
    hide WithSuffix;
  }

  lemma {:induction false} TriedAreDistinct(base: string, n: nat, lower: string -> string)
    requires KeepsSuffixes(lower) && n >= 2
    ensures |Tried(base, n, lower)| == n - 2
  {
    hide WithSuffix, KeepsSuffixes;
    if n == 2 {
      assert Tried(base, n, lower) == {};
    } else {
      var last := lower(WithSuffix(base, n - 1));
      TriedAreDistinct(base, n - 1, lower);
      TriedNext(base, n - 1, lower);
      forall m: nat | 2 <= m < n - 1
        ensures lower(WithSuffix(base, m)) != last
      {
        LoweredApart(base, m, n - 1, lower);
      }
      assert last !in Tried(base, n - 1, lower);
      hide Tried;
    }
  }

  lemma LoweredApart(base: string, m: nat, n: nat, lower: string -> string)
    requires KeepsSuffixes(lower) && m != n
    ensures lower(WithSuffix(base, m)) != lower(WithSuffix(base, n))
  {
    var x := Cut(base, if |Suffix(m)| <= LIMIT then LIMIT - |Suffix(m)| else 0);
    var y := Cut(base, if |Suffix(n)| <= LIMIT then LIMIT - |Suffix(n)| else 0);
    assert lower(x + Suffix(m)) == lower(x) + Suffix(m);
    assert lower(y + Suffix(n)) == lower(y) + Suffix(n);
    if lower(x) + Suffix(m) == lower(y) + Suffix(n) {
      SuffixesApart(lower(x), lower(y), m, n);
    }
  }

  lemma {:induction false} SmallerSet(a: set<string>, b: set<string>)
    requires a <= b
    ensures |a| <= |b|
  {
    if a != {} {
      var x :| x in a;
      SmallerSet(a - {x}, b - {x});
    }
  }

  /** All forms tried so far were taken, so there are no more of them than names. */
  lemma TriesAreBounded(base: string, n: nat, taken: set<string>, lower: string -> string)
    requires KeepsSuffixes(lower) && n >= 2 && TakenUpTo(base, n, taken, lower)
    ensures n <= |taken| + 2
  {
    TriedAreDistinct(base, n, lower);
    SmallerSet(Tried(base, n, lower), taken);
  }

  /** The retry loop ends: it tries at most one form more than there are names taken. */
  method FreeName(base: string, taken: set<string>, lower: string -> string) returns (name: string)
    requires KeepsSuffixes(lower) && Allowed(base) && |taken| <= MAX_SECTIONS
    ensures IsFirstFree(name, base, taken, lower) && Allowed(name)
  {
    hide WithSuffix, Allowed, KeepsSuffixes;
    name := base;
    var i := 2;
    while lower(name) in taken
      invariant i >= 2 && TakenUpTo(base, i - 1, taken, lower)
      invariant name == if i == 2 then base else WithSuffix(base, i - 1)
      invariant i > 2 ==> lower(base) in taken
      invariant Allowed(name)
      decreases |taken| + 3 - i
    {
      TriesAreBounded(base, i, taken, lower);
      assert i < Pow10(10) by { assert Pow10(10) == 10000000000; }
      WithSuffixIsAllowed(base, i);
      name := WithSuffix(base, i);
      i := i + 1;
    }
    if i > 2 {
      assert name == WithSuffix(base, i - 1);
    }
  }

  lemma {:induction false} TakenHolds(names: seq<string>, lower: string -> string)
    ensures |Taken(names, lower)| <= |names| + 1 && "summary" in Taken(names, lower)
    ensures forall i :: 0 <= i < |names| ==> lower(names[i]) in Taken(names, lower)
    decreases |names|
  {
    if names != [] {
      TakenHolds(names[..|names| - 1], lower);
    }
  }

  /** Valid names, and none the summary sheet's. */
  ghost predicate AllAllowed(names: seq<string>, lower: string -> string) {
    forall i :: 0 <= i < |names| ==> Allowed(names[i]) && lower(names[i]) != "summary"
  }

  ghost predicate DistinctIgnoringCase(names: seq<string>, lower: string -> string) {
    forall i, j :: 0 <= i < j < |names| ==> lower(names[i]) != lower(names[j])
  }

  /** Each name is the first free one after those before it. */
  ghost predicate EachFirstFree(names: seq<string>, sections: seq<string>, blank: char -> bool, lower: string -> string) {
    && |names| <= |sections|
    && forall i :: 0 <= i < |names| ==> IsFirstFree(names[i], Base(sections[i], blank), Taken(names[..i], lower), lower)
  }

  lemma NamedNext(names: seq<string>, name: string, lower: string -> string)
    requires AllAllowed(names, lower) && DistinctIgnoringCase(names, lower) && Allowed(name) && lower(name) !in Taken(names, lower)
    ensures AllAllowed(names + [name], lower) && DistinctIgnoringCase(names + [name], lower)
  {
    hide Allowed, Taken;
    TakenHolds(names, lower);
  }

  lemma FirstFreeNext(names: seq<string>, sections: seq<string>, blank: char -> bool, lower: string -> string, name: string)
    requires EachFirstFree(names, sections, blank, lower) && |names| < |sections|
    requires IsFirstFree(name, Base(sections[|names|], blank), Taken(names, lower), lower)
    ensures EachFirstFree(names + [name], sections, blank, lower)
  {
    hide IsFirstFree, Base, Taken;
    var more := names + [name];
    forall i | 0 <= i < |more|
      ensures IsFirstFree(more[i], Base(sections[i], blank), Taken(more[..i], lower), lower)
    {
      assert more[..i] == names[..i];
    }
  }

  lemma TakenNext(names: seq<string>, name: string, lower: string -> string)
    ensures Taken(names + [name], lower) == Taken(names, lower) + {lower(name)}
  {
    assert (names + [name])[..|names|] == names;
  }

  lemma FirstFreeIsFree(name: string, base: string, taken: set<string>, lower: string -> string)
    requires IsFirstFree(name, base, taken, lower)
    ensures lower(name) !in taken
  {}

  /** Every list of sections gets valid names, pairwise distinct and none "Summary", ignoring case. */
  method UniqueSheetNames(sections: seq<string>, blank: char -> bool, lower: string -> string) returns (names: seq<string>)
    requires KeepsSuffixes(lower) && |sections| < MAX_SECTIONS
    ensures |names| == |sections| && AllAllowed(names, lower) && DistinctIgnoringCase(names, lower)
    ensures EachFirstFree(names, sections, blank, lower)
  {
    hide Base, Allowed, KeepsSuffixes, IsFirstFree;
    var taken := {"summary"};
    names := [];
    for k := 0 to |sections|
      invariant |names| == k && taken == Taken(names, lower)
      invariant AllAllowed(names, lower) && DistinctIgnoringCase(names, lower)
      invariant EachFirstFree(names, sections, blank, lower)
    {
      hide AllAllowed, DistinctIgnoringCase, EachFirstFree, Taken;
      var base := Base(sections[k], blank);
      BaseIsAllowed(sections[k], blank);
      TakenHolds(names, lower);
      var name := FreeName(base, taken, lower);
      FirstFreeIsFree(name, base, taken, lower);
      NamedNext(names, name, lower);
      FirstFreeNext(names, sections, blank, lower, name);
      TakenNext(names, name, lower);
      names := names + [name];
      taken := taken + {lower(name)};
    }
  }
}
