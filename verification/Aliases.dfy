/** Names for tools that a model provider accepts: short, of few characters, and all different. */
module Aliases {

  import opened Strings

  const MAX := 64

  predicate Letter(c: char) {
    'a' <= c <= 'z' || 'A' <= c <= 'Z'
  }

  predicate Safe(c: char) {
    Letter(c) || '0' <= c <= '9' || c == '_' || c == '-'
  }

  function Head(s: string, n: nat): string {
    if n < |s| then s[..n] else s
  }

  function Replaced(ref: string): (s: string)
    ensures |s| == |ref|
    ensures forall i :: 0 <= i < |s| ==> s[i] == if Safe(ref[i]) then ref[i] else '_'
  {
    seq(|ref|, i requires 0 <= i < |ref| => if Safe(ref[i]) then ref[i] else '_')
  }

  function Sanitized(ref: string): string {
    var name := Head(Replaced(ref), MAX);
    if name == "" || !(Letter(name[0]) || name[0] == '_') then Head("t_" + name, MAX) else name
  }

  /** What a provider accepts as a name, apart from its length. */
  predicate Acceptable(s: string) {
    s != "" && (Letter(s[0]) || s[0] == '_') && forall c :: c in s ==> Safe(c)
  }

  lemma SanitizedAcceptable(ref: string)
    ensures Acceptable(Sanitized(ref)) && |Sanitized(ref)| <= MAX
  {
  }

  /** Each character of the reference that a provider takes stays where it is, and each other one becomes an underscore, up
      to 64 characters; a reference that is empty or starts with a digit or a dash gets `t_` in front first. */
  lemma SanitizedExactly(ref: string)
    ensures
      var shift := if ref == "" || '0' <= ref[0] <= '9' || ref[0] == '-' then 2 else 0;
      var name := Sanitized(ref);
      && |name| == (if |ref| + shift <= 64 then |ref| + shift else 64)
      && (shift == 2 ==> name[..2] == "t_")
      && forall i :: shift <= i < |name| ==>
           name[i] == if 'a' <= ref[i - shift] <= 'z' || 'A' <= ref[i - shift] <= 'Z' || '0' <= ref[i - shift] <= '9'
                         || ref[i - shift] == '_' || ref[i - shift] == '-'
                      then ref[i - shift] else '_'
  {
  }

  function Suffix(n: nat): string {
    "_" + Decimal(n)
  }

  /** The `n`th name to try. A slice to a negative position counts from the end. */
  function Candidate(base: string, n: nat): string {
    var room := MAX - |Suffix(n)|;
    (if room >= 0 then Head(base, room) else if |base| + room >= 0 then base[..|base| + room] else "") + Suffix(n)
  }

  lemma DecimalSafe(n: nat)
    ensures forall c :: c in Decimal(n) ==> Safe(c) && c != '_'
  {
  }

  lemma CandidateAcceptable(base: string, n: nat)
    requires Acceptable(base)
    ensures Acceptable(Candidate(base, n))
    ensures |base| <= MAX && |Suffix(n)| <= MAX ==> |Candidate(base, n)| <= MAX
  {
    DecimalSafe(n);
  }

  /** What stands after the last underscore. */
  function Tail(s: string): string {
    if s == "" || s[|s| - 1] == '_' then "" else Tail(s[..|s| - 1]) + [s[|s| - 1]]
  }

  lemma {:induction false} TailOf(head: string, digits: string)
    requires forall c :: c in digits ==> c != '_'
    ensures Tail(head + "_" + digits) == digits
    decreases |digits|
  {
    var s := head + "_" + digits;
    if digits != "" {
      var n := |digits| - 1;
      assert s[|s| - 1] == digits[n] && digits[n] in digits;
      assert s[..|s| - 1] == head + "_" + digits[..n];
      assert forall c :: c in digits[..n] ==> c in digits;
      TailOf(head, digits[..n]);
    }
  }

  /** Different numbers give different names, whatever is cut off before them. */
  lemma CandidatesDiffer(base: string, m: nat, n: nat)
    requires Candidate(base, m) == Candidate(base, n)
    ensures m == n
  {
    CandidateTail(base, m);
    CandidateTail(base, n);
    DecimalInjective(m, n);
  }

  lemma CandidateTail(base: string, n: nat)
    ensures Tail(Candidate(base, n)) == Decimal(n)
  {
    DecimalSafe(n);
    var head := Candidate(base, n)[..|Candidate(base, n)| - |Suffix(n)|];
    assert Candidate(base, n) == head + "_" + Decimal(n);
    TailOf(head, Decimal(n));
  }

  /** The `n`th name is as much of the base as leaves room for an underscore and the number. */
  lemma CandidateExactly(base: string, n: nat)
    requires |Decimal(n)| < 64
    ensures
      var room := 63 - |Decimal(n)|;
      Candidate(base, n) == (if |base| <= room then base else base[..room]) + "_" + Decimal(n)
  {
  }

  /** When the number alone is too long, the excess is cut off the end of the base instead. */
  lemma LongCandidate(base: string, n: nat)
    requires |Decimal(n)| >= 64
    ensures
      var excess := |Decimal(n)| - 63;
      Candidate(base, n) == (if |base| <= excess then "" else base[..|base| - excess]) + "_" + Decimal(n)
  {
  }

  // ---- the first free name --------------------------------------------------

  ghost predicate Taken(base: string, used: set<string>, n: nat) {
    forall m :: 2 <= m < n ==> Candidate(base, m) in used
  }

  /** No more names can be taken than there are names in use. */
  lemma {:induction false} Pigeonhole(base: string, used: set<string>, n: nat)
    requires n >= 2 && Taken(base, used, n)
    ensures n - 2 <= |used|
    decreases n
  {
    if n > 2 {
      var last := Candidate(base, n - 1);
      forall m | 2 <= m < n - 1 ensures Candidate(base, m) in used - {last} {
        if Candidate(base, m) == last { CandidatesDiffer(base, m, n - 1); }
      }
      Pigeonhole(base, used - {last}, n - 1);
    }
  }

  /** The first of the names from `n` on that is not in use. */
  function FirstFree(base: string, used: set<string>, n: nat): (k: nat)
    requires n >= 2 && Taken(base, used, n)
    ensures k >= n && Candidate(base, k) !in used && Taken(base, used, k)
    decreases |used| + 2 - n
  {
    Pigeonhole(base, used, n);
    if Candidate(base, n) !in used then n
    else
      Pigeonhole(base, used, n + 1);
      FirstFree(base, used, n + 1)
  }

  /** The name a reference gets when these are in use. */
  function NextAlias(ref: string, used: set<string>): (alias: string)
    ensures alias !in used
  {
    var base := Sanitized(ref);
    if base !in used then base else Candidate(base, FirstFree(base, used, 2))
  }

  datatype Allocation = Allocation(aliases: map<string, string>, used: set<string>)

  /** References are named in the order in which they are declared. */
  function Allocated(declared: seq<string>): Allocation {
    if declared == [] then Allocation(map[], {})
    else
      var before, ref := Allocated(declared[..|declared| - 1]), declared[|declared| - 1];
      var alias := NextAlias(ref, before.used);
      Allocation(before.aliases[ref := alias], before.used + {alias})
  }

  method ProviderSafeToolAliases(declared: seq<string>) returns (aliases: map<string, string>)
    ensures aliases == Allocated(declared).aliases
  {
    aliases := map[];
    var used: set<string> := {};
    for i := 0 to |declared|
      invariant Allocated(declared[..i]) == Allocation(aliases, used)
    {
      assert declared[..i + 1][..i] == declared[..i];
      var ref := declared[i];
      var base := Sanitized(ref);
      var alias := base;
      var n := 2;
      while alias in used
        invariant n >= 2
        invariant n == 2 ==> alias == base
        invariant n > 2 ==> base in used && alias == Candidate(base, n - 1) && Taken(base, used, n - 1)
        decreases |used| + 3 - n
      {
        Pigeonhole(base, used, n);
        alias := Candidate(base, n);
        n := n + 1;
      }
      if n > 2 { FirstFreeIs(base, used, n - 1); }
      used := used + {alias};
      aliases := aliases[ref := alias];
    }
    assert declared[..|declared|] == declared;
  }

  lemma {:induction false} FirstFreeIs(base: string, used: set<string>, n: nat)
    requires n >= 2 && Taken(base, used, n) && Candidate(base, n) !in used
    ensures FirstFree(base, used, 2) == n
  {
    var k := FirstFree(base, used, 2);
    assert Candidate(base, k) !in used;
  }

  // ---- what the allocation promises -----------------------------------------

  ghost predicate Injective(m: map<string, string>) {
    forall a, b :: a in m && b in m && m[a] == m[b] ==> a == b
  }

  ghost predicate Proper(a: Allocation) {
    Injective(a.aliases) && forall k :: k in a.aliases ==> a.aliases[k] in a.used
  }

  lemma NextIsProper(a: Allocation, ref: string, alias: string)
    requires Proper(a) && alias !in a.used
    ensures Proper(Allocation(a.aliases[ref := alias], a.used + {alias}))
  {
  }

  /** Every declared reference gets a name, and no two references the same one. */
  lemma {:induction false} AliasesAreDistinct(declared: seq<string>)
    ensures Proper(Allocated(declared))
    ensures forall ref :: ref in Allocated(declared).aliases <==> ref in declared
    ensures |Allocated(declared).used| == |declared|
    decreases |declared|
  {
    if declared != [] {
      var n := |declared| - 1;
      AliasesAreDistinct(declared[..n]);
      var before := Allocated(declared[..n]);
      NextIsProper(before, declared[n], NextAlias(declared[n], before.used));
      assert declared == declared[..n] + [declared[n]];
    }
  }

  /** The name tried `k`th is short enough as long as the number of names in use has at most 63 digits. */
  lemma {:induction false} DecimalShorter(m: nat, n: nat)
    requires m <= n
    ensures |Decimal(m)| <= |Decimal(n)|
    decreases n
  {
    if m >= 10 {
      DecimalShorter(m / 10, n / 10);
    }
  }

  lemma NextAliasAcceptable(ref: string, used: set<string>)
    ensures Acceptable(NextAlias(ref, used))
    ensures |Suffix(|used| + 2)| <= MAX ==> |NextAlias(ref, used)| <= MAX
  {
    var base := Sanitized(ref);
    SanitizedAcceptable(ref);
    if base in used {
      var k := FirstFree(base, used, 2);
      Pigeonhole(base, used, k);
      CandidateAcceptable(base, k);
      DecimalShorter(k, |used| + 2);
    }
  }

  /** Every name is one that a provider accepts; at most 64 characters long, unless there are more than 10^63 of them. */
  lemma {:induction false} AliasesAreAcceptable(declared: seq<string>, ref: string)
    requires ref in Allocated(declared).aliases
    ensures Acceptable(Allocated(declared).aliases[ref])
    ensures |Suffix(|declared| + 1)| <= MAX ==> |Allocated(declared).aliases[ref]| <= MAX
    decreases |declared|
  {
    var n := |declared| - 1;
    var before := Allocated(declared[..n]);
    AliasesAreDistinct(declared[..n]);
    if ref == declared[n] {
      NextAliasAcceptable(ref, before.used);
    } else {
      DecimalShorter(n + 1, n + 2);
      AliasesAreAcceptable(declared[..n], ref);
    }
  }

  /** Any other gets the first candidate that is free, counting from 2. */
  lemma OthersAreNumbered(declared: seq<string>, ref: string)
    requires Sanitized(ref) in Allocated(declared).used
    ensures
      var used, alias := Allocated(declared).used, Allocated(declared + [ref]).aliases[ref];
      exists k: nat :: k >= 2 && alias == Candidate(Sanitized(ref), k) && alias !in used
        && forall m :: 2 <= m < k ==> Candidate(Sanitized(ref), m) in used
  {
    assert (declared + [ref])[..|declared|] == declared;
    var k := FirstFree(Sanitized(ref), Allocated(declared).used, 2);
  }

  /** A reference whose plain name is free keeps it. */
  lemma FirstKeepsItsName(declared: seq<string>, ref: string)
    requires Sanitized(ref) !in Allocated(declared).used
    ensures Allocated(declared + [ref]).aliases[ref] == Sanitized(ref)
  {
    assert (declared + [ref])[..|declared|] == declared;
  }
}
