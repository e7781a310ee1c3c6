/** Model providers tried in turn: the resolved chain and the one-shot walk. */
module Fallback {

  import opened Wrappers

  // ---- the chain ------------------------------------------------------------

  datatype Attempt = Attempt(provider: Option<string>, model: string, fallbackOn: set<string>)

  /** What makes two attempts the same. */
  function KeyOf(a: Attempt): (Option<string>, string) {
    (a.provider, a.model)
  }

  function Keys(attempts: seq<Attempt>): set<(Option<string>, string)> {
    set a | a in attempts :: KeyOf(a)
  }

  /** The attempts without those whose key came before. */
  function Deduplicated(attempts: seq<Attempt>): seq<Attempt> {
    if attempts == [] then []
    else
      var n := |attempts| - 1;
      var before := Deduplicated(attempts[..n]);
      if KeyOf(attempts[n]) in Keys(before) then before else before + [attempts[n]]
  }

  /** The attempts of one ref, as far as they are new. */
  method AddNew(ghost before: seq<Attempt>, more: seq<Attempt>, known: seq<Attempt>, keys: set<(Option<string>, string)>)
    returns (attempts: seq<Attempt>, seen: set<(Option<string>, string)>)
    requires known == Deduplicated(before) && keys == Keys(known)
    ensures attempts == Deduplicated(before + more) && seen == Keys(attempts)
  {
    attempts, seen := known, keys;
    assert before + more[..0] == before;
    for j := 0 to |more|
      invariant attempts == Deduplicated(before + more[..j]) && seen == Keys(attempts)
    {
      var a := more[j];
      assert (before + more[..j + 1])[..|before| + j] == before + more[..j];
      if KeyOf(a) !in seen {
        KeysGrow(attempts, a);
        seen := seen + {KeyOf(a)};
        attempts := attempts + [a];
      }
    }
    assert more[..|more|] == more;
  }

  /** Refs in order, each expanded to its attempts, or an error that no provider is called after. */
  method ResolveChain(expanded: seq<Option<seq<Attempt>>>) returns (chain: Option<seq<Attempt>>)
    ensures chain.None? <==> (exists i :: 0 <= i < |expanded| && expanded[i].None?) || AllOf(expanded) == []
    ensures chain.Some? ==> chain.value == Deduplicated(AllOf(expanded)) && chain.value != []
  {
    var attempts: seq<Attempt> := [];
    var seen: set<(Option<string>, string)> := {};
    for i := 0 to |expanded|
      invariant forall m :: 0 <= m < i ==> expanded[m].Some?
      invariant attempts == Deduplicated(AllOf(expanded[..i])) && seen == Keys(attempts)
    {
      assert expanded[..i + 1][..i] == expanded[..i];
      if expanded[i].None? {
        return None;
      }
      attempts, seen := AddNew(AllOf(expanded[..i]), expanded[i].value, attempts, seen);
    }
    assert expanded[..|expanded|] == expanded;
    DeduplicatedKeys(AllOf(expanded));
    if attempts == [] {
      return None;
    }
    return Some(attempts);
  }

  function AllOf(expanded: seq<Option<seq<Attempt>>>): seq<Attempt> {
    if expanded == [] then []
    else
      var last := expanded[|expanded| - 1];
      AllOf(expanded[..|expanded| - 1]) + if last.Some? then last.value else []
  }

  /** They are the attempts of the refs, one ref after the other. */
  lemma {:induction false} AllOfJoins(a: seq<Option<seq<Attempt>>>, b: seq<Option<seq<Attempt>>>)
    ensures AllOf(a + b) == AllOf(a) + AllOf(b)
    decreases |b|
  {
    if b == [] {
      assert a + b == a;
    } else {
      assert (a + b)[..|a + b| - 1] == a + b[..|b| - 1];
      AllOfJoins(a, b[..|b| - 1]);
    }
  }

  lemma AllOfOne(more: Option<seq<Attempt>>)
    ensures AllOf([more]) == if more.Some? then more.value else []
  {
    assert [more][..0] == [];
  }

  lemma KeysGrow(attempts: seq<Attempt>, a: Attempt)
    ensures Keys(attempts + [a]) == Keys(attempts) + {KeyOf(a)}
  {
  }

  /** Every key is tried once, and first come is first tried. */
  lemma {:induction false} DeduplicatedKeys(attempts: seq<Attempt>)
    ensures Keys(Deduplicated(attempts)) == Keys(attempts)
    ensures forall i, j :: 0 <= i < j < |Deduplicated(attempts)| ==>
              KeyOf(Deduplicated(attempts)[i]) != KeyOf(Deduplicated(attempts)[j])
    ensures attempts == [] <==> Deduplicated(attempts) == []
    decreases |attempts|
  {
    if attempts != [] {
      var n := |attempts| - 1;
      var before := Deduplicated(attempts[..n]);
      DeduplicatedKeys(attempts[..n]);
      assert attempts == attempts[..n] + [attempts[n]];
      KeysGrow(attempts[..n], attempts[n]);
      KeysGrow(before, attempts[n]);
      forall i | 0 <= i < |before| ensures KeyOf(before[i]) in Keys(before) {
      }
    }
  }

  /** The attempt at this position is `a`, and the first of its key. */
  predicate FirstAt(attempts: seq<Attempt>, a: Attempt, i: int) {
    0 <= i < |attempts| && attempts[i] == a && KeyOf(a) !in Keys(attempts[..i])
  }

  lemma FirstAtNext(attempts: seq<Attempt>, a: Attempt, i: int)
    requires attempts != [] && i < |attempts| - 1
    ensures FirstAt(attempts, a, i) <==> FirstAt(attempts[..|attempts| - 1], a, i)
  {
    if 0 <= i { assert attempts[..|attempts| - 1][..i] == attempts[..i]; }
  }

  /** What stays is the first attempt of each key. */
  lemma {:induction false} FirstOfItsKeyStays(attempts: seq<Attempt>, a: Attempt)
    ensures a in Deduplicated(attempts) <==> exists i :: FirstAt(attempts, a, i)
    decreases |attempts|
  {
    hide FirstAt, Keys;
    if attempts == [] {
      assert forall i :: !FirstAt(attempts, a, i) by { NoneFirst(a); }
    } else {
      var n := |attempts| - 1;
      FirstOfItsKeyStays(attempts[..n], a);
      DeduplicatedKeys(attempts[..n]);
      LastIsFirst(attempts, a);
      forall i | i < n ensures FirstAt(attempts, a, i) <==> FirstAt(attempts[..n], a, i) {
        FirstAtNext(attempts, a, i);
      }
      forall i | FirstAt(attempts[..n], a, i) ensures i < n { InRange(attempts[..n], a, i); }
      forall i | FirstAt(attempts, a, i) ensures i <= n { InRange(attempts, a, i); }
    }
  }

  lemma NoneFirst(a: Attempt)
    ensures forall i :: !FirstAt([], a, i)
  {
  }

  lemma InRange(attempts: seq<Attempt>, a: Attempt, i: int)
    requires FirstAt(attempts, a, i)
    ensures 0 <= i < |attempts|
  {
  }

  lemma LastIsFirst(attempts: seq<Attempt>, a: Attempt)
    requires attempts != []
    ensures
      var n := |attempts| - 1;
      FirstAt(attempts, a, n) <==> attempts[n] == a && KeyOf(a) !in Keys(attempts[..n])
  {
  }

  // ---- one call ---------------------------------------------------------------

  datatype Kind = Transport | Auth | Contract | Unknown

  /** What a provider, or the loop around it, comes to. */
  datatype Reply =
    | Answer(output: string)
    | BadAnswer                          // the framework's own refusal of the answer
    | Internal                           // any other error of the framework itself
    | Provider(kind: Kind, reason: string)

  datatype Disposition = Success | Fell(reason: string) | Stopped

  datatype Ending = Returned(output: string) | ModelError | ConfigError | InternalError | Unavailable

  /** A transport failure of a kind that this attempt goes on from. */
  predicate GoesOn(a: Attempt, r: Reply) {
    r.Provider? && r.kind.Transport? && r.reason in a.fallbackOn
  }

  /** The ending that an attempt forces, when it does not go on. */
  function EndingOf(r: Reply): Ending {
    match r
    case Answer(output) => Returned(output)
    case BadAnswer => ModelError
    case Internal => InternalError
    case Provider(Auth, _) => ConfigError
    case Provider(Contract, _) => ModelError
    case Provider(_, _) => Unavailable
  }

  /** The first attempt that does not go on, or the end of the chain. */
  function LastMade(chain: seq<Attempt>, replies: nat -> Reply, i: nat): (last: nat)
    requires i <= |chain|
    ensures i <= last <= |chain|
    ensures forall m :: i <= m < last ==> GoesOn(chain[m], replies(m))
    ensures last < |chain| ==> !GoesOn(chain[last], replies(last))
    decreases |chain| - i
  {
    if i == |chain| || !GoesOn(chain[i], replies(i)) then i else LastMade(chain, replies, i + 1)
  }

  /** What an attempt comes to, if it does not go on: the answer itself, or an error named after whose fault it is. */
  predicate EndsAs(r: Reply, e: Ending) {
    && (e.Returned? <==> r.Answer?) && (r.Answer? ==> e == Returned(r.output))
    && (e.ModelError? <==> r.BadAnswer? || (r.Provider? && r.kind.Contract?))
    && (e.ConfigError? <==> r.Provider? && r.kind.Auth?)
    && (e.InternalError? <==> r.Internal?)
    && (e.Unavailable? <==> r.Provider? && (r.kind.Transport? || r.kind.Unknown?))
  }

  /** The walk goes on exactly from transport failures for a reason that the attempt lists, and stops at the first
      attempt that ends otherwise. */
  lemma WalkExactly(chain: seq<Attempt>, replies: nat -> Reply)
    ensures
      var last := LastMade(chain, replies, 0);
      && last <= |chain|
      && (forall m :: 0 <= m < last ==>
            replies(m).Provider? && replies(m).kind.Transport? && replies(m).reason in chain[m].fallbackOn)
      && (last < |chain| ==>
            !(replies(last).Provider? && replies(last).kind.Transport? && replies(last).reason in chain[last].fallbackOn)
            && EndsAs(replies(last), EndingOf(replies(last))))
  {
  }

  /** The one-shot walk, against any provider: it makes exactly the attempts up to the first that does not go on,
      and that one decides; a chain that is used up is unavailable. */
  method Complete(chain: seq<Attempt>, replies: nat -> Reply) returns (audits: seq<Disposition>, ending: Ending)
    ensures
      var last := LastMade(chain, replies, 0);
      && |audits| == (if last < |chain| then last + 1 else last)
      && (forall m :: 0 <= m < last ==> audits[m] == Fell(replies(m).reason))
      && (last < |chain| ==> audits[last] == (if replies(last).Answer? then Success else Stopped) && ending == EndingOf(replies(last)))
      && (last == |chain| ==> ending == Unavailable)
      && (last < |chain| ==> EndsAs(replies(last), ending))
  {
    audits := [];
    for i := 0 to |chain|
      invariant |audits| == i && LastMade(chain, replies, 0) == LastMade(chain, replies, i)
      invariant forall m :: 0 <= m < i ==> GoesOn(chain[m], replies(m)) && audits[m] == Fell(replies(m).reason)
    {
      var r := replies(i);
      if r.Provider? {
        if r.kind.Auth? {
          return audits + [Stopped], ConfigError;
        }
        if r.kind.Contract? {
          return audits + [Stopped], ModelError;
        }
        if r.kind.Transport? && r.reason in chain[i].fallbackOn {
          audits := audits + [Fell(r.reason)];
          continue;
        }
        return audits + [Stopped], Unavailable;
      }
      if r.Answer? {
        return audits + [Success], Returned(r.output);
      }
      return audits + [Stopped], if r.BadAnswer? then ModelError else InternalError;
    }
    ending := Unavailable;
  }
}
