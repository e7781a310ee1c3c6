/** The regression corpus: an append-only chain of cases, each sealed over its content and its predecessor. */
module Corpus {

  import opened Wrappers

  const GENESIS := "genesis"

  /** `content` stands for every field but the two hashes. */
  datatype Case = Case(content: string, predecessor: string, hash: string)

  datatype Error = BlankSponsor | WrongPredecessor | WrongHash | ChainBreak(at: nat) | Tampered(at: nat) | Unreadable

  /** The seal of a case: a fingerprint of its content and its predecessor's seal. */
  type Digest = (string, string) -> string

  /** Fingerprints tell different cases apart, and none of them reads `genesis`. */
  ghost predicate Sound(digest: Digest) {
    && (forall c, p, c', p' :: digest(c, p) == digest(c', p') ==> c == c' && p == p')
    && forall c, p :: digest(c, p) != GENESIS
  }

  /** A new case that continues a corpus with this root. */
  function SealCase(digest: Digest, content: string, predecessor: string): Case {
    Case(content, predecessor, digest(content, predecessor))
  }

  function Root(cases: seq<Case>): string {
    if cases == [] then GENESIS else cases[|cases| - 1].hash
  }

  predicate Links(digest: Digest, c: Case, tail: string) {
    c.predecessor == tail && digest(c.content, c.predecessor) == c.hash
  }

  /** Every case links to the one before it. */
  ghost predicate Chained(digest: Digest, cases: seq<Case>) {
    forall i :: 0 <= i < |cases| ==> Links(digest, cases[i], Root(cases[..i]))
  }

  lemma AppendLinks(digest: Digest, cases: seq<Case>, c: Case)
    ensures Chained(digest, cases + [c]) <==> Chained(digest, cases) && Links(digest, c, Root(cases))
  {
    var more := cases + [c];
    assert more[..|cases|] == cases;
    assert forall i :: 0 <= i < |cases| ==> more[..i] == cases[..i];
    if Chained(digest, more) {
      forall i | 0 <= i < |cases| ensures Links(digest, cases[i], Root(cases[..i])) {
        assert Links(digest, more[i], Root(more[..i]));
      }
      assert Links(digest, more[|cases|], Root(more[..|cases|]));
    }
  }

  lemma PrefixChained(digest: Digest, cases: seq<Case>, n: nat)
    requires Chained(digest, cases) && n <= |cases|
    ensures Chained(digest, cases[..n])
  {
    forall i | 0 <= i < n ensures Links(digest, cases[..n][i], Root(cases[..n][..i])) {
      assert cases[..n][..i] == cases[..i];
    }
  }

  /** Stops at the first case that does not link. */
  method WalkChain(digest: Digest, cases: seq<Case>) returns (broken: Option<Error>)
    ensures broken.None? <==> Chained(digest, cases)
    ensures broken.Some? ==> (broken.value.ChainBreak? || broken.value.Tampered?) && broken.value.at < |cases|
    ensures broken.Some? ==>
              Chained(digest, cases[..broken.value.at])
              && !Links(digest, cases[broken.value.at], Root(cases[..broken.value.at]))
  {
    var tail := GENESIS;
    for i := 0 to |cases|
      invariant tail == Root(cases[..i]) && Chained(digest, cases[..i])
    {
      var c := cases[i];
      if c.predecessor != tail || digest(c.content, c.predecessor) != c.hash {
        assert !Links(digest, c, Root(cases[..i]));
        return Some(if c.predecessor != tail then ChainBreak(i) else Tampered(i));
      }
      AppendLinks(digest, cases[..i], c);
      assert cases[..i + 1] == cases[..i] + [c];
      tail := c.hash;
    }
    assert cases[..|cases|] == cases;
    return None;
  }

  class InMemoryRegressionCorpus {
    const digest: Digest
    const strip: string -> string
    var caseList: seq<Case>
    var sponsorList: seq<string>

    ghost predicate Valid()
      reads this
    {
      Chained(digest, caseList) && |sponsorList| == |caseList|
    }

    constructor (digest: Digest, strip: string -> string)
      ensures Valid() && caseList == [] && sponsorList == [] && this.digest == digest && this.strip == strip
    {
      this.digest, this.strip := digest, strip;
      caseList, sponsorList := [], [];
    }

    /** Accepts exactly what a named sponsor vouches for and what was sealed over the newest case; a refusal changes nothing. */
    method Append(c: Case, sponsor: string) returns (refused: Option<Error>)
      requires Valid()
      modifies this
      ensures Valid()
      ensures refused.None? <==> strip(sponsor) != "" && c == SealCase(digest, c.content, Root(old(caseList)))
      ensures caseList == old(caseList) + if refused.None? then [c] else []
      ensures sponsorList == old(sponsorList) + if refused.None? then [strip(sponsor)] else []
    {
      if strip(sponsor) == "" {
        return Some(BlankSponsor);
      }
      if c.predecessor != Root(caseList) {
        return Some(WrongPredecessor);
      }
      if digest(c.content, c.predecessor) != c.hash {
        return Some(WrongHash);
      }
      AppendLinks(digest, caseList, c);
      caseList := caseList + [c];
      sponsorList := sponsorList + [strip(sponsor)];
      return None;
    }

    method Verify() returns (broken: Option<Error>)
      requires Valid()
      ensures broken.None?
    {
      broken := WalkChain(digest, caseList);
    }
  }

  // ---- the root determines the history --------------------------------------

  lemma LastLinks(digest: Digest, cases: seq<Case>) returns (before: seq<Case>, last: Case)
    requires Chained(digest, cases) && cases != []
    ensures cases == before + [last] && Chained(digest, before) && Links(digest, last, Root(before))
    ensures |before| < |cases| && Root(cases) == last.hash
  {
    before, last := cases[..|cases| - 1], cases[|cases| - 1];
    PrefixChained(digest, cases, |cases| - 1);
    assert Links(digest, cases[|cases| - 1], Root(cases[..|cases| - 1]));
  }

  lemma SealedRoot(digest: Digest, cases: seq<Case>)
    requires Sound(digest) && Chained(digest, cases)
    ensures Root(cases) == GENESIS <==> cases == []
  {
    if cases != [] {
      var before, last := LastLinks(digest, cases);
    }
  }

  /** Two corpora that verify and have the same root are the same, case by case. */
  lemma {:induction false} RootDeterminesHistory(digest: Digest, a: seq<Case>, b: seq<Case>)
    requires Sound(digest) && Chained(digest, a) && Chained(digest, b) && Root(a) == Root(b)
    ensures a == b
    decreases |a|
  {
    SealedRoot(digest, a);
    SealedRoot(digest, b);
    if a != [] {
      var a', x := LastLinks(digest, a);
      var b', y := LastLinks(digest, b);
      RootDeterminesHistory(digest, a', b');
    }
  }

  /** Changing, dropping or reordering anything in a verified chain either shows when it is walked, or changes the root. */
  lemma TamperShows(digest: Digest, cases: seq<Case>, tampered: seq<Case>)
    requires Sound(digest) && Chained(digest, cases) && tampered != cases
    ensures !Chained(digest, tampered) || Root(tampered) != Root(cases)
  {
    if Chained(digest, tampered) && Root(tampered) == Root(cases) {
      RootDeterminesHistory(digest, tampered, cases);
    }
  }

  /** A chain made of cases of another chain is the beginning of that chain. */
  lemma {:induction false} ChainIsRigid(digest: Digest, cases: seq<Case>, other: seq<Case>)
    requires Sound(digest) && Chained(digest, cases) && Chained(digest, other)
    requires forall c :: c in other ==> c in cases
    ensures other <= cases
    decreases |other|
  {
    hide Sound, Chained, Root;
    if other != [] {
      var before, last := LastLinks(digest, other);
      ChainIsRigid(digest, cases, before);
      assert last in other;
      var j :| 0 <= j < |cases| && cases[j] == last;
      var n := |before|;
      assert before == cases[..n];
      SameRootSameLength(digest, cases, j, n, last);
    }
  }

  lemma SameRootSameLength(digest: Digest, cases: seq<Case>, j: nat, n: nat, last: Case)
    requires Sound(digest) && Chained(digest, cases) && j < |cases| && n <= |cases|
    requires cases[j] == last && Links(digest, last, Root(cases[..n]))
    ensures j == n
  {
    assert Links(digest, cases[j], Root(cases[..j]));
    PrefixChained(digest, cases, j);
    PrefixChained(digest, cases, n);
    hide Sound, Chained;
    RootDeterminesHistory(digest, cases[..j], cases[..n]);
  }
}
