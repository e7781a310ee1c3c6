/** What a pass of the tool loop and an attempt come to, in terms of what the framework does and the model says. */
module LoopOutcomes {

  import opened Wrappers
  import opened ToolLoop
  import Scanner

  /** A tool that is asked for under an exposed name, and raises. */
  predicate Failing(exposed: map<string, string>, a: Act) {
    a.Request? && a.name in exposed && a.raised.Some?
  }

  /** No tool has failed before position `i`. */
  predicate Untroubled(exposed: map<string, string>, acts: seq<Act>, i: int)
    requires i <= |acts|
  {
    forall j :: 0 <= j < i ==> !Failing(exposed, acts[j])
  }

  /** What is said here ends the pass: more than one call, or anything after a tool has failed. */
  predicate Ends(exposed: map<string, string>, acts: seq<Act>, i: int)
    requires 0 <= i < |acts|
  {
    acts[i].Says? && (acts[i].calls > 1 || !Untroubled(exposed, acts, i))
  }

  /** The pass is pulled up to `n`: to the first thing that ends it, or to its end. */
  predicate PulledTo(exposed: map<string, string>, acts: seq<Act>, n: nat) {
    n <= |acts| && (n < |acts| ==> Ends(exposed, acts, n)) && forall i :: 0 <= i < n ==> !Ends(exposed, acts, i)
  }

  /** The tool that is asked for here is let through. */
  predicate LetThrough(exposed: map<string, string>, acts: seq<Act>, i: int)
    requires 0 <= i < |acts|
  {
    acts[i].Request? && acts[i].name in exposed && Untroubled(exposed, acts, i)
  }

  predicate TakesTurn(exposed: map<string, string>, acts: seq<Act>, i: int)
    requires 0 <= i < |acts|
  {
    acts[i].Turn? && Untroubled(exposed, acts, i)
  }

  /** The acts that are let through, in order. */
  ghost predicate ListsThrough(exposed: map<string, string>, acts: seq<Act>, at: seq<nat>) {
    && (forall j, k :: 0 <= j < k < |at| ==> at[j] < at[k])
    && (forall k :: 0 <= k < |at| ==> at[k] < |acts| && LetThrough(exposed, acts, at[k]))
    && (forall i: nat :: i < |acts| && LetThrough(exposed, acts, i) ==> i in at)
  }

  /** And the turns that are counted. */
  ghost predicate ListsTurns(exposed: map<string, string>, acts: seq<Act>, at: seq<nat>) {
    && (forall j, k :: 0 <= j < k < |at| ==> at[j] < at[k])
    && (forall k :: 0 <= k < |at| ==> at[k] < |acts| && TakesTurn(exposed, acts, at[k]))
    && (forall i: nat :: i < |acts| && TakesTurn(exposed, acts, i) ==> i in at)
  }

  /** What the name stands for. */
  function RefOf(exposed: map<string, string>, a: Act): string {
    if a.Request? && a.name in exposed then exposed[a.name] else ""
  }

  function Refs(exposed: map<string, string>, acts: seq<Act>, at: seq<nat>): seq<string>
    requires forall k :: 0 <= k < |at| ==> at[k] < |acts|
  {
    seq(|at|, k requires 0 <= k < |at| => RefOf(exposed, acts[at[k]]))
  }

  /** The first tool that failed among these acts. */
  predicate FirstFailure(exposed: map<string, string>, acts: seq<Act>, f: int) {
    0 <= f < |acts| && Failing(exposed, acts[f]) && Untroubled(exposed, acts, f)
  }

  /** What serving these acts does to markers that are clear of failures: each tool that is let through is marked and
      reaches the proxy, each turn that is taken counts, and the failure is that of the first tool that failed. */
  ghost predicate ServedAs(exposed: map<string, string>, m: Marks, acts: seq<Act>, at: seq<nat>, turns: seq<nat>, m': Marks) {
    && ListsThrough(exposed, acts, at) && ListsTurns(exposed, acts, turns)
    && m'.handled == m.handled + Refs(exposed, acts, at) && m'.invoked == m.invoked + |at|
    && m'.turns == m.turns + |turns|
    && FailedAs(exposed, acts, m'.failures)
  }

  ghost predicate FailedAs(exposed: map<string, string>, acts: seq<Act>, failures: seq<string>) {
    if Untroubled(exposed, acts, |acts|) then failures == []
    else exists f :: FirstFailure(exposed, acts, f) && failures == [acts[f].raised.value]
  }

  lemma UntroubledBefore(exposed: map<string, string>, acts: seq<Act>, n: nat)
    requires n <= |acts|
    ensures forall i :: i <= n ==> (Untroubled(exposed, acts, i) <==> Untroubled(exposed, acts[..n], i))
  {
  }

  lemma ThroughNext(exposed: map<string, string>, acts: seq<Act>, at: seq<nat>) returns (more: seq<nat>)
    requires acts != [] && ListsThrough(exposed, acts[..|acts| - 1], at)
    ensures more == if LetThrough(exposed, acts, |acts| - 1) then at + [|acts| - 1] else at
    ensures ListsThrough(exposed, acts, more)
    ensures Refs(exposed, acts, more) ==
      Refs(exposed, acts[..|acts| - 1], at) + if LetThrough(exposed, acts, |acts| - 1) then [RefOf(exposed, acts[|acts| - 1])] else []
  {
    var n := |acts| - 1;
    UntroubledBefore(exposed, acts, n);
    more := if LetThrough(exposed, acts, n) then at + [n] else at;
    ListedThrough(exposed, acts, at, more);
    hide LetThrough, RefOf;
  }

  lemma ListedThrough(exposed: map<string, string>, acts: seq<Act>, at: seq<nat>, more: seq<nat>)
    requires acts != [] && ListsThrough(exposed, acts[..|acts| - 1], at)
    requires more == if LetThrough(exposed, acts, |acts| - 1) then at + [|acts| - 1] else at
    ensures ListsThrough(exposed, acts, more)
  {
    var n := |acts| - 1;
    UntroubledBefore(exposed, acts, n);
    forall i: nat | i < |acts| && LetThrough(exposed, acts, i) ensures i in more {
      if i < n { assert i in at; } else { assert more[|at|] == n; }
    }
  }

  lemma TurnsNext(exposed: map<string, string>, acts: seq<Act>, at: seq<nat>) returns (more: seq<nat>)
    requires acts != [] && ListsTurns(exposed, acts[..|acts| - 1], at)
    ensures more == if TakesTurn(exposed, acts, |acts| - 1) then at + [|acts| - 1] else at
    ensures ListsTurns(exposed, acts, more)
  {
    var n := |acts| - 1;
    UntroubledBefore(exposed, acts, n);
    more := if TakesTurn(exposed, acts, n) then at + [n] else at;
    forall i: nat | i < |acts| && TakesTurn(exposed, acts, i) ensures i in more {
      if i < n { assert i in at; } else { assert more[|at|] == n; }
    }
  }

  lemma FailuresNext(exposed: map<string, string>, acts: seq<Act>, failures: seq<string>)
    requires acts != [] && FailedAs(exposed, acts[..|acts| - 1], failures)
    ensures
      var last := acts[|acts| - 1];
      FailedAs(exposed, acts, if failures == [] && Failing(exposed, last) then [last.raised.value] else failures)
  {
    var n := |acts| - 1;
    var before := acts[..n];
    UntroubledBefore(exposed, acts, n);
    if !Untroubled(exposed, before, n) {
      var f :| FirstFailure(exposed, before, f) && failures == [before[f].raised.value];
      assert FirstFailure(exposed, acts, f);
    } else if Failing(exposed, acts[n]) {
      assert FirstFailure(exposed, acts, n);
    }
  }

  lemma ServeOne(exposed: map<string, string>, m: Marks, acts: seq<Act>)
    requires acts != [] && FailedAs(exposed, acts[..|acts| - 1], m.failures)
    ensures
      var n := |acts| - 1;
      Serve(exposed, m, acts[n]) ==
        Marks(m.turns + if TakesTurn(exposed, acts, n) then 1 else 0,
              if m.failures == [] && Failing(exposed, acts[n]) then [acts[n].raised.value] else m.failures,
              m.invoked + if LetThrough(exposed, acts, n) then 1 else 0,
              m.handled + if LetThrough(exposed, acts, n) then [RefOf(exposed, acts[n])] else [])
  {
    UntroubledBefore(exposed, acts, |acts| - 1);
  }

  lemma ServedNext(exposed: map<string, string>, m: Marks, acts: seq<Act>, at: seq<nat>, turns: seq<nat>, m1: Marks)
    returns (at': seq<nat>, turns': seq<nat>)
    requires acts != [] && ServedAs(exposed, m, acts[..|acts| - 1], at, turns, m1)
    ensures ServedAs(exposed, m, acts, at', turns', Serve(exposed, m1, acts[|acts| - 1]))
  {
    hide Serve, FailedAs, LetThrough, TakesTurn, RefOf, Failing, ListsTurns, Refs;
    var n := |acts| - 1;
    ServeOne(exposed, m1, acts);
    FailuresNext(exposed, acts, m1.failures);
    at' := ThroughNext(exposed, acts, at);
    turns' := TurnsNext(exposed, acts, turns);
    var more := if LetThrough(exposed, acts, n) then [RefOf(exposed, acts[n])] else [];
    assert m1.handled + more == m.handled + (Refs(exposed, acts[..n], at) + more);
  }

  lemma {:induction false} ServeExactly(exposed: map<string, string>, m: Marks, acts: seq<Act>) returns (at: seq<nat>, turns: seq<nat>)
    requires m.failures == []
    ensures ServedAs(exposed, m, acts, at, turns, ServeAll(exposed, m, acts))
    decreases |acts|
  {
    if acts == [] {
      at, turns := [], [];
    } else {
      hide Serve, ServedAs;
      var n := |acts| - 1;
      at, turns := ServeExactly(exposed, m, acts[..n]);
      at, turns := ServedNext(exposed, m, acts, at, turns, ServeAll(exposed, m, acts[..n]));
    }
  }

  /** A pass is pulled to the first thing that ends it. */
  lemma {:induction false} PullsTo(exposed: map<string, string>, m: Marks, acts: seq<Act>, i: nat)
    requires m.failures == [] && i <= |acts|
    requires forall k :: 0 <= k < i ==> !Ends(exposed, acts, k)
    ensures PulledTo(exposed, acts, Pulled(exposed, ServeAll(exposed, m, acts[..i]), acts, i))
    decreases |acts| - i
  {
    hide ServeAll, Pulled;
    if i < |acts| {
      BreaksExactly(exposed, m, acts, i);
      PulledNext(exposed, m, acts, i);
      if !Ends(exposed, acts, i) { PullsTo(exposed, m, acts, i + 1); }
    } else {
      PulledAtEnd(exposed, m, acts);
    }
  }

  lemma PulledAtEnd(exposed: map<string, string>, m: Marks, acts: seq<Act>)
    ensures Pulled(exposed, ServeAll(exposed, m, acts[..|acts|]), acts, |acts|) == |acts|
  {
  }

  lemma PulledNext(exposed: map<string, string>, m: Marks, acts: seq<Act>, i: nat)
    requires i < |acts|
    ensures
      var m1 := ServeAll(exposed, m, acts[..i]);
      Pulled(exposed, m1, acts, i) ==
        if Breaks(m1, acts[i]) then i else Pulled(exposed, ServeAll(exposed, m, acts[..i + 1]), acts, i + 1)
  {
    assert acts[..i + 1][..i] == acts[..i] && acts[..i + 1][i] == acts[i];
  }

  lemma BreaksExactly(exposed: map<string, string>, m: Marks, acts: seq<Act>, i: nat)
    requires m.failures == [] && i < |acts|
    ensures Breaks(ServeAll(exposed, m, acts[..i]), acts[i]) <==> Ends(exposed, acts, i)
  {
    var at, turns := ServeExactly(exposed, m, acts[..i]);
    UntroubledBefore(exposed, acts, i);
    hide ListsThrough, ListsTurns, Refs, ServeAll;
  }

  predicate SaysText(a: Act) {
    a.Says? && a.text.Some?
  }

  predicate LastSaidAt(acts: seq<Act>, i: int) {
    0 <= i < |acts| && SaysText(acts[i]) && forall j :: i < j < |acts| ==> !SaysText(acts[j])
  }

  /** The last text among these acts. */
  ghost predicate SaidLast(acts: seq<Act>, text: Option<string>) {
    if text.None? then forall i :: 0 <= i < |acts| ==> !SaysText(acts[i])
    else exists i :: LastSaidAt(acts, i) && acts[i].text == text
  }

  lemma {:induction false} LastTextExactly(acts: seq<Act>)
    ensures SaidLast(acts, LastText(acts))
    decreases |acts|
  {
    if acts != [] {
      var n := |acts| - 1;
      if SaysText(acts[n]) {
        assert LastSaidAt(acts, n);
      } else {
        LastTextExactly(acts[..n]);
        var text := LastText(acts[..n]);
        if text.Some? {
          var i :| LastSaidAt(acts[..n], i) && acts[..n][i].text == text;
          assert LastSaidAt(acts, i);
        }
      }
    }
  }

  /** How a pass ends: with the failure of the first tool that failed; else refused for more than one call at once; else with
      the exception that ended it; else with the last text that was said. */
  ghost predicate EndsWith(exposed: map<string, string>, p: Pass, n: nat, end: End)
    requires n <= |p.acts|
  {
    if !Untroubled(exposed, p.acts, n) then
      exists f :: FirstFailure(exposed, p.acts[..n], f) && end == ToolRaised(p.acts[f].raised.value)
    else if n < |p.acts| then end == TooManyCalls
    else if p.thrown.Some? then end == Threw(p.thrown.value)
    else end.Text? && SaidLast(p.acts, end.final)
  }

  /** A pass serves its acts up to the first thing that ends it, and ends accordingly. */
  lemma PassExactly(exposed: map<string, string>, m: Marks, p: Pass) returns (n: nat, at: seq<nat>, turns: seq<nat>)
    requires m.failures == []
    ensures PulledTo(exposed, p.acts, n)
    ensures ServedAs(exposed, m, p.acts[..n], at, turns, Driven(exposed, m, p).0)
    ensures EndsWith(exposed, p, n, Driven(exposed, m, p).1)
  {
    n := Pulled(exposed, m, p.acts, 0);
    assert p.acts[..0] == [];
    PullsTo(exposed, m, p.acts, 0);
    at, turns := ServeExactly(exposed, m, p.acts[..n]);
    LastTextExactly(p.acts);
    UntroubledBefore(exposed, p.acts, n);
    hide ListsThrough, ListsTurns, Refs;
  }

  /** What an attempt comes to. Its second pass is made exactly when turns are left, and the reply was no JSON of another
      kind and offered no valid object; a pass that does not end with text ends the attempt. */
  lemma AttemptExactly(x: Setup, s: Script)
    ensures
      var (m1, e1) := Driven(x.exposed, CLEAR, s.first);
      var (m2, e2) := Driven(x.exposed, m1, s.again);
      var c1, c2 := Said(e1), Said(e2);
      var refused, done := Failed(Threw(LoopFailure)), Attempted(x, s);
      && (!e1.Text? ==> done == (m1, Failed(e1)))
      && (e1.Text? && Scanner.IsOtherJson(x.decoder, c1) ==> done == (m1, refused))
      && (e1.Text? ==>
            forall v :: Scanner.Offers(x.decoder, c1, v) && (x.valid(v) || m1.turns >= x.maxCalls) ==> done == (m1, Good(v)))
      && (e1.Text? && m1.turns >= x.maxCalls && !(exists v :: Scanner.Offers(x.decoder, c1, v)) ==> done == (m1, refused))
      && (e1.Text? && m1.turns < x.maxCalls && !Scanner.IsOtherJson(x.decoder, c1)
          && !(exists v :: Scanner.Offers(x.decoder, c1, v) && x.valid(v)) ==>
            && (!e2.Text? ==> done == (m2, Failed(e2)))
            && (e2.Text? ==> forall w :: Scanner.Offers(x.decoder, c2, w) ==> done == (m2, Good(w)))
            && (e2.Text? && !(exists w :: Scanner.Offers(x.decoder, c2, w)) ==> done == (m2, refused)))
  {
    var (m1, e1) := Driven(x.exposed, CLEAR, s.first);
    var (m2, e2) := Driven(x.exposed, m1, s.again);
    Scanner.ExtractedOffers(x.decoder, Said(e1));
    Scanner.ExtractedOffers(x.decoder, Said(e2));
    var first, second := Scanner.Extracted(x.decoder, Said(e1)), Scanner.Extracted(x.decoder, Said(e2));
    hide Driven, Scanner.Extracted, Scanner.Offers;
    assert first.Found? ==> Scanner.Offers(x.decoder, Said(e1), first.value);
    assert second.Found? ==> Scanner.Offers(x.decoder, Said(e2), second.value);
  }

  /** The text a pass ends with, if it does. */
  function Said(e: End): Scanner.Content {
    match e
    case Text(Some(text)) => Scanner.Reply(text)
    case _ => Scanner.NoContent
  }
}
