/** The tool loop over a chain of model attempts: the markers of an attempt, the guard in front of every tool,
    and why no side effect is repeated with another provider. */
module ToolLoop {

  import opened Wrappers
  import opened Fallback
  import Scanner

  /** What the framework does while a pass is driven: it starts a model turn, it dispatches a tool request of the
      model, and it yields what the model said. A tool that is run returns or raises. */
  datatype Act =
    | Turn
    | Request(name: string, raised: Option<string>)
    | Says(calls: nat, text: Option<string>)

  /** One pass: what the framework would do, and the exception that would end it. */
  datatype Pass = Pass(acts: seq<Act>, thrown: Option<Thrown>)

  datatype Thrown = LoopFailure | ProviderFailure(kind: Kind, reason: string)

  /** One attempt: its first pass, and the second one, if the answer has to be asked for again. */
  datatype Script = Script(first: Pass, again: Pass)

  /** What every attempt is run with: the exposed names, how a reply is read as an object, what the output schema says
      of it, and how many model turns there may be. */
  datatype Setup = Setup(exposed: map<string, string>, decoder: Scanner.Decoder<string>, valid: string -> bool, maxCalls: int)

  /** The markers of an attempt. `handled` is what reached the proxy; no code looks at it. */
  datatype Marks = Marks(turns: nat, failures: seq<string>, invoked: nat, handled: seq<string>)

  const CLEAR := Marks(0, [], 0, [])

  datatype End = Text(final: Option<string>) | ToolRaised(error: string) | TooManyCalls | Threw(thrown: Thrown)

  // ---- one pass, on values --------------------------------------------------

  /** The callbacks: a turn counts and a request is let through only while no tool has failed, and a tool only
      under a name that was exposed. A tool that is let through is marked before it runs. */
  function Serve(exposed: map<string, string>, m: Marks, a: Act): Marks {
    match a
    case Turn => if m.failures != [] then m else m.(turns := m.turns + 1)
    case Request(name, raised) =>
      if m.failures != [] || name !in exposed then m
      else
        m.(invoked := m.invoked + 1, handled := m.handled + [exposed[name]],
           failures := if raised.Some? then m.failures + [raised.value] else m.failures)
    case Says(_, _) => m
  }

  /** Pulling stops at the first thing said after a failure, or with more than one call. */
  predicate Breaks(m: Marks, a: Act) {
    a.Says? && (m.failures != [] || a.calls > 1)
  }

  /** How far the acts are pulled, from `i` on. */
  function Pulled(exposed: map<string, string>, m: Marks, acts: seq<Act>, i: nat): (n: nat)
    requires i <= |acts|
    ensures i <= n <= |acts|
    decreases |acts| - i
  {
    if i == |acts| || Breaks(m, acts[i]) then i else Pulled(exposed, Serve(exposed, m, acts[i]), acts, i + 1)
  }

  function ServeAll(exposed: map<string, string>, m: Marks, acts: seq<Act>): Marks {
    if acts == [] then m else Serve(exposed, ServeAll(exposed, m, acts[..|acts| - 1]), acts[|acts| - 1])
  }

  /** The last text that was said. */
  function LastText(acts: seq<Act>): Option<string> {
    if acts == [] then None
    else
      var a := acts[|acts| - 1];
      if a.Says? && a.text.Some? then a.text else LastText(acts[..|acts| - 1])
  }

  function Driven(exposed: map<string, string>, m: Marks, p: Pass): (Marks, End) {
    var n := Pulled(exposed, m, p.acts, 0);
    var m' := ServeAll(exposed, m, p.acts[..n]);
    (m',
     if m'.failures != [] then ToolRaised(m'.failures[0])
     else if n < |p.acts| then TooManyCalls
     else if p.thrown.Some? then Threw(p.thrown.value)
     else Text(LastText(p.acts)))
  }

  // ---- one attempt, on values -----------------------------------------------

  /** What an attempt comes to: the answer, or the exception that leaves it. */
  datatype Result = Good(output: string) | Failed(end: End)

  function ContentOf(text: Option<string>): Scanner.Content {
    if text.None? then Scanner.NoContent else Scanner.Reply(text.value)
  }

  predicate CanReask(x: Setup, m: Marks) {
    x.maxCalls - m.turns >= 1
  }

  /** The model is asked once more, while there is budget, for a reply without an object or an object that is not valid. */
  predicate AsksAgain(x: Setup, m: Marks, e: Scanner.Extraction<string>) {
    CanReask(x, m) && !e.Structural? && !Scanner.Acceptable(e, x.valid)
  }

  function Attempted(x: Setup, s: Script): (Marks, Result) {
    var (m1, e1) := Driven(x.exposed, CLEAR, s.first);
    if !e1.Text? then (m1, Failed(e1))
    else
      var first := Scanner.Extracted(x.decoder, ContentOf(e1.final));
      if !AsksAgain(x, m1, first) then
        (m1, Answered(Scanner.Coercion(first, Scanner.Absent, CanReask(x, m1), x.valid)))
      else
        var (m2, e2) := Driven(x.exposed, m1, s.again);
        if !e2.Text? then (m2, Failed(e2))
        else
          var second := Scanner.Extracted(x.decoder, ContentOf(e2.final));
          (m2, Answered(Scanner.Coercion(first, second, true, x.valid)))
  }

  function Answered(c: Scanner.Coerced<string>): Result {
    if c.Coerced? then Good(c.value) else Failed(Threw(LoopFailure))
  }

  // ---- what the markers tell ------------------------------------------------

  /** The markers are right: one mark for every tool that reached the proxy, all of them declared, and at most one
      failure, after which nothing was let through. */
  ghost predicate Right(exposed: map<string, string>, m: Marks) {
    && m.invoked == |m.handled| && |m.failures| <= 1
    && (m.failures != [] ==> m.handled != [])
    && forall ref :: ref in m.handled ==> ref in exposed.Values
  }

  lemma {:induction false} ServedRight(exposed: map<string, string>, m: Marks, acts: seq<Act>)
    requires Right(exposed, m)
    ensures Right(exposed, ServeAll(exposed, m, acts))
    ensures m.handled <= ServeAll(exposed, m, acts).handled
    ensures m.failures != [] ==> ServeAll(exposed, m, acts) == m
    decreases |acts|
  {
    if acts != [] {
      ServedRight(exposed, m, acts[..|acts| - 1]);
    }
  }

  /** After any attempt, whatever the framework and the model did in it: a tool that reached the proxy left its mark,
      and a marked attempt let a declared tool through. */
  lemma MarkedExactly(x: Setup, s: Script)
    ensures
      var (m, r) := Attempted(x, s);
      && Right(x.exposed, m) && (m.invoked > 0 <==> m.handled != [])
      && (m.failures != [] <==> r.Failed? && r.end.ToolRaised?)
  {
    hide Driven, Scanner.Extracted, Scanner.Coercion;
    DrivenRight(x.exposed, CLEAR, s.first);
    var (m1, e1) := Driven(x.exposed, CLEAR, s.first);
    if e1.Text? {
      DrivenRight(x.exposed, m1, s.again);
    }
  }

  function TurnsOf(acts: seq<Act>): nat {
    if acts == [] then 0 else TurnsOf(acts[..|acts| - 1]) + if acts[|acts| - 1].Turn? then 1 else 0
  }

  lemma {:induction false} TurnsCounted(exposed: map<string, string>, m: Marks, acts: seq<Act>)
    ensures m.turns <= ServeAll(exposed, m, acts).turns <= m.turns + TurnsOf(acts)
    decreases |acts|
  {
    if acts != [] { TurnsCounted(exposed, m, acts[..|acts| - 1]); }
  }

  lemma {:induction false} TurnsGrow(acts: seq<Act>, n: nat)
    requires n <= |acts|
    ensures TurnsOf(acts[..n]) <= TurnsOf(acts)
    decreases |acts|
  {
    if n < |acts| {
      assert acts[..|acts| - 1][..n] == acts[..n];
      TurnsGrow(acts[..|acts| - 1], n);
    } else {
      assert acts[..n] == acts;
    }
  }

  lemma DrivenTurns(exposed: map<string, string>, m: Marks, p: Pass)
    ensures Driven(exposed, m, p).0.turns <= m.turns + TurnsOf(p.acts)
  {
    var n := Pulled(exposed, m, p.acts, 0);
    TurnsCounted(exposed, m, p.acts[..n]);
    TurnsGrow(p.acts, n);
  }

  /** When the framework starts no more turns in a pass than it is told, an attempt stays within its budget of model
      turns, the one further pass included: it is told what is left, and it is told so only if something is. */
  lemma TurnsWithinBudget(x: Setup, s: Script)
    requires TurnsOf(s.first.acts) <= x.maxCalls
    requires
      var left := x.maxCalls - Driven(x.exposed, CLEAR, s.first).0.turns;
      left >= 1 ==> TurnsOf(s.again.acts) <= left
    ensures Attempted(x, s).0.turns <= x.maxCalls
  {
    hide Driven, Scanner.Extracted, Scanner.Coercion;
    DrivenTurns(x.exposed, CLEAR, s.first);
    DrivenTurns(x.exposed, Driven(x.exposed, CLEAR, s.first).0, s.again);
  }

  /** An answer is an object of one of the two replies, and an invalid one only when it could not be asked for again
      or was the second. */
  lemma GoodAnswer(x: Setup, s: Script)
    requires Attempted(x, s).1.Good?
    ensures
      var (m1, e1) := Driven(x.exposed, CLEAR, s.first);
      && e1.Text?
      && var first := Scanner.Extracted(x.decoder, ContentOf(e1.final));
         if AsksAgain(x, m1, first) then
           var e2 := Driven(x.exposed, m1, s.again).1;
           e2.Text? && Scanner.Extracted(x.decoder, ContentOf(e2.final)) == Scanner.Found(Attempted(x, s).1.output)
         else
           first == Scanner.Found(Attempted(x, s).1.output) && (x.valid(first.value) || !CanReask(x, m1))
  {
    hide Driven, Scanner.Extracted;
  }

  lemma DrivenRight(exposed: map<string, string>, m: Marks, p: Pass)
    requires Right(exposed, m)
    ensures Right(exposed, Driven(exposed, m, p).0)
    ensures Driven(exposed, m, p).0.failures != [] <==> Driven(exposed, m, p).1.ToolRaised?
  {
    ServedRight(exposed, m, p.acts[..Pulled(exposed, m, p.acts, 0)]);
  }

  /** Once a tool has failed, whatever is asked for afterwards, no tool runs any more. */
  lemma NothingAfterFailure(exposed: map<string, string>, m: Marks, before: seq<Act>, after: seq<Act>)
    requires Right(exposed, m) && ServeAll(exposed, m, before).failures != []
    ensures ServeAll(exposed, m, before + after) == ServeAll(exposed, m, before)
  {
    ServedRight(exposed, m, before);
    ServedRight(exposed, ServeAll(exposed, m, before), after);
    ServeAppends(exposed, m, before, after);
  }

  lemma {:induction false} ServeAppends(exposed: map<string, string>, m: Marks, before: seq<Act>, after: seq<Act>)
    ensures ServeAll(exposed, m, before + after) == ServeAll(exposed, ServeAll(exposed, m, before), after)
    decreases |after|
  {
    var all := before + after;
    if after == [] {
      assert all == before;
    } else {
      var init := after[..|after| - 1];
      assert all[..|all| - 1] == before + init;
      ServeAppends(exposed, m, before, init);
    }
  }

  // ---- the bundle -----------------------------------------------------------

  class ToolLoopBundle {
    var turns: nat
    var failures: seq<string>
    var toolInvoked: nat
    ghost var earlier: seq<string>
    ghost var handled: seq<string>

    constructor ()
      ensures View() == CLEAR && Reached() == []
    {
      turns, failures, toolInvoked, earlier, handled := 0, [], 0, [], [];
    }

    ghost function View(): Marks
      reads this
    {
      Marks(turns, failures, toolInvoked, handled)
    }

    /** All that reached the proxy in this step, whatever the attempt. */
    ghost function Reached(): seq<string>
      reads this
    {
      earlier + handled
    }

    /** The markers are reset; what was done is done. */
    method Clear()
      modifies this
      ensures View() == CLEAR && Reached() == old(Reached()) && earlier == old(Reached())
    {
      turns, failures, toolInvoked := 0, [], 0;
      earlier, handled := earlier + handled, [];
    }

    method BeforeModel() returns (skipped: bool)
      modifies this
      ensures View() == Serve(map[], old(View()), Turn) && earlier == old(earlier)
      ensures skipped <==> old(failures) != []
    {
      if failures != [] {
        return true;
      }
      turns := turns + 1;
      skipped := false;
    }

    method BeforeTool(exposed: map<string, string>, name: string) returns (blocked: bool)
      modifies this`toolInvoked
      ensures blocked <==> old(failures) != [] || name !in exposed
      ensures toolInvoked == if blocked then old(toolInvoked) else old(toolInvoked) + 1
    {
      if failures != [] || name !in exposed {
        return true;
      }
      toolInvoked := toolInvoked + 1;
      blocked := false;
    }

    /** The tool itself: it goes to the proxy, and leaves its failure behind. */
    method RunTool(ref: string, raised: Option<string>)
      modifies this`failures, this`handled
      ensures handled == old(handled) + [ref]
      ensures failures == if raised.Some? then old(failures) + [raised.value] else old(failures)
    {
      handled := handled + [ref];
      if raised.Some? {
        failures := failures + [raised.value];
      }
    }

    method Dispatch(exposed: map<string, string>, a: Act)
      modifies this
      ensures View() == Serve(exposed, old(View()), a) && earlier == old(earlier)
    {
      match a
      case Turn =>
        var skipped := BeforeModel();
      case Request(name, raised) =>
        var blocked := BeforeTool(exposed, name);
        if !blocked {
          RunTool(exposed[name], raised);
        }
      case Says(_, _) =>
    }

    method ConsumePass(exposed: map<string, string>, p: Pass) returns (end: End)
      modifies this
      ensures (View(), end) == Driven(exposed, old(View()), p) && earlier == old(earlier)
    {
      var text: Option<string> := None;
      var i := 0;
      assert p.acts[..0] == [];
      while i < |p.acts|
        invariant 0 <= i <= |p.acts| && earlier == old(earlier)
        invariant View() == ServeAll(exposed, old(View()), p.acts[..i])
        invariant Pulled(exposed, old(View()), p.acts, 0) == Pulled(exposed, View(), p.acts, i)
        invariant text == LastText(p.acts[..i])
      {
        assert p.acts[..i + 1][..i] == p.acts[..i];
        var a := p.acts[i];
        if a.Says? && (failures != [] || a.calls > 1) {
          break;
        }
        Dispatch(exposed, a);
        if a.Says? && a.text.Some? {
          text := a.text;
        }
        i := i + 1;
      }
      assert p.acts[..|p.acts|] == p.acts;
      if failures != [] {
        return ToolRaised(failures[0]);
      }
      if i < |p.acts| {
        return TooManyCalls;
      }
      if p.thrown.Some? {
        return Threw(p.thrown.value);
      }
      end := Text(text);
    }

    method RunOneAttempt(x: Setup, s: Script) returns (result: Result)
      modifies this
      ensures (View(), result) == Attempted(x, s) && earlier == old(Reached())
    {
      Clear();
      var end := ConsumePass(x.exposed, s.first);
      if !end.Text? {
        return Failed(end);
      }
      var e := Scanner.ExtractObject(x.decoder, ContentOf(end.final));
      if e.Found? && x.valid(e.value) {
        return Good(e.value);
      }
      if e.Structural? {
        return Failed(Threw(LoopFailure));
      }
      if x.maxCalls - turns < 1 {
        return if e.Found? then Good(e.value) else Failed(Threw(LoopFailure));
      }
      end := ConsumePass(x.exposed, s.again);
      if !end.Text? {
        return Failed(end);
      }
      e := Scanner.ExtractObject(x.decoder, ContentOf(end.final));
      result := if e.Found? then Good(e.value) else Failed(Threw(LoopFailure));
    }
  }

  // ---- the chain ------------------------------------------------------------

  datatype LoopEnding = LoopReturned(output: string) | ToolFailure | LoopError | LoopUnavailable

  /** The driver looks at the markers and at the exception, never at what was done. */
  predicate MayAdvance(a: Attempt, m: Marks, r: Result, more: bool) {
    && r.Failed? && m.failures == [] && m.invoked == 0 && more
    && r.end.Threw? && r.end.thrown.ProviderFailure?
    && r.end.thrown.kind.Transport? && r.end.thrown.reason in a.fallbackOn
  }

  function LoopEndingOf(m: Marks, r: Result): LoopEnding {
    if r.Good? then LoopReturned(r.output)
    else if m.failures != [] then ToolFailure
    else if !r.end.Threw? || r.end.thrown.LoopFailure? || r.end.thrown.kind.Unknown? then LoopError
    else LoopUnavailable
  }

  predicate Advances(chain: seq<Attempt>, x: Setup, scripts: nat -> Script, i: nat)
    requires i < |chain|
  {
    var (m, r) := Attempted(x, scripts(i));
    MayAdvance(chain[i], m, r, i + 1 < |chain|)
  }

  /** The driver goes on to the next attempt exactly after a transport failure that this attempt lists, when no tool was
      let through and none failed, and there is a next one. Otherwise the attempt decides: its answer; the tool's failure
      before anything else; the loop's own refusal; or that the provider is not available. */
  lemma DriverExactly(chain: seq<Attempt>, x: Setup, scripts: nat -> Script, i: nat)
    requires i < |chain|
    ensures
      var (m, r) := Attempted(x, scripts(i));
      var provider := r.Failed? && r.end.Threw? && r.end.thrown.ProviderFailure?;
      var e := LoopEndingOf(m, r);
      && (Advances(chain, x, scripts, i) <==>
            provider && r.end.thrown.kind.Transport? && r.end.thrown.reason in chain[i].fallbackOn
            && m.handled == [] && m.failures == [] && i + 1 < |chain|)
      && (e.LoopReturned? <==> r.Good?) && (r.Good? ==> e.output == r.output)
      && (e.ToolFailure? <==> r.Failed? && r.end.ToolRaised?)
      && (e.LoopUnavailable? <==> provider && !r.end.thrown.kind.Unknown?)
      && (e.LoopError? <==> r.Failed? && !r.end.ToolRaised? && !(provider && !r.end.thrown.kind.Unknown?))
  {
    MarkedExactly(x, scripts(i));
    var (m, r) := Attempted(x, scripts(i));
    hide Attempted;
    assert r.Good? ==> m.failures == [];
    assert Advances(chain, x, scripts, i) <==> MayAdvance(chain[i], m, r, i + 1 < |chain|);
  }

  /** The first attempt that the driver does not advance from. */
  function LoopLast(chain: seq<Attempt>, x: Setup, scripts: nat -> Script, i: nat): (last: nat)
    requires i < |chain|
    ensures i <= last < |chain|
    ensures forall m :: i <= m < last ==> Advances(chain, x, scripts, m)
    ensures !Advances(chain, x, scripts, last)
    decreases |chain| - i
  {
    if Advances(chain, x, scripts, i) then LoopLast(chain, x, scripts, i + 1) else i
  }

  /** What reaches the proxy over the first `n` attempts, in order. */
  function HandledUpTo(x: Setup, scripts: nat -> Script, n: nat): seq<string> {
    if n == 0 then [] else HandledUpTo(x, scripts, n - 1) + Attempted(x, scripts(n - 1)).0.handled
  }

  /** An attempt that the driver advances from has let no tool through. */
  lemma AdvancedIsClean(chain: seq<Attempt>, x: Setup, scripts: nat -> Script, i: nat)
    requires i < |chain| && Advances(chain, x, scripts, i)
    ensures Attempted(x, scripts(i)).0.handled == []
  {
    MarkedExactly(x, scripts(i));
  }

  /** No side effect is replayed across providers: of everything that reaches the proxy in a step, whatever the
      framework and the models do, all of it does so in the last attempt that is made. */
  lemma {:induction false} HandledInLastAttemptOnly(chain: seq<Attempt>, x: Setup, scripts: nat -> Script, n: nat)
    requires chain != [] && n <= LoopLast(chain, x, scripts, 0)
    ensures HandledUpTo(x, scripts, n) == []
    ensures
      var last := LoopLast(chain, x, scripts, 0);
      n == last ==> HandledUpTo(x, scripts, last + 1) == Attempted(x, scripts(last)).0.handled
  {
    hide Attempted, MayAdvance;
    if n > 0 {
      HandledInLastAttemptOnly(chain, x, scripts, n - 1);
      AdvancedIsClean(chain, x, scripts, n - 1);
    }
  }

  /** The driver. What it leaves done is what the last attempt did, on top of what the bundle had seen before. */
  method RunLoopChain(chain: seq<Attempt>, x: Setup, scripts: nat -> Script, b: ToolLoopBundle)
    returns (made: nat, ending: LoopEnding)
    requires chain != []
    modifies b
    ensures
      var last := LoopLast(chain, x, scripts, 0);
      var (m, r) := Attempted(x, scripts(last));
      && made == last + 1 && ending == LoopEndingOf(m, r) && b.View() == m
      && b.Reached() == old(b.Reached()) + m.handled == old(b.Reached()) + HandledUpTo(x, scripts, made)
  {
    ghost var last := LoopLast(chain, x, scripts, 0);
    HandledInLastAttemptOnly(chain, x, scripts, last);
    made := 0;
    while true
      invariant made < |chain| && last == LoopLast(chain, x, scripts, made)
      invariant b.Reached() == old(b.Reached())
      decreases |chain| - made
    {
      var i := made;
      var result := b.RunOneAttempt(x, scripts(i));
      made := i + 1;
      if result.Good? {
        return made, LoopReturned(result.output);
      }
      if b.failures != [] {
        return made, ToolFailure;
      }
      var exception := result.end;
      if !exception.Threw? || exception.thrown.LoopFailure? || exception.thrown.kind.Unknown? {
        return made, LoopError;
      }
      if b.toolInvoked > 0 {
        return made, LoopUnavailable;
      }
      if exception.thrown.kind.Transport? && exception.thrown.reason in chain[i].fallbackOn && made < |chain| {
        AdvancedIsClean(chain, x, scripts, i);
        continue;
      }
      return made, LoopUnavailable;
    }
  }
}
