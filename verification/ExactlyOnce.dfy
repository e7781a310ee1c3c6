/** Effects happen exactly once, over any number of attempts that crash anywhere. */
module ExactlyOnce {

  import opened Wrappers
  import Sets
  import opened Taint
  import opened Tokens
  import opened EffectLedger
  import opened ToolCalls

  // ---- lawful histories -----------------------------------------------------

  /** What may happen next: a pending entry at a fresh key, the handler of a pending entry that has not run,
      or the success of a handler that has returned. */
  ghost predicate Allowed(before: seq<Event>, e: Event) {
    var entries := ContentsOf(before).entries;
    match e
    case Pended(key, _, _) => key !in entries
    case Fired(key, toolRef, inputHash, _) =>
      key in entries && entries[key] == Entry(toolRef, inputHash, Pending, None) && !HasFired(before, key)
    case Recorded(key, output) =>
      key in entries && entries[key].status.Pending?
      && Fired(key, entries[key].toolRef, entries[key].inputHash, Returns(output)) in before
  }

  ghost predicate HasFired(events: seq<Event>, key: EffectKey) {
    exists e :: e in events && e.Fired? && e.key == key
  }

  ghost predicate Lawful(events: seq<Event>) {
    forall n :: 0 <= n < |events| ==> Allowed(events[..n], events[n])
  }

  lemma LawfulPrefix(events: seq<Event>, n: nat)
    requires Lawful(events) && n <= |events|
    ensures Lawful(events[..n])
  {
    forall m | 0 <= m < n ensures Allowed(events[..n][..m], events[..n][m]) {
      assert events[..n][..m] == events[..m];
    }
  }

  lemma LawfulNext(events: seq<Event>, e: Event)
    requires Lawful(events) && Allowed(events, e)
    ensures Lawful(events + [e])
  {
    var more := events + [e];
    forall m | 0 <= m < |more| ensures Allowed(more[..m], more[m]) {
      assert more[..m] == events[..m];
      assert events[..|events|] == events;
    }
  }

  lemma ContentsNext(events: seq<Event>, e: Event)
    ensures ContentsOf(events + [e]) == AfterEvent(ContentsOf(events), e)
  {
    assert (events + [e])[..|events|] == events;
  }

  // ---- what lawfulness gives ------------------------------------------------

  /** No handler runs twice for the same run, step and position. */
  lemma FiredAtMostOnce(events: seq<Event>, i: nat, j: nat)
    requires Lawful(events) && i < j < |events|
    requires events[i].Fired? && events[j].Fired?
    ensures events[i].key != events[j].key
  {
    assert Allowed(events[..j], events[j]);
    assert events[i] in events[..j];
  }

  /** If the entry reads SUCCEEDED, it holds what its handler returned. */
  ghost predicate Backed(events: seq<Event>, c: Contents, key: EffectKey) {
    key in c.entries && c.entries[key].status.Succeeded? ==>
      var e := c.entries[key];
      e.output.Some? && Fired(key, e.toolRef, e.inputHash, Returns(e.output.value)) in events
  }

  lemma EventBacks(before: seq<Event>, e: Event, c: Contents, key: EffectKey)
    requires c == ContentsOf(before) && Allowed(before, e) && Backed(before, c, key)
    ensures Backed(before + [e], AfterEvent(c, e), key)
  {
    hide ContentsOf;
  }

  /** An entry that reads SUCCEEDED holds the output of its own handler. */
  lemma {:induction false} SucceededWasFired(events: seq<Event>, key: EffectKey)
    requires Lawful(events)
    ensures Backed(events, ContentsOf(events), key)
    decreases |events|
  {
    if events != [] {
      var n := |events| - 1;
      var before := events[..n];
      LawfulPrefix(events, n);
      assert Allowed(before, events[n]);
      SucceededWasFired(before, key);
      EventBacks(before, events[n], ContentsOf(before), key);
      assert events == before + [events[n]];
    }
  }

  /** Entries are never taken back. */
  lemma {:induction false} EntriesGrow(events: seq<Event>, n: nat)
    requires n <= |events|
    ensures ContentsOf(events[..n]).entries.Keys <= ContentsOf(events).entries.Keys
    decreases |events|
  {
    if n < |events| {
      var before := events[..|events| - 1];
      assert before[..n] == events[..n];
      EntriesGrow(before, n);
    } else {
      assert events[..n] == events;
    }
  }

  /** A fired effect has its entry, so that no later attempt takes it for a fresh one. */
  lemma FiredHasEntry(events: seq<Event>, key: EffectKey)
    requires Lawful(events) && HasFired(events, key)
    ensures key in ContentsOf(events).entries
  {
    var n :| 0 <= n < |events| && events[n].Fired? && events[n].key == key;
    assert Allowed(events[..n], events[n]);
    EntriesGrow(events, n);
  }

  ghost function EntriesOf(c: Contents, at: (string, Step)): set<EffectKey> {
    set key | key in c.entries && (key.runId, key.step) == at
  }

  /** `recorded_count` counts the entries of the step. */
  lemma {:induction false} CountCounts(events: seq<Event>, at: (string, Step))
    requires Lawful(events)
    ensures CountAt(ContentsOf(events), at.0, at.1) == |EntriesOf(ContentsOf(events), at)|
    decreases |events|
  {
    if events == [] {
      assert EntriesOf(ContentsOf(events), at) == {};
    } else {
      var n := |events| - 1;
      var before, e := events[..n], events[n];
      assert events == before + [e];
      LawfulPrefix(events, n);
      ContentsNext(before, e);
      CountCounts(before, at);
      assert Allowed(before, e);
      var was := EntriesOf(ContentsOf(before), at);
      if e.Pended? && (e.key.runId, e.key.step) == at {
        assert EntriesOf(ContentsOf(events), at) == was + {e.key};
      } else {
        assert EntriesOf(ContentsOf(events), at) == was;
      }
    }
  }

  // ---- attempts -------------------------------------------------------------

  /** An effectful call that came back to the agent. */
  datatype Made = Made(toolRef: string, inputHash: string, output: string)

  /** A running process, with what its calls returned or raised so far, step by step. */
  datatype Process = Process(cfg: Config, s: State, made: map<(string, Step), seq<Made>>, raised: set<(string, Step)>)

  datatype Move =
    | Start(cfg: Config)                            // a new attempt over what survived
    | Issue(secret: string, token: Token, now: real)
    | Seed(runId: string, step: Step, trust: Trust)
    | Make(c: Call, w: World)                       // one call, start to end
    | Crash(c: Call, w: World, after: nat, next: Config)  // a call cut short after some of its events

  function Fresh(cfg: Config, events: seq<Event>): Process {
    Process(cfg, State(map[], map[], ContentsOf(events), events, map[], map[], 0, {}, []), map[], {})
  }

  function MadeAt(p: Process, at: (string, Step)): seq<Made> {
    if at in p.made then p.made[at] else []
  }

  predicate Ledgered(cfg: Config, c: Call) {
    cfg.ledgered && c.toolRef in cfg.registry && cfg.registry[c.toolRef].effectful
  }

  /** What the step makes of a call, once the call is done. */
  function After(p: Process, c: Call, s': State, outcome: Outcome): Process {
    var at := (c.runId, c.step);
    if outcome.Raised? then p.(s := s', raised := p.raised + {at})
    else if Ledgered(p.cfg, c) then
      p.(s := s', made := p.made[at := MadeAt(p, at) + [Made(c.toolRef, c.inputHash, outcome.output)]])
    else p.(s := s')
  }

  function Cut(events: seq<Event>, n: nat): seq<Event> {
    if n <= |events| then events[..n] else events
  }

  function Step(p: Process, m: Move): Process {
    match m
    case Start(cfg) => Fresh(cfg, p.s.events)
    case Issue(secret, t, now) =>
      p.(s := p.s.(records := p.s.records[secret := Record(t.toolRef, t.operation, t.runId, now, false)]))
    case Seed(runId, step, trust) =>
      p.(s := p.s.(scopes := Seeded(p.s.scopes, (runId, step), trust)))
    case Make(c, w) =>
      var (s', outcome) := Invoke(p.cfg, p.s, c, w);
      After(p, c, s', outcome)
    case Crash(c, w, after, next) =>
      Fresh(next, Cut(Invoke(p.cfg, p.s, c, w).0.events, |p.s.events| + after))
  }

  function Run(cfg: Config, moves: seq<Move>): Process {
    if moves == [] then Fresh(cfg, []) else Step(Run(cfg, moves[..|moves| - 1]), moves[|moves| - 1])
  }

  /** Everything the ledger promised so far still stands, and the calls of a step without errors are its first entries. */
  ghost predicate Sound(p: Process) {
    && Lawful(p.s.events)
    && p.s.effects == ContentsOf(p.s.events)
    && forall at :: at !in p.raised ==> Matches(p.s.effects, at, MadeAt(p, at), CursorAt(p.s.cursor, at))
  }

  predicate Confirmed(c: Contents, at: (string, Step), i: nat, m: Made) {
    var key := EffectKey(at.0, at.1, i);
    key in c.entries && c.entries[key] == Entry(m.toolRef, m.inputHash, Succeeded, Some(m.output))
  }

  /** The calls of a step without errors are the first entries of the ledger for it. */
  ghost predicate Matches(c: Contents, at: (string, Step), made: seq<Made>, cursor: nat) {
    |made| == cursor && forall i :: 0 <= i < |made| ==> Confirmed(c, at, i, made[i])
  }

  // ---- one call keeps it ----------------------------------------------------

  /** The gates and the log touch neither the ledger nor the cursor. */
  lemma GatesKeepEffects(cfg: Config, tool: Tool, s: State, c: Call, now: real)
    ensures
      var s' := Gates(cfg, tool, s, c, now).0;
      s'.effects == s.effects && s'.events == s.events && s'.cursor == s.cursor
  {
  }

  /** The events of one call are lawful, whatever the surroundings do, and the ledger keeps up with them. */
  lemma ExecuteLawful(cfg: Config, tool: Tool, s: State, c: Call, w: World)
    requires Lawful(s.events) && s.effects == ContentsOf(s.events)
    ensures
      var s' := Execute(cfg, tool, s, c, w).0;
      Lawful(s'.events) && s'.effects == ContentsOf(s'.events) && s.events <= s'.events
  {
    hide Lawful, ContentsOf;
    var s' := Execute(cfg, tool, s, c, w).0;
    var at := (c.runId, c.step);
    var key := EffectKey(c.runId, c.step, CursorAt(s.cursor, at));
    if cfg.ledgered && tool.effectful && key !in s.effects.entries && !w.pending.Fails? && c.step.Some? {
      FreshLawful(s.events, key, c, w);
    }
  }

  lemma FreshLawful(events: seq<Event>, key: EffectKey, c: Call, w: World)
    requires Lawful(events) && key !in ContentsOf(events).entries
    ensures
      var one := events + [Pended(key, c.toolRef, c.inputHash)];
      var two := one + [Fired(key, c.toolRef, c.inputHash, w.handler)];
      && Lawful(one) && ContentsOf(one) == AfterPending(ContentsOf(events), key, c.toolRef, c.inputHash)
      && Lawful(two) && ContentsOf(two) == AfterPending(ContentsOf(events), key, c.toolRef, c.inputHash)
      && (w.handler.Returns? ==>
            Lawful(two + [Recorded(key, w.handler.output)])
            && ContentsOf(two + [Recorded(key, w.handler.output)]) == AfterSucceeded(ContentsOf(two), key, w.handler.output))
  {
    var pended, fired := Pended(key, c.toolRef, c.inputHash), Fired(key, c.toolRef, c.inputHash, w.handler);
    var one := events + [pended];
    var two := one + [fired];
    LawfulNext(events, pended);
    ContentsNext(events, pended);
    if HasFired(one, key) {
      assert HasFired(events, key);
      FiredHasEntry(events, key);
    }
    LawfulNext(one, fired);
    ContentsNext(one, fired);
    if w.handler.Returns? {
      assert fired in two;
      LawfulNext(two, Recorded(key, w.handler.output));
      ContentsNext(two, Recorded(key, w.handler.output));
    }
  }

  lemma InvokeLawful(cfg: Config, s: State, c: Call, w: World)
    requires Lawful(s.events) && s.effects == ContentsOf(s.events)
    ensures
      var s' := Invoke(cfg, s, c, w).0;
      Lawful(s'.events) && s'.effects == ContentsOf(s'.events) && s.events <= s'.events
  {
    hide Lawful, ContentsOf;
    if c.toolRef in cfg.registry {
      var tool := cfg.registry[c.toolRef];
      var (s1, denial) := Gates(cfg, tool, s, c, w.now);
      GatesKeepEffects(cfg, tool, s, c, w.now);
      if denial.None? {
        ExecuteLawful(cfg, tool, s1, c, w);
      }
    }
  }

  /** A success, once recorded, stands. */
  ghost predicate Keeps(before: Contents, after: Contents) {
    forall key :: key in before.entries && before.entries[key].status.Succeeded? ==>
      key in after.entries && after.entries[key] == before.entries[key]
  }

  /** A call takes back no success, and one that returns leaves its own at the cursor. */
  ghost predicate Advances(cfg: Config, s: State, c: Call, s': State, outcome: Outcome) {
    var at := (c.runId, c.step);
    && Keeps(s.effects, s'.effects)
    && (forall other :: other != at ==> CursorAt(s'.cursor, other) == CursorAt(s.cursor, other))
    && (outcome.Returned? && !Ledgered(cfg, c) ==> s'.cursor == s.cursor)
    && (outcome.Returned? && Ledgered(cfg, c) ==>
          CursorAt(s'.cursor, at) == CursorAt(s.cursor, at) + 1
          && Confirmed(s'.effects, at, CursorAt(s.cursor, at), Made(c.toolRef, c.inputHash, outcome.output)))
  }

  lemma FreshConfirms(s: State, key: EffectKey, c: Call, w: World)
    requires key !in s.effects.entries
    ensures
      var (s', outcome) := FreshEffect(s, key, c, w);
      && Keeps(s.effects, s'.effects) && s'.cursor == s.cursor
      && (outcome.Returned? ==>
            key in s'.effects.entries
            && s'.effects.entries[key] == Entry(c.toolRef, c.inputHash, Succeeded, Some(outcome.output)))
  {
  }

  lemma ExecuteConfirms(cfg: Config, tool: Tool, s: State, c: Call, w: World)
    requires Lawful(s.events) && s.effects == ContentsOf(s.events)
    requires c.toolRef in cfg.registry && tool == cfg.registry[c.toolRef]
    ensures Advances(cfg, s, c, Execute(cfg, tool, s, c, w).0, Execute(cfg, tool, s, c, w).1)
  {
    hide Lawful, ContentsOf;
    if Ledgered(cfg, c) {
      var at := (c.runId, c.step);
      var key := EffectKey(c.runId, c.step, CursorAt(s.cursor, at));
      if key in s.effects.entries {
        SucceededWasFired(s.events, key);
      } else {
        FreshConfirms(s.(cursor := s.cursor[at := key.position + 1]), key, c, w);
      }
    }
  }

  lemma InvokeConfirms(cfg: Config, s: State, c: Call, w: World)
    requires Lawful(s.events) && s.effects == ContentsOf(s.events)
    ensures Advances(cfg, s, c, Invoke(cfg, s, c, w).0, Invoke(cfg, s, c, w).1)
  {
    hide Lawful, ContentsOf;
    if c.toolRef in cfg.registry {
      var tool := cfg.registry[c.toolRef];
      GatesKeepEffects(cfg, tool, s, c, w.now);
      var (s1, denial) := Gates(cfg, tool, s, c, w.now);
      if denial.None? {
        ExecuteConfirms(cfg, tool, s1, c, w);
      }
    }
  }

  lemma FreshSound(cfg: Config, events: seq<Event>, n: nat)
    requires Lawful(events)
    ensures Sound(Fresh(cfg, Cut(events, n)))
  {
    if n <= |events| { LawfulPrefix(events, n); }
  }

  lemma EventsLawful(p: Process, c: Call, w: World) returns (events: seq<Event>)
    requires Lawful(p.s.events) && p.s.effects == ContentsOf(p.s.events)
    ensures Lawful(events) && events == Invoke(p.cfg, p.s, c, w).0.events
  {
    InvokeLawful(p.cfg, p.s, c, w);
    events := Invoke(p.cfg, p.s, c, w).0.events;
  }

  lemma StepSound(p: Process, m: Move)
    requires Sound(p)
    ensures Sound(Step(p, m))
  {
    hide Lawful, ContentsOf, Invoke;
    if m.Make? {
      InvokeLawful(p.cfg, p.s, m.c, m.w);
      InvokeConfirms(p.cfg, p.s, m.c, m.w);
      MakeSound(p, m.c, m.w);
    } else if m.Crash? {
      var events := EventsLawful(p, m.c, m.w);
      FreshSound(m.next, events, |p.s.events| + m.after);
    }
  }

  lemma MatchesKept(c: Contents, c': Contents, at: (string, Step), made: seq<Made>, cursor: nat)
    requires Matches(c, at, made, cursor) && Keeps(c, c')
    ensures Matches(c', at, made, cursor)
  {
    forall i | 0 <= i < |made| ensures Confirmed(c', at, i, made[i]) {
      assert Confirmed(c, at, i, made[i]);
    }
  }

  lemma MakeSound(p: Process, c: Call, w: World)
    requires Sound(p)
    requires
      var s' := Invoke(p.cfg, p.s, c, w).0;
      Lawful(s'.events) && s'.effects == ContentsOf(s'.events)
    requires Advances(p.cfg, p.s, c, Invoke(p.cfg, p.s, c, w).0, Invoke(p.cfg, p.s, c, w).1)
    ensures Sound(Step(p, Make(c, w)))
  {
    hide Lawful, ContentsOf, Invoke;
    var (s', outcome) := Invoke(p.cfg, p.s, c, w);
    Continues(p, c, s', outcome);
  }

  lemma Continues(p: Process, c: Call, s': State, outcome: Outcome)
    requires Sound(p) && Lawful(s'.events) && s'.effects == ContentsOf(s'.events)
    requires Advances(p.cfg, p.s, c, s', outcome)
    ensures Sound(After(p, c, s', outcome))
  {
    hide Lawful, ContentsOf;
    var p' := After(p, c, s', outcome);
    forall at | at !in p'.raised ensures Matches(s'.effects, at, MadeAt(p', at), CursorAt(s'.cursor, at)) {
      MatchesKept(p.s.effects, s'.effects, at, MadeAt(p, at), CursorAt(p.s.cursor, at));
    }
  }

  lemma {:induction false} RunSound(cfg: Config, moves: seq<Move>)
    ensures Sound(Run(cfg, moves))
    decreases |moves|
  {
    if moves != [] {
      RunSound(cfg, moves[..|moves| - 1]);
      StepSound(Run(cfg, moves[..|moves| - 1]), moves[|moves| - 1]);
    }
  }

  // ---- the theorems ---------------------------------------------------------

  /** However the attempts crash, no handler fires twice for one run, step and position. */
  lemma NoDoubleFire(cfg: Config, moves: seq<Move>, i: nat, j: nat)
    requires i < j < |Run(cfg, moves).s.events|
    requires Run(cfg, moves).s.events[i].Fired? && Run(cfg, moves).s.events[j].Fired?
    ensures Run(cfg, moves).s.events[i].key != Run(cfg, moves).s.events[j].key
  {
    RunSound(cfg, moves);
    FiredAtMostOnce(Run(cfg, moves).s.events, i, j);
  }

  /** The check at the end of a step: nothing recorded was left unconsumed. */
  predicate NoOrphans(s: State, at: (string, Step)) {
    CountAt(s.effects, at.0, at.1) <= CursorAt(s.cursor, at)
  }

  /** The set {0, .., n-1} of positions of one step. */
  function Positions(at: (string, Step), n: nat): (r: set<EffectKey>)
    ensures |r| == n
    ensures forall key :: key in r <==> (key.runId, key.step) == at && key.position < n
  {
    if n == 0 then {} else Positions(at, n - 1) + {EffectKey(at.0, at.1, n - 1)}
  }

  /** Comparing the two counts decides whether every recorded effect of the step was consumed. */
  lemma OrphanCheckDecides(p: Process, at: (string, Step))
    requires Sound(p) && at !in p.raised
    ensures NoOrphans(p.s, at) <==> forall key :: key in EntriesOf(p.s.effects, at) ==> key.position < CursorAt(p.s.cursor, at)
    ensures Positions(at, CursorAt(p.s.cursor, at)) <= EntriesOf(p.s.effects, at)
  {
    var n := CursorAt(p.s.cursor, at);
    var consumed, recorded := Positions(at, n), EntriesOf(p.s.effects, at);
    forall key | key in consumed ensures key in recorded {
      assert Confirmed(p.s.effects, at, key.position, MadeAt(p, at)[key.position]);
    }
    CountCounts(p.s.events, at);
    if NoOrphans(p.s, at) {
      Sets.SubsetOfSameSize(consumed, recorded);
    } else if forall key :: key in recorded ==> key.position < n {
      assert false by { Sets.SubsetSize(recorded, consumed); }
    }
  }

  /** A step that finishes cleanly made exactly the effectful calls the ledger holds for it, in order:
      every entry is SUCCEEDED, its handler fired exactly once over all attempts, and its call got the recorded output. */
  lemma CleanStepIsTheLedger(cfg: Config, moves: seq<Move>, at: (string, Step))
    requires at !in Run(cfg, moves).raised && NoOrphans(Run(cfg, moves).s, at)
    ensures
      var p := Run(cfg, moves);
      var made, c, events := MadeAt(p, at), p.s.effects, p.s.events;
      && CountAt(c, at.0, at.1) == |made|
      && (forall key :: key in EntriesOf(c, at) <==> (key.runId, key.step) == at && key.position < |made|)
      && forall i :: 0 <= i < |made| ==>
           var key := EffectKey(at.0, at.1, i);
           && Confirmed(c, at, i, made[i])
           && Fired(key, made[i].toolRef, made[i].inputHash, Returns(made[i].output)) in events
           && forall m, n :: 0 <= m < n < |events| && events[m].Fired? && events[n].Fired? ==>
                !(events[m].key == key && events[n].key == key)
  {
    var p := Run(cfg, moves);
    RunSound(cfg, moves);
    OrphanCheckDecides(p, at);
    CountCounts(p.s.events, at);
    assert EntriesOf(p.s.effects, at) == Positions(at, |MadeAt(p, at)|);
    forall i | 0 <= i < |MadeAt(p, at)|
      ensures
        var m := MadeAt(p, at)[i];
        Fired(EffectKey(at.0, at.1, i), m.toolRef, m.inputHash, Returns(m.output)) in p.s.events
    {
      assert Confirmed(p.s.effects, at, i, MadeAt(p, at)[i]);
      SucceededWasFired(p.s.events, EffectKey(at.0, at.1, i));
    }
    forall m, n | 0 <= m < n < |p.s.events| && p.s.events[m].Fired? && p.s.events[n].Fired?
      ensures p.s.events[m].key != p.s.events[n].key
    {
      FiredAtMostOnce(p.s.events, m, n);
    }
  }
}
