/** The durable record of effectful tool calls, and the order of what happened outside the process. */
module EffectLedger {

  import opened Wrappers
  import opened Taint

  datatype Status = Pending | Succeeded

  datatype Entry = Entry(toolRef: string, inputHash: string, status: Status, output: Option<string>)

  /** Run, step and position of an effectful call within the step. */
  datatype EffectKey = EffectKey(runId: string, step: Step, position: nat)

  datatype Contents = Contents(entries: map<EffectKey, Entry>, counts: map<(string, Step), nat>)

  datatype HandlerResult = Returns(output: string) | Raises(failure: Failure)

  /** What a call can raise: the tool errors, the ledger errors, and anything else. */
  datatype Failure =
    | TokenFailure | BreakerFailure | AccessFailure | TaintFailure | OtherToolFailure
    | Divergence | Unresolved | LedgerWrite | OtherFailure

  /** One durable write, or one run of a handler. */
  datatype Event =
    | Pended(key: EffectKey, toolRef: string, inputHash: string)
    | Fired(key: EffectKey, toolRef: string, inputHash: string, result: HandlerResult)
    | Recorded(key: EffectKey, output: string)

  function CountAt(c: Contents, runId: string, step: Step): nat {
    if (runId, step) in c.counts then c.counts[(runId, step)] else 0
  }

  function AfterPending(c: Contents, key: EffectKey, toolRef: string, inputHash: string): Contents {
    Contents(
      c.entries[key := Entry(toolRef, inputHash, Pending, None)],
      c.counts[(key.runId, key.step) := CountAt(c, key.runId, key.step) + 1])
  }

  function AfterSucceeded(c: Contents, key: EffectKey, output: string): Contents {
    if key in c.entries then
      c.(entries := c.entries[key := c.entries[key].(status := Succeeded, output := Some(output))])
    else c
  }

  function AfterEvent(c: Contents, e: Event): Contents {
    match e
    case Pended(key, toolRef, inputHash) => AfterPending(c, key, toolRef, inputHash)
    case Fired(_, _, _, _) => c
    case Recorded(key, output) => AfterSucceeded(c, key, output)
  }

  /** What the ledger holds after these events. */
  function ContentsOf(events: seq<Event>): Contents {
    if events == [] then Contents(map[], map[])
    else AfterEvent(ContentsOf(events[..|events| - 1]), events[|events| - 1])
  }

  /** The order in which durable writes and handlers took effect. */
  class Outside {
    ghost var events: seq<Event>

    constructor ()
      ensures events == []
    {
      events := [];
    }

    ghost method Happens(e: Event)
      modifies this
      ensures events == old(events) + [e]
    {
      events := events + [e];
    }
  }

  class InMemoryEffectLedger {
    const outside: Outside
    var entries: map<EffectKey, Entry>
    var counts: map<(string, Step), nat>

    ghost function View(): Contents
      reads this
    {
      Contents(entries, counts)
    }

    constructor (outside: Outside)
      ensures this.outside == outside && View() == Contents(map[], map[])
    {
      this.outside := outside;
      entries, counts := map[], map[];
    }

    method RecordPending(key: EffectKey, toolRef: string, inputHash: string)
      modifies this, outside
      ensures View() == AfterPending(old(View()), key, toolRef, inputHash)
      ensures outside.events == old(outside.events) + [Pended(key, toolRef, inputHash)]
    {
      entries := entries[key := Entry(toolRef, inputHash, Pending, None)];
      counts := counts[(key.runId, key.step) := RecordedCount(key.runId, key.step) + 1];
      outside.Happens(Pended(key, toolRef, inputHash));
    }

    /** Refuses, and changes nothing, when there is no entry to rewrite. */
    method RecordSucceeded(key: EffectKey, output: string) returns (ok: bool)
      modifies this, outside
      ensures ok <==> key in old(entries)
      ensures View() == AfterSucceeded(old(View()), key, output)
      ensures outside.events == old(outside.events) + if ok then [Recorded(key, output)] else []
    {
      ok := key in entries;
      if ok {
        entries := entries[key := entries[key].(status := Succeeded, output := Some(output))];
        outside.Happens(Recorded(key, output));
      }
    }

    function EntryAt(key: EffectKey): (e: Option<Entry>)
      reads this
      ensures e.Some? <==> key in entries
      ensures e.Some? ==> e.value == entries[key]
    {
      if key in entries then Some(entries[key]) else None
    }

    function RecordedCount(runId: string, step: Step): (n: nat)
      reads this
      ensures n == CountAt(View(), runId, step)
    {
      if (runId, step) in counts then counts[(runId, step)] else 0
    }
  }
}
