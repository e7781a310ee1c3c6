/** A checkpoint store as files: what a directory says about a run, and what a crash can leave behind. */
module CheckpointFiles {

  import opened Wrappers
  import opened Taint
  import opened Graph
  import opened Checkpoints
  import opened FileNames
  import opened AtomicFiles

  /** One step file. `completed` and the output are one field here: they are only ever written together. */
  datatype StepRecord = StepRecord(output: Option<Value>, trust: Option<Trust>, seal: Option<string>, skipped: bool)

  datatype Data = RunMeta(topology: string) | StepData(rec: StepRecord) | ApprovalData(request: Request)

  type Files = FilesOf<Data>

  const PREFIX := "step-"
  const RUN_FILE := "run.json"
  const APPROVAL_FILE := "approval-request.json"
  const BLANK := StepRecord(None, None, None, false)

  function StepName(n: nat): string {
    NumberedName(PREFIX, n)
  }

  // ---- reading --------------------------------------------------------------

  function StepAt(files: Files, dir: string, n: nat): StepRecord {
    var p := (dir, StepName(n));
    if p in files && files[p].Whole? && files[p].data.StepData? then files[p].data.rec else BLANK
  }

  function TopologyAt(files: Files, dir: string): Option<string> {
    var p := (dir, RUN_FILE);
    if p in files && files[p].Whole? && files[p].data.RunMeta? then Some(files[p].data.topology) else None
  }

  function RequestAt(files: Files, dir: string): Option<Request> {
    var p := (dir, APPROVAL_FILE);
    if p in files && files[p].Whole? && files[p].data.ApprovalData? then Some(files[p].data.request) else None
  }

  /** The numbers of the step files in a directory. */
  function Indices(files: Files, dir: string): set<nat> {
    set p | p in files && p.0 == dir && NumberIn(PREFIX, p.1).Some? :: NumberIn(PREFIX, p.1).value
  }

  /** What the files say about a run. */
  function RecordIn(files: Files, dir: string): Record {
    Record(
      (map n | n in Indices(files, dir) && StepAt(files, dir, n).output.Some? :: StepAt(files, dir, n).output.value),
      (map n | n in Indices(files, dir) && StepAt(files, dir, n).trust.Some? :: StepAt(files, dir, n).trust.value),
      (map n | n in Indices(files, dir) && StepAt(files, dir, n).seal.Some? :: StepAt(files, dir, n).seal.value),
      (set n | n in Indices(files, dir) && StepAt(files, dir, n).skipped),
      TopologyAt(files, dir),
      RequestAt(files, dir))
  }

  lemma StepIsIndexed(files: Files, dir: string, n: nat)
    ensures StepAt(files, dir, n) != BLANK ==> n in Indices(files, dir)
  {
    NumberOfName(PREFIX, n);
    if StepAt(files, dir, n) != BLANK {
      assert (dir, StepName(n)) in files;
    }
  }

  function Get<T>(m: map<nat, T>, n: nat): Option<T> {
    if n in m then Some(m[n]) else None
  }

  function Put<T>(m: map<nat, T>, n: nat, o: Option<T>): map<nat, T> {
    if o.Some? then m[n := o.value] else m - {n}
  }

  lemma MapsSame<T>(m: map<nat, T>, m': map<nat, T>)
    requires forall n: nat :: Get(m, n) == Get(m', n)
    ensures m == m'
  {
    forall n: nat ensures n in m <==> n in m' {
      assert Get(m, n) == Get(m', n);
    }
    forall n: nat | n in m ensures m[n] == m'[n] {
      assert Get(m, n) == Get(m', n);
    }
  }

  lemma PutBack<T>(m: map<nat, T>, n: nat)
    ensures Put(m, n, Get(m, n)) == m
  {
  }

  /** What a record says about one step. */
  function StepIn(r: Record, n: nat): StepRecord {
    StepRecord(Get(r.outputs, n), Get(r.trusts, n), Get(r.seals, n), n in r.skipped)
  }

  lemma RecordSays(files: Files, dir: string, n: nat)
    ensures StepIn(RecordIn(files, dir), n) == StepAt(files, dir, n)
  {
    StepIsIndexed(files, dir, n);
  }

  /** Two records that say the same about every step are the same, up to topology and request. */
  lemma SaysTheSame(r: Record, r': Record)
    requires forall n: nat :: StepIn(r, n) == StepIn(r', n)
    ensures r' == r.(topology := r'.topology, request := r'.request)
  {
    forall n: nat
      ensures Get(r.outputs, n) == Get(r'.outputs, n) && Get(r.trusts, n) == Get(r'.trusts, n)
      ensures Get(r.seals, n) == Get(r'.seals, n) && (n in r.skipped <==> n in r'.skipped)
    {
      assert StepIn(r, n) == StepIn(r', n);
    }
    MapsSame(r.outputs, r'.outputs);
    MapsSame(r.trusts, r'.trusts);
    MapsSame(r.seals, r'.seals);
    assert r'.skipped == r.skipped;
  }

  // ---- writing --------------------------------------------------------------

  /** The record of a run with one step replaced. */
  function WithStep(r: Record, k: nat, s: StepRecord): Record {
    r.(outputs := Put(r.outputs, k, s.output), trusts := Put(r.trusts, k, s.trust), seals := Put(r.seals, k, s.seal),
       skipped := if s.skipped then r.skipped + {k} else r.skipped - {k})
  }

  lemma WithStepSays(r: Record, k: nat, s: StepRecord, n: nat)
    ensures StepIn(WithStep(r, k, s), n) == if n == k then s else StepIn(r, n)
  {
  }

  /** If the steps are the same but for one, so are the records. */
  lemma OneStepDiffers(files: Files, files': Files, dir: string, k: nat)
    requires forall n: nat :: n != k ==> StepAt(files', dir, n) == StepAt(files, dir, n)
    ensures RecordIn(files', dir) ==
      WithStep(RecordIn(files, dir), k, StepAt(files', dir, k)).(
        topology := TopologyAt(files', dir), request := RequestAt(files', dir))
  {
    var r, r' := WithStep(RecordIn(files, dir), k, StepAt(files', dir, k)), RecordIn(files', dir);
    forall n: nat ensures StepIn(r, n) == StepIn(r', n) {
      RecordSays(files, dir, n);
      RecordSays(files', dir, n);
      WithStepSays(RecordIn(files, dir), k, StepAt(files', dir, k), n);
    }
    SaysTheSame(r, r');
  }

  lemma NoStepDiffers(files: Files, files': Files, dir: string)
    requires forall n: nat :: StepAt(files', dir, n) == StepAt(files, dir, n)
    ensures RecordIn(files', dir) ==
      RecordIn(files, dir).(topology := TopologyAt(files', dir), request := RequestAt(files', dir))
  {
    var r, r' := RecordIn(files, dir), RecordIn(files', dir);
    forall n: nat ensures StepIn(r, n) == StepIn(r', n) {
      RecordSays(files, dir, n);
      RecordSays(files', dir, n);
    }
    SaysTheSame(r, r');
  }

  // ---- atomic writes and crashes ---------------------------------------------

  /** The names the store uses for what it keeps. */
  predicate Known(name: string) {
    name == RUN_FILE || name == APPROVAL_FILE || NumberIn(PREFIX, name).Some?
  }

  lemma TemporaryIsUnknown(temp: string, name: string)
    requires TemporaryFor(temp, name)
    ensures !Known(temp) && forall n: nat :: StepName(n) != temp
  {
    TemporaryIsNotNumbered(PREFIX, temp, name);
    forall n: nat ensures StepName(n) != temp {
      NumberOfName(PREFIX, n);
    }
  }

  /** Whatever happens to a temporary file, nothing that is read changes. */
  lemma TemporaryUnseen(files: Files, files': Files, dir: string, t: Path)
    requires !Known(t.1) && forall n: nat :: StepName(n) != t.1
    requires forall p :: p != t ==> (p in files' <==> p in files) && (p in files ==> files'[p] == files[p])
    ensures RecordIn(files', dir) == RecordIn(files, dir)
  {
    NoStepDiffers(files, files', dir);
  }

  /** A crash before the rename leaves what was there, for every run. */
  lemma CrashLeavesOld(files: Files, path: Path, temp: string, data: Data, at: nat, dir: string)
    requires TemporaryFor(temp, path.1) && at < 3
    ensures RecordIn(Boundaries(files, path, temp, data)[at], dir) == RecordIn(files, dir)
  {
    TemporaryIsUnknown(temp, path.1);
    TemporaryUnseen(files, Boundaries(files, path, temp, data)[at], dir, (path.0, temp));
  }

  /** Every numbered step file has the name that its number gets. */
  ghost predicate Tidy(files: Files) {
    forall p :: p in files && NumberIn(PREFIX, p.1).Some? ==> p.1 == StepName(NumberIn(PREFIX, p.1).value)
  }

  lemma WritesStayTidy(files: Files, path: Path, temp: string, data: Data, at: nat)
    requires Tidy(files) && TemporaryFor(temp, path.1) && at < 4
    requires NumberIn(PREFIX, path.1).Some? ==> path.1 == StepName(NumberIn(PREFIX, path.1).value)
    ensures Tidy(Boundaries(files, path, temp, data)[at])
  {
    TemporaryIsUnknown(temp, path.1);
  }

  lemma FixedNames()
    ensures forall n: nat :: StepName(n) != RUN_FILE && StepName(n) != APPROVAL_FILE
    ensures NumberIn(PREFIX, RUN_FILE).None? && NumberIn(PREFIX, APPROVAL_FILE).None?
    ensures forall m: nat, n: nat :: StepName(m) == StepName(n) ==> m == n
  {
    assert RUN_FILE[0] != 's' && APPROVAL_FILE[0] != 's';
    forall n: nat ensures StepName(n)[0] == 's' && NumberIn(PREFIX, StepName(n)) == Some(n) {
      NumberOfName(PREFIX, n);
    }
  }

  // ---- operations -----------------------------------------------------------

  /** What a store is asked to write. */
  datatype Op =
    | Merge(step: nat, output: Option<Value>, trust: Option<Trust>, seal: Option<string>, skipped: bool)
    | SetTopology(topology: string)
    | SetRequest(request: Request)
    | ClearRequest

  /** A step record with the given fields replaced, and the others kept. */
  function Merged(s: StepRecord, op: Op): StepRecord
    requires op.Merge?
  {
    StepRecord(
      if op.output.Some? then op.output else s.output,
      if op.trust.Some? then op.trust else s.trust,
      if op.seal.Some? then op.seal else s.seal,
      op.skipped || s.skipped)
  }

  /** The operation on the in-memory record. */
  function Effect(op: Op, r: Record): Record {
    match op
    case Merge(step, output, trust, seal, skipped) =>
      r.(outputs := if output.Some? then r.outputs[step := output.value] else r.outputs,
         trusts := if trust.Some? then r.trusts[step := trust.value] else r.trusts,
         seals := if seal.Some? then r.seals[step := seal.value] else r.seals,
         skipped := if skipped then r.skipped + {step} else r.skipped)
    case SetTopology(topology) => r.(topology := Some(topology))
    case SetRequest(request) => r.(request := Some(request))
    case ClearRequest => r.(request := None)
  }

  function PathOf(op: Op, dir: string): Path {
    match op
    case Merge(step, _, _, _, _) => (dir, StepName(step))
    case SetTopology(_) => (dir, RUN_FILE)
    case SetRequest(_) => (dir, APPROVAL_FILE)
    case ClearRequest => (dir, APPROVAL_FILE)
  }

  function DataOf(op: Op, files: Files, dir: string): Data
    requires !op.ClearRequest?
  {
    match op
    case Merge(step, _, _, _, _) => StepData(Merged(StepAt(files, dir, step), op))
    case SetTopology(topology) => RunMeta(topology)
    case SetRequest(request) => ApprovalData(request)
  }

  /** The files after the operation. */
  function Done(op: Op, files: Files, dir: string, temp: string): Files {
    if op.ClearRequest? then files - {(dir, APPROVAL_FILE)}
    else Replaced(files, PathOf(op, dir), temp, DataOf(op, files, dir))
  }

  /** What is read after the operation: the step, topology or request it wrote, and otherwise what was read before. */
  lemma DoneReads(op: Op, files: Files, dir: string, temp: string)
    requires TemporaryFor(temp, PathOf(op, dir).1)
    ensures
      var files' := Done(op, files, dir, temp);
      && (forall n: nat :: StepAt(files', dir, n) ==
            if op.Merge? && n == op.step then Merged(StepAt(files, dir, n), op) else StepAt(files, dir, n))
      && TopologyAt(files', dir) == (if op.SetTopology? then Some(op.topology) else TopologyAt(files, dir))
  {
    hide NumberIn;
    TemporaryIsUnknown(temp, PathOf(op, dir).1);
    FixedNames();
  }

  lemma DoneReadsElsewhere(op: Op, files: Files, dir: string, temp: string, other: string)
    requires other != dir
    ensures
      var files' := Done(op, files, dir, temp);
      (forall n: nat :: StepAt(files', other, n) == StepAt(files, other, n)) && TopologyAt(files', other) == TopologyAt(files, other)
  {
  }

  lemma DoneIsTidy(op: Op, files: Files, dir: string, temp: string)
    requires Tidy(files) && TemporaryFor(temp, PathOf(op, dir).1)
    ensures Tidy(Done(op, files, dir, temp))
  {
    TemporaryIsUnknown(temp, PathOf(op, dir).1);
    FixedNames();
    if op.Merge? {
      NumberOfName(PREFIX, op.step);
    }
  }

  /** The operation on files is the operation on records. */
  lemma DoneRefines(op: Op, files: Files, dir: string, temp: string)
    requires TemporaryFor(temp, PathOf(op, dir).1)
    ensures RecordIn(Done(op, files, dir, temp), dir) == Effect(op, RecordIn(files, dir))
  {
    TemporaryIsUnknown(temp, PathOf(op, dir).1);
    FixedNames();
    if op.Merge? {
      MergeRefines(op, files, dir, temp);
    } else {
      NoStepDiffers(files, Done(op, files, dir, temp), dir);
    }
  }

  /** No other run sees it. */
  lemma DoneIsolates(op: Op, files: Files, dir: string, temp: string, other: string)
    requires TemporaryFor(temp, PathOf(op, dir).1) && other != dir
    ensures RecordIn(Done(op, files, dir, temp), other) == RecordIn(files, other)
  {
    NoStepDiffers(files, Done(op, files, dir, temp), other);
  }

  lemma MergedRecord(op: Op, r: Record)
    requires op.Merge?
    ensures WithStep(r, op.step, Merged(StepIn(r, op.step), op)) == Effect(op, r)
  {
    PutBack(r.outputs, op.step);
    PutBack(r.trusts, op.step);
    PutBack(r.seals, op.step);
  }

  lemma MergeRefines(op: Op, files: Files, dir: string, temp: string)
    requires op.Merge? && TemporaryFor(temp, StepName(op.step))
    ensures RecordIn(Done(op, files, dir, temp), dir) == Effect(op, RecordIn(files, dir))
  {
    TemporaryIsUnknown(temp, StepName(op.step));
    FixedNames();
    var files' := Done(op, files, dir, temp);
    OneStepDiffers(files, files', dir, op.step);
    RecordSays(files, dir, op.step);
    MergedRecord(op, RecordIn(files, dir));
  }

  // ---- histories with crashes -------------------------------------------------

  /** An operation on a run, and how many of its file operations were reached before the process died, or all of them. */
  datatype Attempted = Attempted(op: Op, runId: string, temp: string, reached: nat)

  predicate Finished(a: Attempted) {
    a.reached >= if a.op.ClearRequest? then 1 else 3
  }

  ghost predicate Injective(digest: string -> string) {
    forall a, b :: digest(a) == digest(b) ==> a == b
  }

  function Reached(a: Attempted, files: Files, dir: string): Files {
    if Finished(a) then Done(a.op, files, dir, a.temp)
    else if a.op.ClearRequest? then files
    else Boundaries(files, PathOf(a.op, dir), a.temp, DataOf(a.op, files, dir))[a.reached]
  }

  /** The directory after these operations, some of them cut short; each process starts on what it finds. */
  function FilesAfter(digest: string -> string, history: seq<Attempted>): Files {
    if history == [] then map[]
    else
      var n := |history| - 1;
      Reached(history[n], FilesAfter(digest, history[..n]), digest(history[n].runId))
  }

  /** The in-memory record of a run after the operations that were finished. */
  function RecordAfter(history: seq<Attempted>, runId: string): Record {
    if history == [] then EMPTY
    else
      var n := |history| - 1;
      var before := RecordAfter(history[..n], runId);
      if Finished(history[n]) && history[n].runId == runId then Effect(history[n].op, before) else before
  }

  ghost predicate ProperTemps(digest: string -> string, history: seq<Attempted>) {
    forall i :: 0 <= i < |history| ==>
      TemporaryFor(history[i].temp, PathOf(history[i].op, digest(history[i].runId)).1)
  }

  /** Whatever is cut short and however often the store is opened again, the files say what the in-memory store would
      hold after the finished operations; an operation cut short has happened not at all. */
  lemma {:induction false} FilesRefineRecords(digest: string -> string, history: seq<Attempted>, runId: string)
    requires Injective(digest) && ProperTemps(digest, history)
    ensures RecordIn(FilesAfter(digest, history), digest(runId)) == RecordAfter(history, runId)
    decreases |history|
  {
    if history != [] {
      var n := |history| - 1;
      FilesRefineRecords(digest, history[..n], runId);
      ReachedRefines(digest, history[n], FilesAfter(digest, history[..n]), runId);
    } else {
      NothingThere(digest(runId));
    }
  }

  lemma NothingThere(dir: string)
    ensures RecordIn(map[], dir) == EMPTY
  {
    assert Indices(map[], dir) == {};
  }

  lemma ReachedRefines(digest: string -> string, a: Attempted, files: Files, runId: string)
    requires Injective(digest) && TemporaryFor(a.temp, PathOf(a.op, digest(a.runId)).1)
    ensures
      var before := RecordIn(files, digest(runId));
      RecordIn(Reached(a, files, digest(a.runId)), digest(runId))
      == if Finished(a) && a.runId == runId then Effect(a.op, before) else before
  {
    var dir := digest(a.runId);
    if Finished(a) {
      if a.runId == runId {
        DoneRefines(a.op, files, dir, a.temp);
      } else {
        DoneIsolates(a.op, files, dir, a.temp, digest(runId));
      }
    } else if !a.op.ClearRequest? {
      CrashLeavesOld(files, PathOf(a.op, dir), a.temp, DataOf(a.op, files, dir), a.reached, digest(runId));
    }
  }

  lemma PathIsTidy(op: Op, dir: string)
    ensures
      var name := PathOf(op, dir).1;
      NumberIn(PREFIX, name).Some? ==> name == StepName(NumberIn(PREFIX, name).value)
  {
    FixedNames();
    if op.Merge? { NumberOfName(PREFIX, op.step); }
  }

  /** Nothing that the store does, finished or cut short, leaves a misnamed step file behind. */
  lemma {:induction false} AlwaysTidy(digest: string -> string, history: seq<Attempted>)
    requires ProperTemps(digest, history)
    ensures Tidy(FilesAfter(digest, history))
    decreases |history|
  {
    hide Tidy, NumberIn, TemporaryFor;
    if history != [] {
      var n := |history| - 1;
      AlwaysTidy(digest, history[..n]);
      ReachedIsTidy(history[n], FilesAfter(digest, history[..n]), digest(history[n].runId));
    } else {
      NothingIsTidy();
    }
  }

  lemma NothingIsTidy()
    ensures Tidy(map[])
  {
  }

  lemma ReachedIsTidy(a: Attempted, files: Files, dir: string)
    requires Tidy(files) && TemporaryFor(a.temp, PathOf(a.op, dir).1)
    ensures Tidy(Reached(a, files, dir))
  {
    hide Tidy, NumberIn, TemporaryFor;
    if Finished(a) {
      DoneIsTidy(a.op, files, dir, a.temp);
    } else if !a.op.ClearRequest? {
      PathIsTidy(a.op, dir);
      WritesStayTidy(files, PathOf(a.op, dir), a.temp, DataOf(a.op, files, dir), a.reached);
    }
  }
}
