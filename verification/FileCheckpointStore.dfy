/** The file-backed store: a cache over a directory, with every write atomic. It keeps the same contracts as the
    in-memory store. */
module FileCheckpoints {

  import opened Wrappers
  import opened Taint
  import opened Graph
  import opened Checkpoints
  import opened FileNames
  import opened AtomicFiles
  import opened CheckpointFiles

  /** What was read of a run's directory. */
  datatype Cached = Cached(topology: Option<string>, steps: map<nat, StepRecord>)

  function StepOf(c: Cached, n: nat): StepRecord {
    if n in c.steps then c.steps[n] else BLANK
  }

  ghost predicate Faithful(c: Cached, files: Files, dir: string) {
    c.topology == TopologyAt(files, dir) && forall n: nat :: StepOf(c, n) == StepAt(files, dir, n)
  }

  /** A step file, read. */
  function StepFile(files: Files, dir: string, name: string): Option<StepRecord>
    requires (dir, name) in files
  {
    var content := files[(dir, name)];
    if content.Whole? && content.data.StepData? then Some(content.data.rec) else None
  }

  /** What a run that is taken up again asks its store. */
  datatype Answers = Answers(
    completed: bool, output: Option<Value>, skipped: bool, trust: Trust, seal: Option<string>,
    sameTopology: bool, request: Option<Request>)

  /** What the record of the run says, to a pipeline whose step has this output model. */
  function AnswersOf(r: Record, step: nat, model: Model, topology: string): Answers {
    Answers(
      step in r.outputs, if step in r.outputs then model(r.outputs[step]) else None, step in r.skipped,
      TrustOf(r, step), SealOf(r, step), Matches(r, topology), r.request)
  }

  /** A step is completed exactly when its output is stored, and that is what its model is given to read; a label that is
      not recorded reads UNTRUSTED, and a topology that is not recorded is any. */
  lemma AnswersExactly(r: Record, step: nat, model: Model, topology: string)
    ensures
      var a := AnswersOf(r, step, model, topology);
      && (a.completed <==> step in r.outputs)
      && a.output == (if step in r.outputs then model(r.outputs[step]) else None)
      && (a.skipped <==> step in r.skipped)
      && (a.trust.Trusted? <==> step in r.trusts && r.trusts[step].Trusted?)
      && (a.seal.Some? <==> step in r.seals) && (step in r.seals ==> a.seal == Some(r.seals[step]))
      && (a.sameTopology <==> r.topology == None || r.topology == Some(topology))
      && a.request == r.request
  {
  }

  /** Validation of a stored output against the live model of its step; nothing when it raises. */
  type Model = Value -> Option<Value>

  class FileCheckpointStore {
    const disk: Disk<Data>
    const digest: string -> string
    var cache: map<string, Cached>
    var models: map<string, map<nat, Model>>

    ghost predicate Valid()
      reads this, disk
    {
      && Injective(digest) && Tidy(disk.files)
      && forall runId :: runId in cache ==> Faithful(cache[runId], disk.files, digest(runId))
    }

    ghost function RecordOf(runId: string): Record
      reads disk
    {
      RecordIn(disk.files, digest(runId))
    }

    /** A new store over a directory starts with nothing in its cache. */
    constructor (disk: Disk<Data>, digest: string -> string)
      requires Injective(digest) && Tidy(disk.files)
      ensures Valid() && this.disk == disk && this.digest == digest && cache == map[]
    {
      this.disk, this.digest := disk, digest;
      cache, models := map[], map[];
    }

    method Load(runId: string) returns (c: Cached)
      requires Tidy(disk.files)
      ensures Faithful(c, disk.files, digest(runId))
    {
      var files, dir := disk.files, digest(runId);
      var topology := TopologyAt(files, dir);
      var steps: map<nat, StepRecord> := map[];
      var names := set p | p in files && p.0 == dir :: p.1;
      ghost var all := names;
      while names != {}
        invariant names <= all
        invariant forall n: nat :: n in steps ==> steps[n] == StepAt(files, dir, n)
        invariant forall n: nat :: n !in steps && StepAt(files, dir, n) != BLANK ==> StepName(n) in names
      {
        var name :| name in names;
        var index := NumberIn(PREFIX, name);
        if index.Some? {
          var rec := StepFile(files, dir, name);
          if rec.Some? {
            steps := steps[index.value := rec.value];
          }
        }
        NotThere(files, dir, name);
        names := names - {name};
      }
      c := Cached(topology, steps);
    }

    /** A name that is no readable step file says nothing about any step. */
    lemma NotThere(files: Files, dir: string, name: string)
      requires Tidy(files) && (dir, name) in files
      ensures forall n: nat :: StepName(n) == name ==> NumberIn(PREFIX, name) == Some(n)
      ensures NumberIn(PREFIX, name).Some? ==> name == StepName(NumberIn(PREFIX, name).value)
    {
      forall n: nat | StepName(n) == name ensures NumberIn(PREFIX, name) == Some(n) {
        NumberOfName(PREFIX, n);
      }
    }

    method RunCache(runId: string) returns (c: Cached)
      requires Valid()
      modifies this`cache
      ensures Valid() && runId in cache && c == cache[runId]
    {
      if runId in cache {
        return cache[runId];
      }
      c := Load(runId);
      cache := cache[runId := c];
    }

    // ---- reading ------------------------------------------------------------

    method IsCompleted(runId: string, step: nat) returns (b: bool)
      requires Valid()
      modifies this`cache
      ensures Valid() && (b <==> step in RecordOf(runId).outputs)
    {
      var c := RunCache(runId);
      RecordSays(disk.files, digest(runId), step);
      b := StepOf(c, step).output.Some?;
    }

    /** The live model of a step, if one has been bound. */
    function ModelOf(runId: string, step: nat): (m: Option<Model>)
      reads this
      ensures m.Some? <==> runId in models && step in models[runId]
      ensures m.Some? ==> m.value == models[runId][step]
    {
      if runId in models && step in models[runId] then Some(models[runId][step]) else None
    }

    /** The stored output as its live model validates it. Raises when nothing is stored, when no model has been bound,
        or when the model refuses what is stored. */
    method OutputOf(runId: string, step: nat) returns (v: Option<Value>)
      requires Valid()
      modifies this`cache
      ensures Valid()
      ensures step !in RecordOf(runId).outputs || ModelOf(runId, step).None? ==> v.None?
      ensures step in RecordOf(runId).outputs && ModelOf(runId, step).Some? ==>
                v == ModelOf(runId, step).value(RecordOf(runId).outputs[step])
    {
      var c := RunCache(runId);
      RecordSays(disk.files, digest(runId), step);
      var stored, model := StepOf(c, step).output, ModelOf(runId, step);
      v := if stored.Some? && model.Some? then model.value(stored.value) else None;
    }

    method IsSkipped(runId: string, step: nat) returns (b: bool)
      requires Valid()
      modifies this`cache
      ensures Valid() && (b <==> step in RecordOf(runId).skipped)
    {
      var c := RunCache(runId);
      RecordSays(disk.files, digest(runId), step);
      b := StepOf(c, step).skipped;
    }

    method TrustAt(runId: string, step: nat) returns (t: Trust)
      requires Valid()
      modifies this`cache
      ensures Valid() && t == TrustOf(RecordOf(runId), step)
    {
      var c := RunCache(runId);
      RecordSays(disk.files, digest(runId), step);
      var trust := StepOf(c, step).trust;
      t := if trust.Some? then trust.value else Untrusted;
    }

    method SealAt(runId: string, step: nat) returns (s: Option<string>)
      requires Valid()
      modifies this`cache
      ensures Valid() && s == SealOf(RecordOf(runId), step)
    {
      var c := RunCache(runId);
      RecordSays(disk.files, digest(runId), step);
      s := StepOf(c, step).seal;
    }

    method FingerprintMatches(runId: string, topology: string) returns (b: bool)
      requires Valid()
      modifies this`cache
      ensures Valid() && (b <==> Matches(RecordOf(runId), topology))
    {
      var c := RunCache(runId);
      b := c.topology.None? || c.topology.value == topology;
    }

    /** Always read from the directory. */
    function ApprovalRequestOf(runId: string): (r: Option<Request>)
      reads this, disk
      ensures r == RecordOf(runId).request
    {
      RequestAt(disk.files, digest(runId))
    }

    method BindModels(runId: string, bound: map<nat, Model>)
      requires Valid()
      modifies this`models
      ensures Valid() && models == old(models)[runId := bound]
    {
      models := models[runId := bound];
    }

    /** All that a run which is taken up again asks about a step. */
    method Answer(runId: string, step: nat, model: Model, topology: string) returns (answers: Answers)
      requires Valid()
      modifies this`cache, this`models
      ensures Valid() && answers == AnswersOf(RecordOf(runId), step, model, topology)
    {
      hide RecordIn, Tidy, Faithful, Injective;
      BindModels(runId, map[step := model]);
      var completed := IsCompleted(runId, step);
      var output := OutputOf(runId, step);
      var skipped := IsSkipped(runId, step);
      var trust := TrustAt(runId, step);
      var seal := SealAt(runId, step);
      var sameTopology := FingerprintMatches(runId, topology);
      answers := Answers(completed, output, skipped, trust, seal, sameTopology, ApprovalRequestOf(runId));
    }

    // ---- writing ------------------------------------------------------------

    /** On its way from `files` to the present directory the write went through the states that a crash in it can
        leave: it was reached zero, one or two file operations far, or finished. */
    ghost predicate Passes(op: Op, runId: string, temp: string, files: Files, seen: seq<Files>)
      reads disk
    {
      && |seen| == 4 && disk.files == seen[3] == Done(op, files, digest(runId), temp)
      && forall n: nat :: n < 4 ==> seen[n] == Reached(Attempted(op, runId, temp, n), files, digest(runId))
    }

    /** Reads the step's record, merges the given fields into it, and writes it in one piece. */
    method MergeStepRecord(runId: string, op: Op, temp: string) returns (ghost seen: seq<Files>)
      requires Valid() && op.Merge? && TemporaryFor(temp, StepName(op.step))
      modifies this`cache, disk
      ensures Valid() && Passes(op, runId, temp, old(disk.files), seen)
      ensures RecordOf(runId) == Effect(op, old(RecordOf(runId)))
      ensures forall other :: other != runId ==> RecordOf(other) == old(RecordOf(other))
    {
      var c := RunCache(runId);
      ghost var files := disk.files;
      var rec := Merged(StepOf(c, op.step), op);
      cache := cache[runId := c.(steps := c.steps[op.step := rec])];
      seen := disk.AtomicWrite((digest(runId), StepName(op.step)), temp, StepData(rec));
      Written(runId, op, temp, files);
      Refined(runId, op, temp, files);
    }

    /** After a write the cache still agrees with the directory. */
    lemma Written(runId: string, op: Op, temp: string, files: Files)
      requires Injective(digest) && Tidy(files) && TemporaryFor(temp, PathOf(op, digest(runId)).1)
      requires disk.files == Done(op, files, digest(runId), temp) && runId in cache
      requires
        var c := cache[runId];
        && c.topology == (if op.SetTopology? then Some(op.topology) else TopologyAt(files, digest(runId)))
        && forall n: nat :: StepOf(c, n) ==
             if op.Merge? && n == op.step then Merged(StepAt(files, digest(runId), n), op) else StepAt(files, digest(runId), n)
      requires forall other :: other in cache && other != runId ==> Faithful(cache[other], files, digest(other))
      ensures Valid()
    {
      DoneReads(op, files, digest(runId), temp);
      DoneIsTidy(op, files, digest(runId), temp);
      forall other | other in cache && other != runId ensures Faithful(cache[other], disk.files, digest(other)) {
        DoneReadsElsewhere(op, files, digest(runId), temp, digest(other));
      }
    }

    lemma Refined(runId: string, op: Op, temp: string, files: Files)
      requires Injective(digest) && TemporaryFor(temp, PathOf(op, digest(runId)).1)
      requires disk.files == Done(op, files, digest(runId), temp)
      ensures RecordOf(runId) == Effect(op, RecordIn(files, digest(runId)))
      ensures forall other :: other != runId ==> RecordOf(other) == RecordIn(files, digest(other))
    {
      DoneRefines(op, files, digest(runId), temp);
      forall other | other != runId ensures RecordOf(other) == RecordIn(files, digest(other)) {
        DoneIsolates(op, files, digest(runId), temp, digest(other));
      }
    }

    method CommitStep(runId: string, step: nat, output: Value, trust: Trust, seal: Option<string>, temp: string)
      returns (ghost seen: seq<Files>)
      requires Valid() && TemporaryFor(temp, StepName(step))
      modifies this`cache, disk
      ensures Valid() && Passes(Merge(step, Some(output), Some(trust), seal, false), runId, temp, old(disk.files), seen)
      ensures RecordOf(runId) == Committed(old(RecordOf(runId)), step, output, trust, seal)
      ensures forall other :: other != runId ==> RecordOf(other) == old(RecordOf(other))
    {
      seen := MergeStepRecord(runId, Merge(step, Some(output), Some(trust), seal, false), temp);
    }

    method StepSkipped(runId: string, step: nat, temp: string) returns (ghost seen: seq<Files>)
      requires Valid() && TemporaryFor(temp, StepName(step))
      modifies this`cache, disk
      ensures Valid() && Passes(Merge(step, None, None, None, true), runId, temp, old(disk.files), seen)
      ensures RecordOf(runId) == old(RecordOf(runId)).(skipped := old(RecordOf(runId)).skipped + {step})
      ensures forall other :: other != runId ==> RecordOf(other) == old(RecordOf(other))
    {
      seen := MergeStepRecord(runId, Merge(step, None, None, None, true), temp);
    }

    method RecordFingerprint(runId: string, topology: string, temp: string) returns (ghost seen: seq<Files>)
      requires Valid() && TemporaryFor(temp, RUN_FILE)
      modifies this`cache, disk
      ensures Valid() && Passes(SetTopology(topology), runId, temp, old(disk.files), seen)
      ensures RecordOf(runId) == old(RecordOf(runId)).(topology := Some(topology))
      ensures forall other :: other != runId ==> RecordOf(other) == old(RecordOf(other))
    {
      var c := RunCache(runId);
      ghost var files := disk.files;
      cache := cache[runId := c.(topology := Some(topology))];
      seen := disk.AtomicWrite((digest(runId), RUN_FILE), temp, RunMeta(topology));
      Written(runId, SetTopology(topology), temp, files);
      Refined(runId, SetTopology(topology), temp, files);
    }

    method RecordApprovalRequest(runId: string, request: Request, temp: string) returns (ghost seen: seq<Files>)
      requires Valid() && TemporaryFor(temp, APPROVAL_FILE)
      modifies disk
      ensures Valid() && Passes(SetRequest(request), runId, temp, old(disk.files), seen)
      ensures RecordOf(runId) == old(RecordOf(runId)).(request := Some(request))
      ensures forall other :: other != runId ==> RecordOf(other) == old(RecordOf(other))
    {
      ghost var files := disk.files;
      seen := disk.AtomicWrite((digest(runId), APPROVAL_FILE), temp, ApprovalData(request));
      Untouched(runId, SetRequest(request), temp, files);
      Refined(runId, SetRequest(request), temp, files);
    }

    method ClearApprovalRequest(runId: string)
      requires Valid()
      modifies disk
      ensures Valid() && forall temp :: disk.files == Done(ClearRequest, old(disk.files), digest(runId), temp)
      ensures RecordOf(runId) == old(RecordOf(runId)).(request := None)
      ensures forall other :: other != runId ==> RecordOf(other) == old(RecordOf(other))
    {
      ghost var files := disk.files;
      disk.Remove((digest(runId), APPROVAL_FILE));
      ghost var temp := APPROVAL_FILE + "0";
      Untouched(runId, ClearRequest, temp, files);
      Refined(runId, ClearRequest, temp, files);
    }

    /** Requests are not cached. */
    lemma Untouched(runId: string, op: Op, temp: string, files: Files)
      requires op.SetRequest? || op.ClearRequest?
      requires Injective(digest) && Tidy(files) && TemporaryFor(temp, PathOf(op, digest(runId)).1)
      requires disk.files == Done(op, files, digest(runId), temp)
      requires forall other :: other in cache ==> Faithful(cache[other], files, digest(other))
      ensures Valid()
    {
      DoneReads(op, files, digest(runId), temp);
      DoneIsTidy(op, files, digest(runId), temp);
      forall other | other in cache && other != runId ensures Faithful(cache[other], disk.files, digest(other)) {
        DoneReadsElsewhere(op, files, digest(runId), temp, digest(other));
      }
    }
  }

  /** A store opened over whatever operations and crashes have left answers every question from the operations that
      were finished: it cannot be told from an in-memory store that went through those. */
  method Reopen(disk: Disk<Data>, digest: string -> string, ghost history: seq<Attempted>,
                runId: string, step: nat, model: Model, topology: string)
    returns (store: FileCheckpointStore, answers: Answers)
    requires Injective(digest) && ProperTemps(digest, history) && disk.files == FilesAfter(digest, history)
    ensures fresh(store) && store.Valid() && store.disk == disk && store.digest == digest
    ensures forall other :: store.RecordOf(other) == RecordAfter(history, other)
    ensures answers == AnswersOf(RecordAfter(history, runId), step, model, topology)
  {
    AlwaysTidy(digest, history);
    forall other ensures RecordIn(disk.files, digest(other)) == RecordAfter(history, other) {
      FilesRefineRecords(digest, history, other);
    }
    store := new FileCheckpointStore(disk, digest);
    answers := store.Answer(runId, step, model, topology);
  }
}
