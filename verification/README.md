# Drawbore: a verified model of its guarantees

Drawbore runs pipelines of agents under declared limits. This project models the parts of it that its guarantees
rest on, and proves the guarantees about the model, for every input, every run and every crash point.

- **Schema relaxation** (`JsonSchema`, `SchemaOracle`, `SchemaComparator`, `Doubles`, `TolerantDivision`, `OracleSoundness`,
  `OraclePrecision`, `OracleHoles`, `ReferenceHoles`, `DivisionHoles`). JSON Schema 2020-12 acceptance, indexed by how many
  references may still be followed; the comparator as it is, its division rounded as IEEE 754 says; the theorem that an edit
  without flags accepts nothing new; exactly which edits are without flags; and edits that show why the theorem needs its
  conditions.
- **Tool calls** (`Taint`, `Tokens`, `EffectLedger`, `ToolCalls`, `ToolProxy`, `CallOutcomes`, `Conservation`, `ExactlyOnce`,
  `StepTaint`). The proxy with its gates, its breakers and its ledger as classes over mutable maps, each method equal to a
  definition on values; what each call comes to; then conservation over any sequence of calls, exactly-once effects over any
  number of attempts that die anywhere, and the scope of a step, which is the label it commits.
- **Confinement** (`Authority`, `Receipt`, `Attestation`). The footprint, the receipt and its verifier; and the composition:
  what the proxy enforces is what the receipt attests, exactly when no declared tool is two-faced.
- **Pipelines** (`Graph`, `Registration`, `Checkpoints`, `Scheduler`, `Pipelines`, `Outcomes`, `SchedulerShape`, `Resume`,
  `Lineage`, `TrustLabels`, `Coverage`, `Approvals`). Registration, the scheduler loop with checkpoints, skips, joins, taint and
  approvals, and theorems over whole histories of attempts on one store.
- **Model replies** (`JsonText`, `Scanner`, `Fallback`, `ToolLoop`, `LoopOutcomes`). The brace matcher against the grammar of
  RFC 8259 (sections 2 to 7), the single re-ask, the walk along a chain of providers, and the tool loop with its markers.
- **Files** (`FileNames`, `AtomicFiles`, `CheckpointFiles`, `FileCheckpoints`, `Corpus`, `FileCorpora`). The file-backed stores
  against the in-memory ones, with crashes at every write boundary.
- **Smaller pieces** (`Aliases`, `Rows`, `Subtyping`, `SubtypingExact`), over the shared `Wrappers`, `Sets` and `Strings`.

`dafny verify dfyconfig.toml` checks everything.

## How to read it

Where the source changes state, the model is a class or a loop, and its contract equates the new state with a function on
values; the theorems are about those functions. Besides what such a function keeps over whole runs, there are lemmas that say
what it comes to case by case, in terms of its arguments alone (`Outcomes`, `CallOutcomes`, `LoopOutcomes`,
`OraclePrecision`, and the lemmas named `...Exactly`). `Scheduler` defines one attempt at a run, `Pipelines.Pipeline.Run` is
the loop. What the surroundings do (handlers, clocks, agents, providers, the source of randomness) is a parameter: agents in
`Scheduler.Env` are arbitrary functions of position, payload and seeded scope, and they may differ from attempt to attempt
except where a theorem is about repeating one.

Eight findings came out of the proofs; each is a lemma with a concrete case.

- The oracle takes every added keyword for a narrowing. `properties`, `patternProperties`, `prefixItems` and `minContains`
  can widen when they are added (`OracleHoles.AddedProperties` and its neighbours), and so can an `$id`; so can removing a
  property that a pattern still lets in, adding a definition, changing an annotation that a reference leads into, and
  narrowing a definition that is referred to under `not`, `if`, `oneOf`, or `contains` beside `maxContains`
  (`ReferenceHoles`). `OracleSoundness.InFragment` says for which edits the promise holds; it looks at the two schemas only.
- `_divides` divides doubles. For whole numbers it is right up to 999,999,972 and not beyond (`TolerantDivision.BoundIsExact`):
  the edit of `multipleOf` from 1,000,000,000 to 999,999,999 is not flagged and lets 999,999,999 through
  (`DivisionHoles.RoundedMultiple`). Python's `==` hides a change from `1` to `true` (`OracleHoles.ConstBecomesBoolean`).
- A tool that is both exfil-capable and an untrusted source is admitted by the gate and then breaches the receipt
  (`Attestation.OneCallBreaches`): the gate reads the scope before the tool taints it, the log reads it after.
- A run can end with an exception in four ways, and `SchedulerShape.AttemptEscapesExactly` says there is no fifth. A branch
  condition compares a value that its operator does not take, such as an optional field that is `None`
  (`SchedulerShape.ComparisonEscapes`). A join's own output model refuses what it selects or builds: the
  `SchemaValidationError` is no `JoinError`, and leaves `run` (`SchedulerShape.RefusingJoinEscapes`). An `all_present` join has
  no bindings, or binds a skipped node that is not among its sources (`SchedulerShape.UnlistedBindingEscapes`). Or a stored
  output is not read back, which seals and the topology fingerprint do not prevent for a join whose model has changed
  (`SchedulerShape.UnreadableJoinEscapes`).
- Nothing asks whether a join that builds its output binds every required field of it. One that does not is registered and
  then always refused (`Registration.UnboundFieldRefused`).
- If a join binds an untrusted node that its sources do not count in, its label says TRUSTED
  (`TrustLabels.UnlistedBindingLaunders`). `Lineage.JoinsCover` is the condition on the nodes that rules this out in every
  plan, and without branches nothing less does (`Coverage.CoverExactly`).
- The file corpus reads its cases back in append order up to 99,999 of them, and not beyond
  (`FileCorpora.SortedIsAppendOrder`); with 100,000 a corpus opened anew refuses the case that continues it
  (`FileCorpora.ReopenedRefusesNext`).
- Registration looks at annotations, and strict validation at more: field constraints (`Subtyping.ConstraintRefused`), exact
  classes (`Subtyping.BooleanRefused`), the class of an instance that is bound as a field
  (`Subtyping.StructuralMatchRefused`), and the further fields of a subclass instance (`Subtyping.SubclassInstanceRefused`).
  `Subtyping.BoundPayloadValidates` says exactly when a payload built from checked bindings passes.

Where documentation and code differ, the code is modelled. The oracle is documented never to pass a genuine relaxation, and
the file corpus that the order of its file names always equals append order (`src/drawbore/ratchet/file_corpus.py`, lines
101-107); the first and seventh findings say when that is so.

## Model

| member | source | states |
|---|---|---|
| `SchemaComparator.Comparator.Compare` | src/drawbore/config/schema_oracle.py:152-188 | the key loop appends to the shared list exactly the flags of the two schemas |
| `SchemaComparator.Comparator.CompareChanged` | src/drawbore/config/schema_oracle.py:190-279 | every branch for a changed keyword reports exactly what the specification says for it |
| `SchemaComparator.Comparator.CompareProperties` | src/drawbore/config/schema_oracle.py:281-324 | the loop over old and new property names reports exactly the flags of the block |
| `SchemaComparator.Comparator.CompareBlock` | src/drawbore/config/schema_oracle.py:326-346 | definitions: removed, added and changed entries are compared entry by entry |
| `SchemaComparator.Comparator.CompareItems` | src/drawbore/config/schema_oracle.py:348-359 | `items` as one schema or as a list of positions |
| `SchemaComparator.Comparator.CompareAdditional` | src/drawbore/config/schema_oracle.py:361-379 | `additionalProperties` by rank, and recursively when both sides are schemas |
| `SchemaComparator.SchemaRelaxationDiff` | src/drawbore/config/schema_oracle.py:382-399 | the whole manifest: an agent that both versions name is compared on its input schema, and nothing else is reported |
| `SchemaComparator.CheckNoSchemaRelaxation` | src/drawbore/config/schema_oracle.py:402-409 | the gate passes exactly the manifests in which the input schema of every agent named in both is kept or tightened, and then none accepts more than before |
| `OracleSoundness.NoFlagNoRelaxation` | src/drawbore/config/schema_oracle.py:141-188 | no flags implies inclusion: at every depth of `$ref` unfolding, whatever the new schema accepts the old one accepted |
| `OracleSoundness.AdmitsShrinks` | src/drawbore/config/schema_oracle.py:65-72 | the same for acceptance as such, recursive definitions included |
| `OracleSoundness.HistoryShrinks` | src/drawbore/config/schema_oracle.py:402-409 | any chain of edits that the gate lets through only shrinks the accepted set |
| `OracleSoundness.PairAccepts` | src/drawbore/config/schema_oracle.py:152-188 | the induction over references and subschemas behind it: an unflagged pair of subschemas keeps inclusion |
| `OracleSoundness.HoldsInherits` | src/drawbore/config/schema_oracle.py:190-279 | keyword by keyword: a keyword of the old schema that was kept, narrowed or compared still holds |
| `OracleSoundness.ItemsInherit` | src/drawbore/config/schema_oracle.py:348-359 | `items` and `prefixItems` together, position by position |
| `OracleSoundness.ObjectInherits` | src/drawbore/config/schema_oracle.py:281-324 | `properties`, `patternProperties` and `additionalProperties` together, under what falls through from one to the other |
| `OracleSoundness.RefFreeSame` | src/drawbore/config/schema_oracle.py:326-346 | a subschema without references means the same in both documents, which is why identical subtrees may be skipped |
| `OraclePrecision.TightenedExactly` | src/drawbore/config/schema_oracle.py:152-188 | nothing is flagged exactly between a schema and a tightening of it: every constraint kept or tightened, others added at will |
| `OraclePrecision.OneKeywordExactly` | src/drawbore/config/schema_oracle.py:190-279 | of one changed keyword: flagged exactly when it constrains, differs as Python compares, and is not tightened; added keywords never are |
| `OraclePrecision.FlagsPoint` | src/drawbore/config/schema_oracle.py:141-379 | every flag stands at the place of a change, shows the two values that are there, and names the keyword it is at |
| `OraclePrecision.EveryKeyReported` | src/drawbore/config/schema_oracle.py:152-188 | every constraint that is neither kept nor tightened is reported, at or below its keyword |
| `OraclePrecision.InsideReported` | src/drawbore/config/schema_oracle.py:281-379 | whatever is reported between two subschemas is reported between the schemas they are in, at every step the comparator takes inwards |
| `Doubles.RelativeError` | src/drawbore/config/schema_oracle.py:105-110 | the quotient of `/` is off by at most one part in 2^53 |
| `Doubles.FromHalfToOne` | src/drawbore/config/schema_oracle.py:105-110 | between 1/2 and 1 it is the nearest multiple of 2^-53, ties to even |
| `TolerantDivision.ToleranceIsRounded` | src/drawbore/config/schema_oracle.py:105-110 | the tolerance is the double nearest to 10^-9 |
| `TolerantDivision.DividesExactly` | src/drawbore/config/schema_oracle.py:105-110 | for whole numbers up to 999,999,972 the rounded and tolerant division test is divisibility |
| `TolerantDivision.BoundIsExact` | src/drawbore/config/schema_oracle.py:105-110 | and exactly up to there: the test is right for all pairs up to a bound exactly when the bound is at most that number |
| `DivisionHoles.TolerantMultiple` | src/drawbore/config/schema_oracle.py:105-110 | an unflagged change of `multipleOf`, from 10^10 to 3, that lets 3 through |
| `DivisionHoles.RoundedMultiple` | src/drawbore/config/schema_oracle.py:105-110 | the same from 10^9 to 999,999,999, where the rounding of the quotient decides |
| `DivisionHoles.LargeMultiple` | src/drawbore/config/schema_oracle.py:105-110 | the same from 10^9 to 10^17 + 1, whose quotient rounds to 10^8 |
| `OracleHoles.AddedProperties` | src/drawbore/config/schema_oracle.py:177-180 | `properties` added to a closed object: not flagged, and new objects get in |
| `OracleHoles.AddedPatternProperties` | src/drawbore/config/schema_oracle.py:177-180 | the same for `patternProperties` |
| `OracleHoles.AddedPrefixItems` | src/drawbore/config/schema_oracle.py:177-180 | the same for `prefixItems` beside a closed `items` |
| `OracleHoles.AddedMinContains` | src/drawbore/config/schema_oracle.py:177-180 | the same for `minContains: 0` |
| `OracleHoles.RemovedPropertyStillMatched` | src/drawbore/config/schema_oracle.py:281-324 | a property removed from a closed object that a pattern still lets in |
| `ReferenceHoles.NegatedReference` | src/drawbore/config/schema_oracle.py:171-172 | a reference under `not` to a narrowed definition: the identical subtree is skipped, and the set grows at every depth |
| `ReferenceHoles.ConditionalReference` | src/drawbore/config/schema_oracle.py:171-172 | the same under `if` |
| `ReferenceHoles.AlternativeReference` | src/drawbore/config/schema_oracle.py:171-172 | the same under `oneOf` |
| `ReferenceHoles.CountedReference` | src/drawbore/config/schema_oracle.py:171-172 | the same under `contains` beside `maxContains` |
| `ReferenceHoles.AddedDefinition` | src/drawbore/config/schema_oracle.py:326-346 | a definition added under a reference that led nowhere |
| `ReferenceHoles.AnnotationReference` | src/drawbore/config/schema_oracle.py:173-174 | a reference into an annotation, whose changes are never flagged |
| `ReferenceHoles.AddedBase` | src/drawbore/config/schema_oracle.py:177-180 | an `$id` added around a definition of its own, so that the unchanged reference beside it leads elsewhere |
| `OracleHoles.EvaluatedByAddition` | src/drawbore/config/schema_oracle.py:177-180 | `properties` added under `unevaluatedProperties: false` |
| `OracleHoles.ConstBecomesBoolean` | src/drawbore/config/schema_oracle.py:171-172 | Python equality takes 1 for `true`, so the edit from one to the other is not seen |
| `Taint.JoinAll` | src/drawbore/tools/taint.py:18-26 | the join of any number of labels is UNTRUSTED exactly when one of them is |
| `Taint.TaintLedger.Seed` | src/drawbore/tools/taint.py:58-68 | a first seed sets the scope, a later one only raises it |
| `Taint.TaintLedger.Observe` | src/drawbore/tools/taint.py:70-77 | joins the source's trust into the scope |
| `Tokens.TokenIssuer.Issue` | src/drawbore/tools/tokens/issuer.py:61-69 | records a fresh unused token for tool, run and operation |
| `Tokens.TokenIssuer.Consume` | src/drawbore/tools/tokens/issuer.py:71-83 | refuses unknown, used, mismatched or expired tokens, in this order, and otherwise marks the token used |
| `Tokens.RefusalExactly` | src/drawbore/tools/tokens/issuer.py:71-83 | a token is accepted exactly when it is known, unspent, of this tool, run and operation, and in time; and which error each other case gives |
| `EffectLedger.InMemoryEffectLedger.RecordPending` | src/drawbore/state/effect_ledger.py:164-167 | writes the pending entry and counts it |
| `EffectLedger.InMemoryEffectLedger.RecordSucceeded` | src/drawbore/state/effect_ledger.py:169-180 | rewrites the entry at its key, and refuses when there is none |
| `EffectLedger.InMemoryEffectLedger.EntryAt` | src/drawbore/state/effect_ledger.py:182-185 | the entry at a key, and nothing exactly when there is none |
| `ToolProxy.ToolProxy.RunGates` | src/drawbore/tools/proxy/proxy.py:104-173 | the gates in order: what each of them leaves behind and which denial it raises |
| `ToolProxy.ToolProxy.CountCall` | src/drawbore/tools/proxy/proxy.py:145-173 | the per-step breaker counts the call that breaches it, the run-level caps are checked before they count |
| `ToolProxy.ToolProxy.ExecuteWithLedger` | src/drawbore/tools/proxy/proxy.py:175-277 | pending entry, handler, success entry; replay, divergence and unresolved entries |
| `ToolProxy.ToolProxy.Invoke` | src/drawbore/tools/proxy/proxy.py:279-365 | one call from registry lookup to log entry, equal to its specification on values |
| `CallOutcomes.DenialExactly` | src/drawbore/tools/proxy/proxy.py:122-173 | which gate denies a call, over scope, token, operations and counters, as an if-and-only-if for each denial and for admission |
| `CallOutcomes.GatesLeave` | src/drawbore/tools/proxy/proxy.py:122-173 | what the gates leave behind in scopes, tokens, counts and totals, for each of these cases |
| `CallOutcomes.PlainCallExactly` | src/drawbore/tools/proxy/proxy.py:205-210 | without a ledger or effects the handler decides and nothing is recorded |
| `CallOutcomes.RecordedCallExactly` | src/drawbore/tools/proxy/proxy.py:212-277 | a call whose place is taken runs no handler: unresolved exactly if pending, the recorded output exactly if it is the same call, divergent otherwise |
| `CallOutcomes.NewCallExactly` | src/drawbore/tools/proxy/proxy.py:213-256 | a call whose place is free: the handler runs exactly if the pending entry was written without an error, and what each failure gives |
| `CallOutcomes.NewCallRecords` | src/drawbore/tools/proxy/proxy.py:213-256 | and what the ledger then holds of it |
| `CallOutcomes.InvokeLogs` | src/drawbore/tools/proxy/proxy.py:279-400 | every call leaves one entry, which tells its tool, run, step, operation, input, scope, output and disposition, failures by name |
| `Conservation.InvokeCharges` | src/drawbore/tools/proxy/proxy.py:122-173 | an admitted call uses up one unused token and one place in every counter; a refused call costs at most its token and its place in the per-step count |
| `Conservation.TaintDenialIsFree` | src/drawbore/tools/proxy/proxy.py:126-137 | the sink gate denies exactly exfil-capable tools in untrusted scope, and then only the log changes |
| `Conservation.AdmittedWasIssued` | src/drawbore/tools/proxy/proxy.py:138-140 | over any sequence of acts: an admitted call presents the newest token of its secret, issued for its tool, run and operation, and still in time |
| `Conservation.IssuedIsHonoured` | src/drawbore/tools/proxy/proxy.py:138-140 | and a token that covers the call and was not presented since it was issued is never what the call is refused for |
| `Conservation.RunWithinCaps` | src/drawbore/tools/proxy/proxy.py:122-173 | over any sequence of acts: run total = admitted calls, tool set = admitted tools, every cap kept, every admission paid for with a token of its own |
| `ExactlyOnce.FiredAtMostOnce` | src/drawbore/state/effect_ledger.py:164-200 | in a lawful history of durable writes and handler runs no key fires twice |
| `ExactlyOnce.SucceededWasFired` | src/drawbore/state/effect_ledger.py:169-180 | a SUCCEEDED entry holds the output of its own handler |
| `ExactlyOnce.FiredHasEntry` | src/drawbore/tools/proxy/proxy.py:205-277 | a handler that ran left an entry, so that no later attempt takes its effect for a fresh one |
| `ExactlyOnce.CountCounts` | src/drawbore/state/effect_ledger.py:187-188 | the recorded count is the number of entries of the step |
| `ExactlyOnce.InvokeLawful` | src/drawbore/tools/proxy/proxy.py:205-277 | one call extends a lawful history lawfully, whatever the handler and the two ledger writes do; a write may fail, land, or land and still raise |
| `ExactlyOnce.RunSound` | src/drawbore/tools/proxy/proxy.py:175-277 | every run of attempts, calls and crashes between any two events keeps ledger, journal and cursor in step |
| `ExactlyOnce.NoDoubleFire` | src/drawbore/tools/proxy/proxy.py:205-277 | over any number of attempts and crash points no run, step and position fires its handler twice |
| `ExactlyOnce.OrphanCheckDecides` | src/drawbore/pipeline/pipeline.py:1169-1193 | comparing the two counts at the end of a step decides whether every recorded effect was consumed |
| `ExactlyOnce.CleanStepIsTheLedger` | src/drawbore/pipeline/pipeline.py:1169-1193 | a step that finishes cleanly made exactly entries 0..count-1, all SUCCEEDED, each fired once, each call returning the recorded output |
| `StepTaint.ScopeExactly` | src/drawbore/tools/taint.py:58-81 | after any acts of a run a step has a scope exactly when it was seeded or in contact, and the scope is the join of its seeds, UNTRUSTED from the first contact on |
| `StepTaint.ActTaints` | src/drawbore/tools/proxy/proxy.py:126-137 | one act changes the scope of its own step alone: by a seed, or by a declared untrusted-source tool that gets past the sink gate, whatever becomes of the call then |
| `StepTaint.ScopeOnlyRises` | src/drawbore/tools/taint.py:58-81 | a scope that was set is never lowered, whatever follows |
| `StepTaint.CommitIsScope` | src/drawbore/pipeline/pipeline.py:1320-1326 | the label a step commits, or pins to the approval request it raises, is the scope that the proxy's ledger holds for it then |
| `StepTaint.DecisionIsScope` | src/drawbore/pipeline/pipeline.py:627-633 | a decided step makes no calls: its label is the join of the pinned one and the seeded scope |
| `StepTaint.ContactIsLocal` | src/drawbore/tools/proxy/proxy.py:126-137 | whether a step comes into contact depends on its own seed and calls, not on the steps before it |
| `StepTaint.ServedReports` | src/drawbore/tools/proxy/proxy.py:279-365 | agents whose calls the proxy serves report exactly their contacts, whatever happened in the run before |
| `StepTaint.ServedCommits` | src/drawbore/pipeline/pipeline.py:1320-1326 | with such agents the committed or pinned label is the ledger's scope, no hypothesis about reports left |
| `StepTaint.TouchedByContact` | src/drawbore/tools/proxy/proxy.py:132-137 | with such agents a step is touched by untrusted data exactly when it executes and one of its calls is such a contact |
| `StepTaint.ServedIsClean` | src/drawbore/pipeline/pipeline.py:961-1338 | so over any attempts with such agents a TRUSTED label has no contact behind it: the soundness of labels, with contacts at the proxy for what soils data |
| `Authority.NodeFacts` | src/drawbore/config/authority.py:43-66 | the facts a step contributes are exactly those its agent's tools and its evidence policy grant |
| `Authority.EffectiveAuthority` | src/drawbore/config/authority.py:43-66 | the loop computes the footprint: a fact is in it exactly when some step grants it |
| `Authority.AgentsExactly` | src/drawbore/config/authority.py:45-45 | of agents of one name the last counts |
| `Authority.FootprintExactly` | src/drawbore/config/authority.py:43-66 | in terms of the manifest: a fact is in the footprint exactly when the agent of some step declares the tool, or has a model and an enabled policy that allows the retrieval |
| `Authority.CheckNoNewAuthority` | src/drawbore/config/authority.py:118-138 | the gate passes exactly when no fact is new; added and removed facts are the two differences |
| `Receipt.Evaluate` | src/drawbore/confinement/receipt.py:215-258 | the loop computes the verdict, breach by breach in order |
| `Receipt.JudgeCases` | src/drawbore/confinement/receipt.py:215-258 | confined exactly when every executed call is attributed, declared and carried nothing tainted out; unverifiable exactly when one is unattributed |
| `Receipt.BreachesListed` | src/drawbore/confinement/receipt.py:215-258 | the breaches are, call by call in log order, all that is held against each executed, attributed call, none twice, and their number is the sum over the calls |
| `Receipt.UnverifiableListed` | src/drawbore/confinement/receipt.py:215-258 | and the unverifiable ones are the executed calls nobody can be named for |
| `Receipt.ObservedIsLogged` | src/drawbore/confinement/receipt.py:176-212 | an observed call is its log entry, with the agent of its step, exactly if the step is one of the manifest's |
| `Receipt.Mint` | src/drawbore/confinement/receipt.py:403-466 | the receipt is the one its inputs determine, with both fingerprints over the sorted facts |
| `Receipt.Verify` | src/drawbore/confinement/receipt.py:334-395 | returns the receipt's verdict when receipt, log and expected footprint all agree, and else the gravest of what is wrong, with what each reason means |
| `Receipt.VerifierSound` | src/drawbore/confinement/receipt.py:334-395 | with an injective footprint fingerprint: a bound, intact receipt reads confined exactly when the log itself keeps to the auditor's footprint |
| `Receipt.VerifyAgainstManifest` | src/drawbore/confinement/receipt.py:334-395 | so an auditor told `confined` knows that about the log |
| `Receipt.MintedVerifies` | src/drawbore/confinement/receipt.py:403-466 | a minted receipt is intact and bound to its footprint, and to its log exactly when every entry is of the run it names |
| `Receipt.NarrowingKeepsConfinement` | src/drawbore/config/authority.py:118-138 | a log confined under a narrower footprint is confined under a wider one |
| `Attestation.RunAttested` | src/drawbore/tools/proxy/proxy.py:279-365 | every entry that sequential calls of agents with declared tools leave in the log is attributed and declared, and no executed one carried tainted data out |
| `Attestation.OneCallBreaches` | src/drawbore/tools/proxy/proxy.py:126-137 | a tool that is both exfil-capable and an untrusted source passes the gate and is then logged in the scope it has just tainted |
| `Attestation.EnforcementIsAttested` | src/drawbore/confinement/receipt.py:215-258 | every run is attested as confined, exactly when no declared, registered, callable tool is of both kinds |
| `Attestation.MintAndVerify` | src/drawbore/confinement/receipt.py:302-466 | end to end: the receipt of such a run verifies as confined against its log and the manifest's footprint |
| `Pipelines.Pipeline.Add` | src/drawbore/pipeline/pipeline.py:180-281 | accepts exactly the nodes that pass every registration check, on names, bindings, models, conditions and tools, bindings of selecting joins unchecked; a refusal changes nothing, and every registered node stays checked |
| `Registration.TypedStays` | src/drawbore/pipeline/pipeline.py:292-352 | a node stays checked, against the same models, when others are registered after it |
| `Registration.AgentAcceptedExactly` | src/drawbore/pipeline/pipeline.py:180-229 | an agent is accepted exactly when its name is new, its bindings fit and leave no required field out, its condition reads a field of an unconditional earlier node, and its tools are registered |
| `Registration.JoinAcceptedExactly` | src/drawbore/pipeline/pipeline.py:231-281 | a join is accepted exactly when its name is new, its sources are earlier nodes, and they are assignable to its output or its bindings fit |
| `Registration.RegisteredAgentValidates` | src/drawbore/pipeline/pipeline.py:292-323 | for every agent of a registered pipeline: its payload validates exactly when each bound value meets the constraint of its field and what its annotation leaves open |
| `Registration.RegisteredJoinForwards` | src/drawbore/pipeline/pipeline.py:238-241 | what a registered selecting join forwards passes its model exactly when it passes what the annotations leave open |
| `Registration.RegisteredJoinBuilds` | src/drawbore/pipeline/pipeline.py:242-275 | what a registered join builds passes exactly when, besides, every required field of its model is bound, which registration does not ask |
| `Registration.UnboundFieldRefused` | src/drawbore/pipeline/pipeline.py:242-275 | a registered join that leaves a required field unbound, and that every payload it can build is refused |
| `Checkpoints.InMemoryCheckpointStore.CommitStep` | src/drawbore/state/checkpoint.py:123-146 | output, trust and seal of one step of one run, and nothing of any other run |
| `Checkpoints.InMemoryCheckpointStore.StepSkipped` | src/drawbore/state/checkpoint.py:201-202 | marks the step skipped, for this run only |
| `Checkpoints.InMemoryCheckpointStore.RecordFingerprint` | src/drawbore/state/checkpoint.py:207-208 | overwrites the topology of this run only |
| `Checkpoints.InMemoryCheckpointStore.RecordApprovalRequest` | src/drawbore/state/checkpoint.py:226-227 | stores the pending request of this run only |
| `Checkpoints.InMemoryCheckpointStore.ClearApprovalRequest` | src/drawbore/state/checkpoint.py:232-233 | removes it, and nothing else |
| `Checkpoints.InMemoryCheckpointStore.TrustAt` | src/drawbore/state/checkpoint.py:223-224 | an unrecorded trust label reads UNTRUSTED |
| `Scheduler.FirstDrift` | src/drawbore/pipeline/pipeline.py:890-934 | the first completed agent step whose stored seal is missing or differs |
| `Pipelines.Pipeline.CheckStore` | src/drawbore/pipeline/pipeline.py:852-934 | preflight: refuses a store of another topology or with drifted seals, and otherwise records the topology as the source does |
| `Pipelines.Pipeline.EvaluateJoin` | src/drawbore/pipeline/pipeline.py:636-652 | the three join policies, as specified |
| `Pipelines.Pipeline.RestoreStep` | src/drawbore/pipeline/pipeline.py:1098-1102 | a completed step is restored with its recorded label, or the exception of reading it back |
| `Pipelines.Pipeline.VisitJoin` | src/drawbore/pipeline/pipeline.py:964-1007 | a join is restored or evaluated and committed, or the run halts, or an exception leaves it |
| `Pipelines.Pipeline.VisitAgent` | src/drawbore/pipeline/pipeline.py:1010-1082 | recorded skip, cascade, condition, in this order; a condition may raise |
| `Pipelines.Pipeline.EnterStep` | src/drawbore/pipeline/pipeline.py:1084-1138 | identity gate, restore, pending request, execution |
| `Pipelines.Pipeline.HandlePendingApproval` | src/drawbore/pipeline/pipeline.py:499-634 | poll, wrong id, rejection, schema violation, and the applied decision |
| `Pipelines.Pipeline.AfterExecution` | src/drawbore/pipeline/pipeline.py:1195-1327 | confidence threshold, approval gate and commit |
| `Pipelines.Pipeline.RunNodes` | src/drawbore/pipeline/pipeline.py:961-1338 | the loop over the nodes equals the recursive definition of a run |
| `Pipelines.Pipeline.Run` | src/drawbore/pipeline/pipeline.py:771-1338 | one attempt on a store equals its definition on values, so that everything below holds of it, and no other run in the store is touched |
| `Outcomes.DriftExactly` | src/drawbore/pipeline/pipeline.py:842-934 | over an attempt: it ends in `resume_drift` exactly when some step is completed or skipped and the topology differs or a completed agent step has another seal or none; then nothing runs or is written, and the halt names the pipeline or the first such step |
| `Outcomes.AttemptOpens` | src/drawbore/pipeline/pipeline.py:935-960 | otherwise it gets to its first node, or halts on an unclean input before anything runs |
| `Outcomes.AttemptFollows` | src/drawbore/pipeline/pipeline.py:961-1349 | it goes through its nodes in order, ends where one stops it, and after the last is complete, unless a decision is left over |
| `Outcomes.SkipsExactly` | src/drawbore/pipeline/pipeline.py:1014-1082 | when an agent is skipped, over the store, the plan and the outputs, and that only a cascade is put on record |
| `Outcomes.GatesHaltExactly` | src/drawbore/pipeline/pipeline.py:1042-1096 | when it halts for a skipped or an untrusted condition or for its identity, each as an if-and-only-if |
| `Outcomes.ExecutesExactly` | src/drawbore/pipeline/pipeline.py:1010-1138 | the agent runs exactly when it comes up, is not blocked, and neither an output nor a request of it is in the store |
| `Outcomes.RestoresExactly` | src/drawbore/pipeline/pipeline.py:1098-1102 | a completed step is restored with its stored output under its recorded label, UNTRUSTED without one |
| `Outcomes.BadExecutionHalts` | src/drawbore/pipeline/pipeline.py:1138-1193 | which code a failed, refused or orphaned execution gives, and that nothing is stored |
| `Outcomes.CommitsExactly` | src/drawbore/pipeline/pipeline.py:1195-1338 | an output is committed exactly when its step needs no approval and there is no threshold, no confidence, one that reaches the threshold, or the async mode; and what is committed |
| `Outcomes.HaltsExactly` | src/drawbore/pipeline/pipeline.py:1205-1311 | the code of each other case, as an if-and-only-if over threshold, level, mode, approval gate and store |
| `Outcomes.HaltsProposing` | src/drawbore/pipeline/pipeline.py:1205-1311 | such a halt shows the proposed output, and raises and stores a request exactly in the two cases that wait for a decision |
| `Outcomes.AwaitedSettles` | src/drawbore/pipeline/pipeline.py:546-634 | what a poll, a wrong id, a rejection, a refused output and an applied decision each come to, with codes, store and label |
| `Outcomes.JoinHaltsExactly` | src/drawbore/pipeline/pipeline.py:636-652 | a join halts exactly when its policy is not met |
| `Outcomes.JoinPassesExactly` | src/drawbore/pipeline/pipeline.py:964-1007 | and passes exactly when its model lets through the one source, the first source or what it builds, with that output under the label of its choice or of all its sources |
| `Outcomes.PayloadIsBound` | src/drawbore/context/build.py:16-49 | an agent sees exactly the bound fields, each the output or the one field it names, and without bindings its predecessor's output or the initial input |
| `SchedulerShape.CutShape` | src/drawbore/pipeline/pipeline.py:961-1338 | where a loop that is cut short stands, which is the node it was to get to or the one it stopped at: the earlier names are exactly the outputs and the skipped, disjoint, and every output has a label |
| `SchedulerShape.SkippedExactly` | src/drawbore/pipeline/pipeline.py:1014-1082 | a node is skipped exactly when it is an agent whose skip is on record, that reads from a skipped node, or whose condition is false |
| `SchedulerShape.AgentEscapesExactly` | src/drawbore/pipeline/pipeline.py:1010-1138 | an agent step raises past the scheduler exactly when its condition raises on a trusted output that is there, or reading its stored output back does; it never looks up an output that is not there |
| `SchedulerShape.JoinEscapesExactly` | src/drawbore/pipeline/pipeline.py:636-652 | a join does exactly when its stored output cannot be read back, or its policy is met and what it selects or builds is missing or refused by its output model |
| `SchedulerShape.AttemptEscapesExactly` | src/drawbore/pipeline/pipeline.py:961-1338 | an attempt ends in an exception exactly when it begins and gets to such a step |
| `SchedulerShape.AttemptNeverEscapes` | src/drawbore/pipeline/pipeline.py:771-1338 | whatever the agents do, every attempt ends in a result if each join binds what it waits for and nothing else, its model accepts what the models before it let through, conditions are defined on it, and stored outputs are read back |
| `SchedulerShape.RunNeverEscapes` | src/drawbore/pipeline/pipeline.py:771-1338 | the same on any store that attempts under the same models have left |
| `SchedulerShape.ComparisonEscapes` | src/drawbore/pipeline/pipeline.py:325-352 | a registered pipeline whose condition compares a field that may be `None`, and a run of it that escapes on any such output |
| `SchedulerShape.UnreadableJoinEscapes` | src/drawbore/state/file_checkpoint.py:161-177 | an attempt that gets to a completed join whose stored output its model no longer accepts escapes |
| `SchedulerShape.RefusingJoinEscapes` | src/drawbore/pipeline/pipeline.py:977-983 | a registered pipeline whose join selects a value its own model refuses, and a run of it that escapes |
| `SchedulerShape.UnlistedBindingEscapes` | src/drawbore/pipeline/pipeline.py:243-275 | a registered pipeline whose join binds a node it does not wait for, and a run of it that escapes |
| `Resume.StepAgrees` | src/drawbore/pipeline/pipeline.py:961-1338 | on a store that tells the truth, an attempt does at each node what the uninterrupted run does there |
| `Resume.StepKeeps` | src/drawbore/pipeline/pipeline.py:464-497 | and leaves a store that tells the truth |
| `Resume.RunAgrees` | src/drawbore/pipeline/pipeline.py:961-1338 | so a resumed run establishes what the uninterrupted one establishes |
| `Resume.PreflightPasses` | src/drawbore/pipeline/pipeline.py:852-934 | preflight never refuses a store that this pipeline wrote |
| `Resume.ResumeRefinesOneRun` | src/drawbore/pipeline/pipeline.py:771-1338 | any sequence of crashed attempts followed by one that runs to its end gives the outputs, labels, skipped set, step count and outcome of one uninterrupted attempt, if the store hands back what the models let through |
| `TrustLabels.SeedCovers` | src/drawbore/pipeline/pipeline.py:1102-1112 | the seed of a step covers everything its payload is made from |
| `TrustLabels.JoinLabels` | src/drawbore/pipeline/pipeline.py:990-994 | the label of a join covers the source it forwards, or all it is built from, if the join covers what it binds |
| `TrustLabels.TrustedIsClean` | src/drawbore/pipeline/pipeline.py:961-1338 | over any attempts, restored steps and approvals, if joins cover what they bind: a TRUSTED label has no untrusted source among its transitive data dependencies |
| `Coverage.CoverExactly` | src/drawbore/pipeline/pipeline.py:990-994 | in a plan without branches, over all attempts, labels are right exactly when every join binds what it waits for or what its sources count in: a condition on the nodes alone |
| `TrustLabels.UnlistedBindingLaunders` | src/drawbore/pipeline/pipeline.py:990-994 | a run that shows a wrong label under a join that does not |
| `Approvals.AlwaysWaiting` | src/drawbore/pipeline/pipeline.py:1122-1138 | in every store that attempts can leave, everything before a pending request's step is settled and the step itself is open |
| `Approvals.PendingStepNotExecuted` | src/drawbore/pipeline/pipeline.py:1122-1138 | while a request is pending, no attempt executes its step or any step before it |
| `Approvals.DecisionSettles` | src/drawbore/pipeline/pipeline.py:546-634 | what an attempt comes to while a request is pending: same id and code on polls, untouched on a wrong id, gone and committed on the right one, under a label never below the proposed |
| `Approvals.AppliedAtMostOnce` | src/drawbore/pipeline/pipeline.py:601-634 | no request is applied twice, however many attempts and decisions there are |
| `Scanner.MatchingBrace` | src/drawbore/llm/structured_output.py:258-282 | the loop equals the recursive matcher |
| `Scanner.TreeKeeps` | src/drawbore/llm/structured_output.py:258-282 | inside an object any printed value, with its strings and escapes, brings the matcher back to its state |
| `Scanner.MatchFindsEnd` | src/drawbore/llm/structured_output.py:258-282 | for every printed object, before and after any text, the matcher returns exactly its end |
| `Scanner.SoleTopLevelObject` | src/drawbore/llm/structured_output.py:227-255 | the scan returns the only decoded object, if there is exactly one |
| `Scanner.ScanFinds` | src/drawbore/llm/structured_output.py:227-255 | in text without other opening braces it finds the printed objects, in order, and nothing else |
| `Scanner.SoleUndoesPrint` | src/drawbore/llm/structured_output.py:227-255 | one printed object is recovered; none, or more than one, is refused |
| `Scanner.ExtractObject` | src/drawbore/llm/structured_output.py:61-83 | direct object, recovered object, structural or absent |
| `Scanner.CoerceStructuredOutput` | src/drawbore/llm/structured_output.py:173-224 | the driver asks again at most once, and what it returns is fixed by the two replies and the budget |
| `Scanner.CoercionSettles` | src/drawbore/llm/structured_output.py:173-224 | through the decoder alone: JSON that is no object ends in a model error without a re-ask; an invalid object, or none, is asked again exactly when the budget allows; an invalid one is handed on when it does not |
| `Scanner.ProseIsNoObstacle` | src/drawbore/llm/structured_output.py:61-83 | a valid object in prose is accepted without asking again |
| `FileNames.NumberOfName` | src/drawbore/state/file_checkpoint.py:70-73 | the number in a padded file name is the one it was made from, however large |
| `FileNames.NumberInExactly` | src/drawbore/state/file_checkpoint.py:98-113 | a name has a number exactly when it is the prefix, digits and the suffix |
| `FileNames.TemporaryIsNotNumbered` | src/drawbore/state/file_checkpoint.py:98-113 | no scan takes a temporary file for a step file |
| `AtomicFiles.Disk.AtomicWrite` | src/drawbore/state/file_checkpoint.py:75-86 | the directory goes through four states, of which the last is the new file in place |
| `CheckpointFiles.CrashLeavesOld` | src/drawbore/state/file_checkpoint.py:75-86 | a crash before the rename leaves every run as it was |
| `CheckpointFiles.DoneRefines` | src/drawbore/state/file_checkpoint.py:134-147 | a completed operation on files is the operation on the in-memory record |
| `CheckpointFiles.DoneIsolates` | src/drawbore/state/file_checkpoint.py:64-68 | and no other run sees it |
| `CheckpointFiles.FilesRefineRecords` | src/drawbore/state/file_checkpoint.py:155-283 | over any history of operations, crashes and reopenings the files say what the in-memory store would hold after the finished operations |
| `CheckpointFiles.AlwaysTidy` | src/drawbore/state/file_checkpoint.py:75-86 | and no history leaves a step file under any but its own name |
| `FileCheckpoints.Reopen` | src/drawbore/state/file_checkpoint.py:50-60 | a store opened after any history of operations and crashes answers every question as an in-memory store that went through the finished operations, an output through the model it is bound to |
| `FileCheckpoints.FileCheckpointStore.Answer` | src/drawbore/state/file_checkpoint.py:155-288 | all questions about a step at once, from the record alone |
| `FileCheckpoints.AnswersExactly` | src/drawbore/state/file_checkpoint.py:155-288 | what each answer is in terms of the record: completed exactly if the output is stored, an unrecorded label UNTRUSTED, an unrecorded topology any |
| `FileCheckpoints.FileCheckpointStore.BindModels` | src/drawbore/state/file_checkpoint.py:285-288 | binds the models of this run only |
| `FileCheckpoints.FileCheckpointStore.Load` | src/drawbore/state/file_checkpoint.py:89-115 | what is read of a directory agrees with it, step by step |
| `FileCheckpoints.FileCheckpointStore.RunCache` | src/drawbore/state/file_checkpoint.py:89-115 | whatever is cached agrees with the directory |
| `FileCheckpoints.FileCheckpointStore.IsCompleted` | src/drawbore/state/file_checkpoint.py:158-159 | as the in-memory store answers |
| `FileCheckpoints.FileCheckpointStore.OutputOf` | src/drawbore/state/file_checkpoint.py:161-177 | the stored output as the bound model reads it back, and nothing without a bound model or when the model refuses it |
| `FileCheckpoints.FileCheckpointStore.TrustAt` | src/drawbore/state/file_checkpoint.py:242-246 | as the in-memory store answers |
| `FileCheckpoints.FileCheckpointStore.SealAt` | src/drawbore/state/file_checkpoint.py:207-211 | as the in-memory store answers |
| `FileCheckpoints.FileCheckpointStore.MergeStepRecord` | src/drawbore/state/file_checkpoint.py:141-145 | read, merge, write: the record changes as the in-memory one does, the cache still agrees, and the states passed on the way are those a crash in this operation leaves |
| `FileCheckpoints.FileCheckpointStore.CommitStep` | src/drawbore/state/file_checkpoint.py:218-240 | output, trust and seal in one write, so that a crash leaves all of them or none |
| `FileCheckpoints.FileCheckpointStore.RecordFingerprint` | src/drawbore/state/file_checkpoint.py:189-196 | the topology, in cache and file, through the states a crash can leave |
| `FileCheckpoints.FileCheckpointStore.RecordApprovalRequest` | src/drawbore/state/file_checkpoint.py:252-263 | the request, in its own file, through the states a crash can leave |
| `FileCheckpoints.FileCheckpointStore.ClearApprovalRequest` | src/drawbore/state/file_checkpoint.py:276-281 | removes it, also when there is none |
| `Aliases.SanitizedAcceptable` | src/drawbore/orchestration/engine.py:37-46 | a sanitised name has safe characters only, starts with a letter or underscore, and is at most 64 long |
| `Aliases.SanitizedExactly` | src/drawbore/orchestration/engine.py:37-46 | character by character: what a provider takes stays in its place, the rest becomes an underscore, cut at 64, with `t_` in front where needed |
| `Aliases.CandidateExactly` | src/drawbore/orchestration/engine.py:63-65 | the numbered name is as much of the base as leaves room for the number (`Aliases.LongCandidate`: when nothing does) |
| `Aliases.Pigeonhole` | src/drawbore/orchestration/engine.py:59-66 | no more candidates can be taken than names are in use, so that the search ends |
| `Aliases.CandidatesDiffer` | src/drawbore/orchestration/engine.py:63-66 | different numbers give different candidates, whatever is cut off before them |
| `Aliases.ProviderSafeToolAliases` | src/drawbore/orchestration/engine.py:49-69 | the nested loops compute the allocation that assigns first free names in declared order |
| `Aliases.AliasesAreDistinct` | src/drawbore/orchestration/engine.py:49-69 | every declared reference gets a name and no two the same |
| `Aliases.AliasesAreAcceptable` | src/drawbore/orchestration/engine.py:49-69 | every name is acceptable, and at most 64 long unless there are more than 10^63 of them |
| `Aliases.FirstKeepsItsName` | src/drawbore/orchestration/engine.py:57-66 | a reference whose sanitised name is free keeps it |
| `Aliases.OthersAreNumbered` | src/drawbore/orchestration/engine.py:57-66 | any other gets the first free candidate, counting from 2 |
| `Corpus.WalkChain` | src/drawbore/ratchet/corpus.py:150-164 | stops at the first case that does not link, and reports none exactly for an unbroken chain |
| `Corpus.InMemoryRegressionCorpus.Append` | src/drawbore/ratchet/corpus.py:349-354 | accepts exactly what a named sponsor vouches for and what was sealed over the newest case, and keeps the chain |
| `Corpus.RootDeterminesHistory` | src/drawbore/ratchet/corpus.py:113-164 | two verified corpora with the same root are identical |
| `Corpus.TamperShows` | src/drawbore/ratchet/corpus.py:150-164 | anything changed, dropped or reordered breaks the chain or changes the root |
| `Corpus.ChainIsRigid` | src/drawbore/ratchet/corpus.py:113-164 | no verified corpus has its cases in two orders: a chain of cases of another chain is the beginning of it |
| `FileNames.NamesInOrder` | src/drawbore/ratchet/file_corpus.py:100-107 | up to 99,999 the order of padded names is the order of numbers |
| `FileNames.OrderBreaks` | src/drawbore/ratchet/file_corpus.py:100-107 | past that it is not |
| `FileCorpora.SortedIsAppendOrder` | src/drawbore/ratchet/file_corpus.py:202-217 | sorting the names gives append order exactly up to 99,999 cases |
| `FileCorpora.CrashKeepsEntries` | src/drawbore/ratchet/file_corpus.py:111-127 | a crash before the rename loses the new case and nothing else |
| `FileCorpora.RenameAppends` | src/drawbore/ratchet/file_corpus.py:267-283 | the rename adds the new case at the end |
| `FileCorpora.ReadBack` | src/drawbore/ratchet/file_corpus.py:219-239 | up to 99,999 cases a fresh corpus over the same directory reads back its entries in append order |
| `FileCorpora.LoadedExactly` | src/drawbore/ratchet/file_corpus.py:219-296 | a corpus that was only appended to is read back as it was, and verifies when it is read back, exactly up to 99,999 cases |
| `FileCorpora.FilesRefineEntries` | src/drawbore/ratchet/file_corpus.py:111-283 | over any history of appends, refusals, crashes and reopenings below that bound: the directory holds exactly the finished appends, they are a chain, and they are read back |
| `FileCorpora.FileRegressionCorpus.Sponsors` | src/drawbore/ratchet/file_corpus.py:253-256 | the sponsors, in the order of the cases they vouched for |
| `FileCorpora.AppendedVerifies` | src/drawbore/ratchet/file_corpus.py:285-296 | a chain that was only appended to verifies when it is read back, up to 99,999 cases |
| `FileCorpora.ReopenedRefusesNext` | src/drawbore/ratchet/file_corpus.py:267-283 | with 100,000 cases a corpus opened anew takes an older case for its newest, and refuses the one that continues it |
| `FileCorpora.FileRegressionCorpus.LoadFromDisk` | src/drawbore/ratchet/file_corpus.py:219-239 | every case file in the order of its name, or nothing when one cannot be read |
| `FileCorpora.CaseNameExactly` | src/drawbore/ratchet/file_corpus.py:202-217 | which names count as those of cases |
| `FileCorpora.ReadAllExactly` | src/drawbore/ratchet/file_corpus.py:219-239 | files are read exactly when every one of them is whole, and then as they stand |
| `FileCorpora.FileRegressionCorpus.Append` | src/drawbore/ratchet/file_corpus.py:267-283 | refuses exactly as the in-memory corpus does, and else extends what the directory holds, however many cases are loaded |
| `FileCorpora.FileRegressionCorpus.Verify` | src/drawbore/ratchet/file_corpus.py:285-296 | reads the directory, and accepts exactly a readable unbroken chain |
| `Subtyping.AssignableIsSound` | src/drawbore/schema/static.py:85-117 | whatever a producer of the source type delivers, a field of the target type accepts |
| `Subtyping.SubclassAcceptedExactly` | src/drawbore/schema/static.py:69-82 | of an instance of a subclass the target accepts it exactly when it accepts each further field that it names |
| `SubtypingExact.AssignableExactly` | src/drawbore/schema/static.py:85-117 | on annotations of classes, literals, optionals and models the check accepts exactly when whatever the source delivers is accepted; on all annotations it accepts `Any` and the annotation itself (`SubtypingExact.AlwaysAssignable`) |
| `Subtyping.AssignableValidates` | src/drawbore/schema/runtime.py:14-24 | of what a producer of an assignable type delivers, dumped or not, strict validation refuses exactly what fails on what annotations leave open |
| `Subtyping.BoundPayloadValidates` | src/drawbore/pipeline/pipeline.py:292-323 | a payload built from checked bindings validates exactly when every bound value meets the constraint of its field and what its annotation leaves open |
| `Subtyping.SettledNeverHalts` | src/drawbore/pipeline/executor.py:74-81 | a condition on the annotations alone under which no such payload halts the step |
| `Subtyping.ConstraintRefused` | src/drawbore/schema/runtime.py:14-24 | a checked binding from `int` to `int` with `gt=0`, and -1 |
| `Subtyping.BooleanRefused` | src/drawbore/schema/static.py:115-116 | a checked binding from `bool` to `int`, which strict validation refuses |
| `Subtyping.StructuralMatchRefused` | src/drawbore/context/build.py:42-49 | an instance of a structurally equal model is refused when bound as a field, while its dump passes |
| `Subtyping.SubclassInstanceRefused` | src/drawbore/context/build.py:42-49 | the dump of a subclass instance is refused for a field that only the target and the subclass know |
| `Rows.SelectItems` | src/drawbore/evidence/transforms.py:64-99 | head, tail, signal and sample, sorted and capped, with the reported counts |
| `Rows.UncappedKeeps` | src/drawbore/evidence/transforms.py:79-86 | without a cap a row is kept exactly for one of the four reasons |
| `Rows.CappedIsFirstPart` | src/drawbore/evidence/transforms.py:88-99 | with a cap the selection is a first part of the uncapped one, and both drop counts are exact |
| `Rows.SignalsConserved` | src/drawbore/evidence/transforms.py:90-97 | signal rows kept and signal rows reported as dropped are all there are |
| `Rows.SampleBounded` | src/drawbore/evidence/transforms.py:83-85 | the even sample has fewer than twice as many rows as asked for, however long the list |
| `Rows.SampleExactly` | src/drawbore/evidence/transforms.py:83-85 | the sample is every row at a multiple of the stride, the stride being how often the asked number goes into the length |
| `Rows.BudgetIsGreatest` | src/drawbore/evidence/transforms.py:53-61 | each list gets the greatest equal share that the budget pays for, at least one row |
| `Rows.BudgetHolds` | src/drawbore/evidence/transforms.py:53-61 | all lists together keep at most as many rows as the budget pays for, or one row each |
| `Fallback.ResolveChain` | src/drawbore/llm/resolution.py:123-147 | the attempts of all refs in order, each key once, or an error |
| `Fallback.AllOfJoins` | src/drawbore/llm/resolution.py:123-147 | the attempts are those of the refs, one ref after the other, and of one ref its own (`Fallback.AllOfOne`) |
| `Fallback.DeduplicatedKeys` | src/drawbore/llm/resolution.py:138-144 | no key is lost and none is tried twice |
| `Fallback.FirstOfItsKeyStays` | src/drawbore/llm/resolution.py:138-144 | what stays is the first attempt of each key |
| `Fallback.Complete` | src/drawbore/llm/runtime.py:83-153 | the attempts made are those up to the first that does not go on, all but that one configured transport fallbacks, and it decides the ending |
| `Fallback.WalkExactly` | src/drawbore/llm/runtime.py:83-153 | the walk goes on exactly from transport failures that the attempt lists, and which ending each other reply gives |
| `ToolLoop.ToolLoopBundle.BeforeTool` | src/drawbore/orchestration/adk_tools.py:193-201 | blocks a tool after a failure or under a name that was not exposed, and otherwise leaves a mark |
| `ToolLoop.ToolLoopBundle.RunTool` | src/drawbore/orchestration/adk_tools.py:85-95 | a tool that raises leaves its failure behind |
| `ToolLoop.ToolLoopBundle.ConsumePass` | src/drawbore/orchestration/adk_loop.py:191-246 | the event loop pulls until something is said after a failure or with two calls, and prefers the tool's error |
| `ToolLoop.ToolLoopBundle.RunOneAttempt` | src/drawbore/orchestration/adk_loop.py:91-188 | markers are reset, one pass, a second one exactly when the reply calls for it and turns are left, and the answer or the exception that leaves the attempt |
| `ToolLoop.TurnsWithinBudget` | src/drawbore/orchestration/adk_loop.py:150-181 | the second pass included, an attempt takes no more model turns than it is given, if no pass does |
| `ToolLoop.GoodAnswer` | src/drawbore/orchestration/adk_loop.py:160-188 | an answer is an object of one of the two replies, an invalid one only when it could not be asked for again or is the second |
| `ToolLoop.ServedRight` | src/drawbore/orchestration/adk_tools.py:193-201 | over any stream of requests there is one mark for each tool that reached the proxy, all were declared, and nothing is let through after a failure |
| `ToolLoop.NothingAfterFailure` | src/drawbore/orchestration/adk_tools.py:193-201 | once a tool has failed, whatever is asked for afterwards changes nothing |
| `ToolLoop.MarkedExactly` | src/drawbore/orchestration/adk_loop.py:118-121 | after an attempt the marker is set exactly when a tool reached the proxy, and the failures are non-empty exactly when the attempt raised one |
| `ToolLoop.DriverExactly` | src/drawbore/orchestration/adk_loop.py:266-345 | when the driver goes on to the next attempt, and which ending it gives otherwise, each as an if-and-only-if |
| `LoopOutcomes.PassExactly` | src/drawbore/orchestration/adk_loop.py:191-246 | a pass is pulled to the first thing said after a failure or with two calls; exactly the tools asked for before it, under exposed names and before any failure, reach the proxy, in order; and how it ends |
| `LoopOutcomes.AttemptExactly` | src/drawbore/orchestration/adk_loop.py:91-188 | the second pass is made exactly when turns are left and the reply was no JSON of another kind and offered no valid object; and what the attempt comes to in each case |
| `ToolLoop.RunLoopChain` | src/drawbore/orchestration/adk_loop.py:249-357 | the driver, which looks at markers and exceptions only: attempts made, ending, and all that reached the proxy did so in the last attempt |
| `ToolLoop.HandledInLastAttemptOnly` | src/drawbore/orchestration/adk_loop.py:288-334 | no side effect is replayed across providers: nothing reaches the proxy in any attempt but the last one made |

## Left out

- Prose: halt reasons, breach texts, certificates, legible renderings and warnings. Halt codes, dispositions and counts are kept.
- Schema flags are compared as a set; their order and the final sort are not modelled. Numbers compare as reals, so the JSON
  spellings `1` and `1.0` of an `enum` member are one value; a value set that raises for unhashable members is not modelled.
- `$id`, `$anchor`, `$dynamicRef`, `$dynamicAnchor`, `unevaluatedProperties` and `unevaluatedItems`: what they mean is left open,
  and the fragment excludes them. `$schema`: both documents are read under one dialect. Regular expressions, formats, text
  length and the pointer syntax of `$ref` are parameters.
- Doubles that overflow, underflow or are no numbers: the exponent of a double is unbounded here. The division of a JSON
  integer above 2^53 by a JSON fraction rounds the integer first; here a quotient is rounded once.
- Telemetry, the audit recorder, escalation dispatch, the identity registry, credentials and the evidence store: the scheduler
  sees them as parameters, or not at all. The list of escalations and the distinction between `halted` and `escalated` are
  not part of an outcome.
- `ValueError`s at the door of `run`: a store without a run id, a decision without a store.
- Tool calls that overlap within one step: calls are sequential.
- Run-level call caps across attempts: an attempt has a fresh proxy, so the caps of a resumed run differ by design, and an
  agent's behaviour in `Scheduler.Env` is given as a whole.
- Values that do not serialise to JSON, on which hashing an output or storing it raises, and stores and escalation channels
  that raise. A stored output is handed back as it was or not at all; a validation that changes it is modelled in
  `FileCheckpoints` alone.
- Default values of models that do not conform to their annotation, validators that replace a value, aliases, and models that
  a field annotated with a plain class holds. In `Scheduler` validation is a parameter, and a model instance and its dump are
  one value.
- I/O errors that raise in the middle of a write: a write succeeds or the process dies.
- Clearing a request and committing its step are two writes in the source and one step in `Approvals`: a crash between them
  loses the request, and the step is executed again.
- Foreign files in a run directory or a corpus directory whose names only look like the store's own: a store file's name is
  the one its number gets. `int()` is modelled on digits.
- SHA-256 and canonical JSON: fingerprints are functions, injective where a theorem says so.
- Malformed log entries: a log entry has all of its fields, so minting never fails.
- The expansion of a profile into targets and its credential checks: `Fallback.ResolveChain` starts from the attempts of each ref.
- What the agent framework does inside a pass of the tool loop: it is any stream of turns, tool requests and events, ended or
  not by an exception. That a pass starts no more model turns than it is told
  is the framework's promise.
- The log transform and the notability of a row: `Rows` takes the signal as a parameter.
- Deriving regression cases and replaying them.
- FileCorpora.FileRegressionCorpus.Append: for a corpus opened anew it is stated for fewer than 100,000 cases, because past that
  the order of the file names is no longer the order of appending (`FileCorpora.ReopenedRefusesNext`).
- Coverage.CoverExactly: is about plans without conditions, approval gates and selecting joins; with them the condition is
  sufficient (`TrustLabels.TrustedIsClean`), and whether it is needed depends on which branches can be taken together.
- Resume.ResumeRefinesOneRun: is about attempts without a decision, in the same surroundings; what decisions do to a run is
  in `Approvals`.
