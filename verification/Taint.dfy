/** Trust labels, and the ledger of trust scopes of one run. */
module Taint {

  import opened Wrappers

  datatype Trust = Trusted | Untrusted

  /** A step of a run; the proxy also serves callers outside any step. */
  type Step = Option<int>

  type Scopes = map<(string, Step), Trust>

  function Join(a: Trust, b: Trust): Trust {
    if a.Untrusted? || b.Untrusted? then Untrusted else Trusted
  }

  /** The least upper bound of any number of labels. */
  function JoinAll(labels: seq<Trust>): (r: Trust)
    ensures r.Untrusted? <==> Untrusted in labels
  {
    if labels == [] then Trusted else Join(labels[0], JoinAll(labels[1..]))
  }

  function ScopeOf(managed: bool, m: Scopes, key: (string, Step)): Trust {
    if key in m then m[key] else if managed then Untrusted else Trusted
  }

  function Seeded(m: Scopes, key: (string, Step), trust: Trust): Scopes {
    m[key := if key in m then Join(m[key], trust) else trust]
  }

  function Observed(managed: bool, m: Scopes, key: (string, Step), trust: Trust): Scopes {
    m[key := Join(ScopeOf(managed, m, key), trust)]
  }

  class TaintLedger {
    const initial: Trust
    const managed: bool
    var scopes: Scopes

    constructor (initial: Trust, managed: bool)
      ensures this.initial == initial && this.managed == managed && scopes == map[]
    {
      this.initial := initial;
      this.managed := managed;
      scopes := map[];
    }

    method Seed(runId: string, step: Step, trust: Trust)
      modifies this
      ensures scopes == Seeded(old(scopes), (runId, step), trust)
    {
      var key := (runId, step);
      if key in scopes {
        scopes := scopes[key := Join(scopes[key], trust)];
      } else {
        scopes := scopes[key := trust];
      }
    }

    method Observe(runId: string, step: Step, sourceTrust: Trust)
      modifies this
      ensures scopes == Observed(managed, old(scopes), (runId, step), sourceTrust)
    {
      scopes := scopes[(runId, step) := Join(Scope(runId, step), sourceTrust)];
    }

    function Scope(runId: string, step: Step): (trust: Trust)
      reads this
      ensures trust == ScopeOf(managed, scopes, (runId, step))
    {
      if (runId, step) in scopes then scopes[(runId, step)] else if managed then Untrusted else Trusted
    }
  }
}
