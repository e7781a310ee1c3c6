/** The comparator as the program runs it: methods that walk two schemas and append to one shared list. */
module SchemaComparator {

  import opened Wrappers
  import opened JsonSchema
  import opened SchemaOracle
  import OracleSoundness
  import OraclePrecision

  /** The list of relaxations that the comparators of all agents append to. */
  class FlagList {
    var flags: seq<Relaxation>

    constructor ()
      ensures flags == []
    {
      flags := [];
    }

    function Reported(): set<Relaxation>
      reads this
    {
      set r | r in flags
    }

    method Flag(r: Relaxation)
      modifies this
      ensures flags == old(flags) + [r]
      ensures Reported() == old(Reported()) + {r}
    {
      flags := flags + [r];
    }
  }

  class Comparator {
    const agent: string
    const out: FlagList

    constructor (agent: string, out: FlagList)
      ensures this.agent == agent && this.out == out
    {
      this.agent := agent;
      this.out := out;
    }

    method Compare(was: Json, now: Json, path: seq<Text>)
      modifies out
      ensures out.Reported() == old(out.Reported()) + Flags(agent, path, was, now)
      decreases was, 3
    {
      if !was.Obj? || !now.Obj? {
        if !PyEq(was, now) {
          out.Flag(Relaxation(agent, path, None, Some(was), Some(now)));
        }
        return;
      }
      var rest := was.fields.Keys + now.fields.Keys;
      ghost var done: set<Text> := {};
      while rest != {}
        invariant done + rest == was.fields.Keys + now.fields.Keys
        invariant out.Reported() == old(out.Reported()) + KeysFlags(agent, path, was, now, done)
        decreases rest
      {
        var key :| key in rest;
        CompareKey(was, now, path, key);
        rest, done := rest - {key}, done + {key};
      }
      assert done == was.fields.Keys + now.fields.Keys;
    }

    method CompareKey(was: Json, now: Json, path: seq<Text>, key: Text)
      requires was.Obj? && now.Obj?
      modifies out
      ensures out.Reported() == old(out.Reported()) + KeyFlags(agent, path, was, now, key)
      decreases was, 2
    {
      if key in was.fields && key in now.fields {
        if !PyEq(was.fields[key], now.fields[key]) && !IsMetadata(key) {
          CompareChanged(was, now, path, key);
        }
      } else if key in was.fields && !IsMetadata(key) {
        out.Flag(Relaxation(agent, path + [key], Some(key), Some(was.fields[key]), None));
      }
    }

    method CompareChanged(was: Json, now: Json, path: seq<Text>, key: Text)
      requires was.Obj? && now.Obj? && key in was.fields && key in now.fields
      modifies out
      ensures out.Reported() == old(out.Reported()) + ChangedFlags(agent, path, was, now, key)
      decreases was, 1
    {
      var ov, nv := was.fields[key], now.fields[key];
      var here := path + [key];
      if key == Kw(Properties) {
        CompareProperties(ov, nv, here, At(was.fields, AdditionalProperties));
      } else if key == Kw(Defs) || key == Kw(Definitions) {
        CompareBlock(ov, nv, here, key);
      } else if key == Kw(Items) {
        CompareItems(ov, nv, here);
      } else if key == Kw(AdditionalProperties) {
        CompareAdditional(ov, nv, here);
      } else if key.Word? || !ValueNarrows(key.k, ov, nv) {
        out.Flag(Relaxation(agent, here, Some(key), Some(ov), Some(nv)));
      }
    }

    method CompareProperties(ov: Json, nv: Json, here: seq<Text>, additional: Option<Json>)
      modifies out
      ensures out.Reported() == old(out.Reported()) + PropertiesFlags(agent, here, ov, nv, additional)
      decreases ov, 5
    {
      if !ov.Obj? || !nv.Obj? {
        if !PyEq(ov, nv) {
          out.Flag(Relaxation(agent, here, Some(Kw(Properties)), Some(ov), Some(nv)));
        }
        return;
      }
      var rest := ov.fields.Keys + nv.fields.Keys;
      ghost var done: set<Text> := {};
      while rest != {}
        invariant done + rest == ov.fields.Keys + nv.fields.Keys
        invariant out.Reported() == old(out.Reported()) + NamesFlags(agent, here, ov, nv, done, additional)
        decreases rest
      {
        var name :| name in rest;
        CompareProperty(ov, nv, here, name, additional);
        rest, done := rest - {name}, done + {name};
      }
      assert done == ov.fields.Keys + nv.fields.Keys;
    }

    method CompareProperty(ov: Json, nv: Json, here: seq<Text>, name: Text, additional: Option<Json>)
      requires ov.Obj? && nv.Obj?
      modifies out
      ensures out.Reported() == old(out.Reported()) + PropertyFlags(agent, here, ov, nv, name, additional)
      decreases ov, 4
    {
      if name in ov.fields && name in nv.fields {
        Compare(ov.fields[name], nv.fields[name], here + [name]);
      } else if name in nv.fields {
        if !Open(additional) {
          out.Flag(Relaxation(agent, here + [name], Some(Kw(Properties)), None, Some(nv.fields[name])));
        }
      } else if name in ov.fields && additional != Some(Bool(false)) {
        out.Flag(Relaxation(agent, here + [name], Some(Kw(Properties)), Some(ov.fields[name]), None));
      }
    }

    method CompareBlock(ov: Json, nv: Json, here: seq<Text>, key: Text)
      modifies out
      ensures out.Reported() == old(out.Reported()) + BlockFlags(agent, here, key, ov, nv)
      decreases ov, 5
    {
      if !ov.Obj? || !nv.Obj? {
        if !PyEq(ov, nv) {
          out.Flag(Relaxation(agent, here, Some(key), Some(ov), Some(nv)));
        }
        return;
      }
      var rest := ov.fields.Keys * nv.fields.Keys;
      ghost var done: set<Text> := {};
      while rest != {}
        invariant done + rest == ov.fields.Keys * nv.fields.Keys
        invariant out.Reported() == old(out.Reported()) + EntriesFlags(agent, here, ov.fields, nv.fields, done)
        decreases rest
      {
        var name :| name in rest;
        CompareEntry(ov.fields[name], nv.fields[name], here + [name]);
        rest, done := rest - {name}, done + {name};
      }
      assert done == ov.fields.Keys * nv.fields.Keys;
    }

    method CompareEntry(ov: Json, nv: Json, here: seq<Text>)
      modifies out
      ensures out.Reported() == old(out.Reported()) + EntryFlags(agent, here, ov, nv)
      decreases ov, 4
    {
      if !PyEq(ov, nv) {
        Compare(ov, nv, here);
      }
    }

    method CompareItems(ov: Json, nv: Json, here: seq<Text>)
      modifies out
      ensures out.Reported() == old(out.Reported()) + ItemsFlags(agent, here, ov, nv)
      decreases ov, 5
    {
      if ov.Obj? && nv.Obj? {
        Compare(ov, nv, here);
      } else if ov.Arr? && nv.Arr? && |ov.items| == |nv.items| {
        for n := 0 to |ov.items|
          invariant out.Reported() == old(out.Reported()) + PositionsFlags(agent, here, ov, nv, n)
        {
          CompareEntry(ov.items[n], nv.items[n], here + [Index(n)]);
        }
      } else if !PyEq(ov, nv) {
        out.Flag(Relaxation(agent, here, Some(Kw(Items)), Some(ov), Some(nv)));
      }
    }

    method CompareAdditional(ov: Json, nv: Json, here: seq<Text>)
      modifies out
      ensures out.Reported() == old(out.Reported()) + AdditionalFlags(agent, here, ov, nv)
      decreases ov, 5
    {
      if Rank(nv) > Rank(ov) {
        out.Flag(Relaxation(agent, here, Some(Kw(AdditionalProperties)), Some(ov), Some(nv)));
      } else if Rank(nv) == Rank(ov) && ov.Obj? && nv.Obj? {
        Compare(ov, nv, here);
      }
    }
  }

  /** Compares the input schema of every agent present in both manifests. */
  method SchemaRelaxationDiff(was: Manifest, now: Manifest) returns (relaxations: seq<Relaxation>)
    ensures forall r :: r in relaxations <==> r in DiffFlags(was, now, was.Keys * now.Keys)
  {
    var out := new FlagList();
    var rest := was.Keys * now.Keys;
    ghost var done: set<string> := {};
    while rest != {}
      invariant fresh(out)
      invariant done + rest == was.Keys * now.Keys
      invariant out.Reported() == DiffFlags(was, now, done)
      decreases rest
    {
      var name :| name in rest;
      var comparator := new Comparator(name, out);
      comparator.Compare(was[name], now[name], []);
      rest, done := rest - {name}, done + {name};
    }
    relaxations := out.flags;
    assert done == was.Keys * now.Keys;
  }

  /** The gate in front of a deployment. It lets through exactly the manifests in which every agent's input schema is kept
      or tightened, and then none accepts more than before. */
  method CheckNoSchemaRelaxation(was: Manifest, now: Manifest, ghost d: Dialect) returns (passed: bool)
    ensures passed <==> DiffFlags(was, now, was.Keys * now.Keys) == {}
    ensures passed <==> forall name :: name in was && name in now ==> OraclePrecision.Tightened(was[name], now[name])
    ensures passed ==>
      forall name, v | name in was && name in now && OracleSoundness.InFragment(d, was[name], now[name]) ::
        Admits(d, now[name], v) ==> Admits(d, was[name], v)
  {
    var relaxations := SchemaRelaxationDiff(was, now);
    passed := relaxations == [];
    PassesExactly(was, now);
    if passed {
      NoFlags(was, now, relaxations);
      forall name, v | name in was && name in now && OracleSoundness.InFragment(d, was[name], now[name]) && Admits(d, now[name], v)
        ensures Admits(d, was[name], v)
      {
        assert Flags(name, [], was[name], now[name]) == {};
        OracleSoundness.AdmitsShrinks(d, name, was[name], now[name], v);
      }
    } else {
      assert relaxations[0] in DiffFlags(was, now, was.Keys * now.Keys);
    }
  }

  lemma PassesExactly(was: Manifest, now: Manifest)
    ensures DiffFlags(was, now, was.Keys * now.Keys) == {} <==>
      forall name :: name in was && name in now ==> OraclePrecision.Tightened(was[name], now[name])
  {
    hide Flags, OraclePrecision.Tightened;
    forall name | name in was && name in now
      ensures Flags(name, [], was[name], now[name]) == {} <==> OraclePrecision.Tightened(was[name], now[name])
    {
      OraclePrecision.TightenedExactly(name, [], was[name], now[name]);
    }
    if name :| name in was && name in now && Flags(name, [], was[name], now[name]) != {} {
      var r :| r in Flags(name, [], was[name], now[name]);
      assert r in DiffFlags(was, now, was.Keys * now.Keys);
    }
  }

  lemma NoFlags(was: Manifest, now: Manifest, relaxations: seq<Relaxation>)
    requires forall r :: r in relaxations <==> r in DiffFlags(was, now, was.Keys * now.Keys)
    requires relaxations == []
    ensures DiffFlags(was, now, was.Keys * now.Keys) == {}
    ensures forall name :: name in was && name in now ==> Flags(name, [], was[name], now[name]) == {}
  {
    forall name | name in was && name in now ensures Flags(name, [], was[name], now[name]) == {} {
      forall r ensures r !in Flags(name, [], was[name], now[name]) {
        assert r !in DiffFlags(was, now, was.Keys * now.Keys);
      }
    }
  }
}
