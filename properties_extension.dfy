/** `PropertiesExtension`: the agent parameters reported by every agent
    properties provider are merged into one map. A later write to a name
    replaces the earlier value and is logged as a warning, a first write is
    logged as information, and a provider whose enumeration raises keeps
    what it already wrote and only stops its own enumeration. Providers run
    concurrently in the source; here they are merged one after another in
    list order. */
module PropertiesExtensions {
  import opened Common

  /** `AgentProperty` (its tool type is not read). */
  datatype AgentProperty = AgentProperty(name: string, value: string)

  /** A provider: the properties its enumeration yields, and whether the
      enumeration then ends by raising an exception. */
  datatype Provider = Provider(description: string, properties: seq<AgentProperty>, raises: bool)

  datatype LogLine = Warn(text: string) | Info(text: string) | Debug(text: string)

  function UpdateMessage(p: AgentProperty, previous: string): string {
    "Update " + p.name + "=\"" + p.value + "\". Previous value was \"" + previous + "\"."
  }

  function NewMessage(p: AgentProperty): string {
    p.name + "=\"" + p.value + "\"."
  }

  function ErrorMessage(provider: Provider): string {
    "Error while fetching the agent properties for " + provider.description
  }

  /** The log line of writing `p` into `m`. */
  function PutLine(m: map<string, string>, p: AgentProperty): (l: LogLine)
    ensures l.Warn? <==> p.name in m
  {
    if p.name in m then Warn(UpdateMessage(p, m[p.name])) else Info(NewMessage(p))
  }

  // ---------------------------------------------------------------------
  // One provider

  /** The map after writing `props` in order. */
  function Merge(m: map<string, string>, props: seq<AgentProperty>): map<string, string>
    decreases |props|
  {
    if props == [] then m
    else
      var last := props[|props| - 1];
      Merge(m, props[..|props| - 1])[last.name := last.value]
  }

  /** The log lines of writing `props` in order. */
  function MergeLog(m: map<string, string>, props: seq<AgentProperty>): (r: seq<LogLine>)
    ensures |r| == |props|
    ensures forall k :: 0 <= k < |r| ==> !r[k].Debug?
    decreases |props|
  {
    if props == [] then []
    else
      var init := props[..|props| - 1];
      MergeLog(m, init) + [PutLine(Merge(m, init), props[|props| - 1])]
  }

  /** Everything `fetchProperties` logs for one provider. */
  function ProviderLog(m: map<string, string>, provider: Provider): (r: seq<LogLine>)
    ensures |r| == |provider.properties| + (if provider.raises then 1 else 0)
    ensures (exists k :: 0 <= k < |r| && r[k].Debug?) <==> provider.raises
  {
    var written := MergeLog(m, provider.properties);
    if provider.raises then
      var r := written + [Debug(ErrorMessage(provider))];
      assert r[|r| - 1].Debug?;
      r
    else written
  }

  /** A name is a key after merging iff it was one before or some property
      has it. */
  lemma {:induction false} MergeKeys(m: map<string, string>, props: seq<AgentProperty>, k: string)
    ensures k in Merge(m, props) <==> k in m || exists i :: 0 <= i < |props| && props[i].name == k
    decreases |props|
  {
    if props != [] {
      var init := props[..|props| - 1];
      MergeKeys(m, init, k);
      assert forall i :: 0 <= i < |init| ==> init[i] == props[i];
    }
  }

  /** The value of a name is the one of the last property with that name. */
  lemma {:induction false} MergeLastWins(m: map<string, string>, props: seq<AgentProperty>, i: int)
    requires 0 <= i < |props|
    requires forall j :: i < j < |props| ==> props[j].name != props[i].name
    ensures props[i].name in Merge(m, props) && Merge(m, props)[props[i].name] == props[i].value
    decreases |props|
  {
    if i < |props| - 1 {
      var init := props[..|props| - 1];
      assert forall j :: i < j < |init| ==> init[j] == props[j];
      MergeLastWins(m, init, i);
    }
  }

  /** A name no property has keeps its value. */
  lemma {:induction false} MergeKeepsOthers(m: map<string, string>, props: seq<AgentProperty>, k: string)
    requires k in m && forall j :: 0 <= j < |props| ==> props[j].name != k
    ensures k in Merge(m, props) && Merge(m, props)[k] == m[k]
    decreases |props|
  {
    if props != [] {
      var init := props[..|props| - 1];
      assert forall j :: 0 <= j < |init| ==> init[j] == props[j];
      MergeKeepsOthers(m, init, k);
    }
  }

  /** Writing one list after another is writing their concatenation. */
  lemma {:induction false} MergeAppend(m: map<string, string>, a: seq<AgentProperty>, b: seq<AgentProperty>)
    ensures Merge(m, a + b) == Merge(Merge(m, a), b)
    decreases |b|
  {
    if b == [] {
      assert a + b == a;
    } else {
      var binit := b[..|b| - 1];
      assert (a + b)[..|a + b| - 1] == a + binit;
      MergeAppend(m, a, binit);
    }
  }

  /** The `i`-th write is logged as a warning iff its name was already
      present, whether or not the value differs. */
  lemma {:induction false} MergeLogWarns(m: map<string, string>, props: seq<AgentProperty>, i: int)
    requires 0 <= i < |props|
    ensures MergeLog(m, props)[i].Warn? <==>
      props[i].name in m || exists j :: 0 <= j < i && props[j].name == props[i].name
    decreases |props|
  {
    var init := props[..|props| - 1];
    if i < |props| - 1 {
      assert forall j :: 0 <= j <= i ==> init[j] == props[j];
      MergeLogWarns(m, init, i);
    } else {
      assert MergeLog(m, props)[i] == PutLine(Merge(m, init), props[i]);
      MergeKeys(m, init, props[i].name);
      assert forall j :: 0 <= j < i ==> init[j] == props[j];
    }
  }

  // ---------------------------------------------------------------------
  // All providers

  /** The map after every provider has been fetched, in list order. */
  function MergeAll(m: map<string, string>, providers: seq<Provider>): map<string, string>
    decreases |providers|
  {
    if providers == [] then m
    else Merge(MergeAll(m, providers[..|providers| - 1]), providers[|providers| - 1].properties)
  }

  function MergeAllLog(m: map<string, string>, providers: seq<Provider>): seq<LogLine>
    decreases |providers|
  {
    if providers == [] then []
    else
      var init := providers[..|providers| - 1];
      MergeAllLog(m, init) + ProviderLog(MergeAll(m, init), providers[|providers| - 1])
  }

  /** The properties of all providers, one provider after another. */
  function AllProperties(providers: seq<Provider>): seq<AgentProperty> {
    Flatten(seq(|providers|, i requires 0 <= i < |providers| => providers[i].properties))
  }

  /** Merging provider by provider is merging all their properties in
      order. */
  lemma {:induction false} MergeAllIsMerge(m: map<string, string>, providers: seq<Provider>)
    ensures MergeAll(m, providers) == Merge(m, AllProperties(providers))
    decreases |providers|
  {
    if providers != [] {
      var init := providers[..|providers| - 1];
      var last := providers[|providers| - 1];
      MergeAllIsMerge(m, init);
      var groups := seq(|providers|, i requires 0 <= i < |providers| => providers[i].properties);
      var initGroups := seq(|init|, i requires 0 <= i < |init| => init[i].properties);
      assert groups == initGroups + [last.properties];
      FlattenAppend(initGroups, [last.properties]);
      assert Flatten([last.properties]) == last.properties by {
        assert [last.properties][1..] == [];
      }
      MergeAppend(m, AllProperties(init), last.properties);
    }
  }

  /** A provider whose enumeration raises contributes the properties it had
      yielded, exactly as if it had ended normally: the map does not depend
      on which providers raised. */
  lemma {:induction false} RaisingKeepsEarlierEntries(m: map<string, string>, providers: seq<Provider>, i: int, raises: bool)
    requires 0 <= i < |providers|
    ensures MergeAll(m, providers[i := providers[i].(raises := raises)]) == MergeAll(m, providers)
    decreases |providers|
  {
    var changed := providers[i := providers[i].(raises := raises)];
    var n := |providers| - 1;
    if i < n {
      assert changed[..n] == providers[..n][i := providers[i].(raises := raises)];
      RaisingKeepsEarlierEntries(m, providers[..n], i, raises);
    } else {
      assert changed[..n] == providers[..n];
    }
  }

  /** Writing two properties. */
  lemma MergeTwo(m: map<string, string>, p: AgentProperty, q: AgentProperty)
    ensures Merge(m, [p, q]) == m[p.name := p.value][q.name := q.value]
  {
    assert [p, q][..1] == [p];
    assert [p][..0] == [];
    assert Merge(m, [p]) == Merge(m, [])[p.name := p.value];
    assert Merge(m, [p, q]) == Merge(m, [p])[q.name := q.value];
  }

  /** Fetching two providers. */
  lemma MergeAllTwo(m: map<string, string>, x: Provider, y: Provider)
    ensures MergeAll(m, [x, y]) == Merge(Merge(m, x.properties), y.properties)
  {
    assert [x, y][..1] == [x];
    assert [x][..0] == [];
    assert MergeAll(m, [x]) == Merge(MergeAll(m, []), x.properties);
    assert MergeAll(m, [x, y]) == Merge(MergeAll(m, [x]), y.properties);
  }

  /** The worked example: two providers sharing one name with the same
      value give three names, one value each. */
  lemma MergeExample(a: string, b: string, c: string, va: string, v: string, vc: string, d1: string, d2: string)
    requires a != b && b != c && a != c
    ensures var providers := [
        Provider(d1, [AgentProperty(a, va), AgentProperty(b, v)], false),
        Provider(d2, [AgentProperty(b, v), AgentProperty(c, vc)], false)];
      MergeAll(map[], providers) == map[a := va, b := v, c := vc]
  {
    var x := Provider(d1, [AgentProperty(a, va), AgentProperty(b, v)], false);
    var y := Provider(d2, [AgentProperty(b, v), AgentProperty(c, vc)], false);
    MergeAllTwo(map[], x, y);
    MergeTwo(map[], AgentProperty(a, va), AgentProperty(b, v));
    MergeTwo(map[a := va, b := v], AgentProperty(b, v), AgentProperty(c, vc));
    assert map[a := va, b := v][b := v][c := vc] == map[a := va, b := v, c := vc];
  }

  // ---------------------------------------------------------------------
  // The imperative merge

  /** The shared `MutableMap` the providers write into. */
  class ParameterMap {
    var entries: map<string, string>

    constructor ()
      ensures entries == map[]
    {
      entries := map[];
    }
  }

  class PropertiesExtension {
    /** What has been written to the class's logger. */
    var log: seq<LogLine>

    constructor ()
      ensures log == []
    {
      log := [];
    }

    /** `fetchProperties`. */
    method FetchProperties(provider: Provider, parameters: ParameterMap)
      modifies this, parameters
      ensures parameters.entries == Merge(old(parameters.entries), provider.properties)
      ensures log == old(log) + ProviderLog(old(parameters.entries), provider)
    {
      var props := provider.properties;
      for i := 0 to |props|
        invariant parameters.entries == Merge(old(parameters.entries), props[..i])
        invariant log == old(log) + MergeLog(old(parameters.entries), props[..i])
      {
        var property := props[i];
        assert props[..i + 1][..i] == props[..i] && props[..i + 1][i] == property;
        ghost var line := PutLine(parameters.entries, property);
        assert MergeLog(old(parameters.entries), props[..i + 1])
          == MergeLog(old(parameters.entries), props[..i]) + [line];
        AppendAssociative(old(log), MergeLog(old(parameters.entries), props[..i]), [line]);
        if property.name in parameters.entries {
          log := log + [Warn(UpdateMessage(property, parameters.entries[property.name]))];
        } else {
          log := log + [Info(NewMessage(property))];
        }
        parameters.entries := parameters.entries[property.name := property.value];
      }
      assert props[..|props|] == props;
      if provider.raises {
        log := log + [Debug(ErrorMessage(provider))];
      }
    }

    /** `getParameters`, with the providers fetched one after another. */
    method GetParameters(providers: seq<Provider>) returns (r: map<string, string>)
      modifies this
      ensures r == MergeAll(map[], providers)
      ensures log == old(log) + MergeAllLog(map[], providers)
    {
      var parameters := new ParameterMap();
      for i := 0 to |providers|
        invariant parameters.entries == MergeAll(map[], providers[..i])
        invariant log == old(log) + MergeAllLog(map[], providers[..i])
      {
        assert providers[..i + 1][..i] == providers[..i] && providers[..i + 1][i] == providers[i];
        assert MergeAllLog(map[], providers[..i + 1])
          == MergeAllLog(map[], providers[..i]) + ProviderLog(parameters.entries, providers[i]);
        AppendAssociative(old(log), MergeAllLog(map[], providers[..i]), ProviderLog(parameters.entries, providers[i]));
        FetchProperties(providers[i], parameters);
      }
      assert providers[..|providers|] == providers;
      r := parameters.entries;
    }
  }
}
