/**
  The models of an agent: the registry that is built from the brain of an Agentfile.
 */
module Models {
  import opened Llm

  /** One entry of the brain: a name, and what the model is. */
  datatype ModelConfig = ModelConfig(name: string, model: string)

  datatype Brain = Brain(default: string, models: seq<ModelConfig>)

  /** Creating a model from its entry; None is an error. */
  type Create = ModelConfig -> Option<string>

  datatype Registry = Registry(models: map<string, string>, default: string) {
    function Default(): Option<string> {
      if default in models then Some(models[default]) else None
    }
  }

  /** The models created for the entries, later entries replacing earlier ones of the same name. */
  function Created(create: Create, entries: seq<ModelConfig>): map<string, string> {
    if entries == [] then map[]
    else
      var before, last := Created(create, entries[..|entries| - 1]), entries[|entries| - 1];
      match create(last)
      case Some(m) => before[last.name := m]
      case None => before
  }

  /** The names of the entries that are skipped. */
  function Skipped(create: Create, entries: seq<ModelConfig>): seq<string> {
    if entries == [] then []
    else
      var last := entries[|entries| - 1];
      Skipped(create, entries[..|entries| - 1]) + if create(last).None? then [last.name] else []
  }

  /** Some entry is the default one and cannot be created. */
  ghost predicate DefaultFails(create: Create, brain: Brain) {
    exists i :: 0 <= i < |brain.models| && brain.models[i].name == brain.default && create(brain.models[i]).None?
  }

  /** One bad entry is skipped with a warning, unless it is the default one. */
  method NewModelRegistry(create: Create, brain: Brain) returns (registry: Option<Registry>, warnings: seq<string>)
    ensures registry.None? <==> DefaultFails(create, brain)
    ensures registry.Some? ==> registry.value == Registry(Created(create, brain.models), brain.default)
    ensures registry.Some? ==> warnings == Skipped(create, brain.models)
  {
    var models := map[];
    warnings := [];
    for i := 0 to |brain.models|
      invariant models == Created(create, brain.models[..i]) && warnings == Skipped(create, brain.models[..i])
      invariant forall j :: 0 <= j < i && brain.models[j].name == brain.default ==> create(brain.models[j]).Some?
    {
      assert brain.models[..i + 1][..i] == brain.models[..i];
      var mc := brain.models[i];
      var m := create(mc);
      if m.None? {
        if mc.name == brain.default {
          return None, [];
        }
        warnings := warnings + [mc.name];
      } else {
        models := models[mc.name := m.value];
      }
    }
    assert brain.models[..|brain.models|] == brain.models;
    registry := Some(Registry(models, brain.default));
  }

  /** The model that a brain names: that of its last default entry, if all of them can be created. */
  function Named(create: Create, entries: seq<ModelConfig>, default: string): Option<string> {
    if entries == [] then None
    else
      var init, last := entries[..|entries| - 1], entries[|entries| - 1];
      if last.name == default then create(last) else Named(create, init, default)
  }

  lemma {:induction false} CreatedNamed(create: Create, entries: seq<ModelConfig>, default: string)
    requires forall i :: 0 <= i < |entries| && entries[i].name == default ==> create(entries[i]).Some?
    ensures Registry(Created(create, entries), default).Default() == Named(create, entries, default)
  {
    if entries != [] {
      CreatedNamed(create, entries[..|entries| - 1], default);
    }
  }

  /** The default model of a registry is the one its brain names. */
  lemma DefaultIsNamed(create: Create, brain: Brain)
    requires !DefaultFails(create, brain)
    ensures Registry(Created(create, brain.models), brain.default).Default() ==
            Named(create, brain.models, brain.default)
  {
    CreatedNamed(create, brain.models, brain.default);
  }
}
