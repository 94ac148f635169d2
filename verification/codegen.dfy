/** The code generator's per-step tool catalogue: for every step of a tool
    selection, the step's goal and server and, for each selected name, the
    description and argument schema the registry reports for it. The prompt
    built around it and the model call are not modelled. */
module CodeGen {
  import opened Json
  import opened Planner
  import opened ToolSelector
  import opened ToolRegistry

  /** One allowed tool of a step, as the generated code may call it. */
  datatype ToolSpec = ToolSpec(name: string, description: Json, argsSchema: Json)

  /** The catalogue entry of one step. */
  datatype StepCatalog = StepCatalog(stepGoal: string, server: Server, tools: seq<ToolSpec>)

  /** The tool entry for `name`: `tools_metadata.get(name, {})`, then its
      "description" defaulting to "" and its "args_schema" defaulting to {}.
      The name is kept whether or not the metadata knows it. */
  function SpecFor(name: string, meta: map<string, map<string, Json>>): (t: ToolSpec)
    ensures t.name == name
    ensures name !in meta ==> t.description == Str("") && t.argsSchema == EmptyObj
  {
    var m := if name in meta then meta[name] else map[];
    ToolSpec(
      name,
      if "description" in m then m["description"] else Str(""),
      if "args_schema" in m then m["args_schema"] else EmptyObj)
  }

  /** The step's tool list: one entry per selected name, in the selection's
      order, repetitions included. */
  function StepTools(names: seq<string>, meta: map<string, map<string, Json>>): (r: seq<ToolSpec>)
    ensures |r| == |names|
    ensures forall i :: 0 <= i < |names| ==> r[i].name == names[i]
  {
    if names == [] then []
    else StepTools(names[..|names| - 1], meta) + [SpecFor(names[|names| - 1], meta)]
  }

  /** The catalogue entry for one step selection. */
  function StepEntry(sel: ToolSelection, meta: map<string, map<string, Json>>): (e: StepCatalog)
    ensures e.stepGoal == sel.stepGoal && e.server == sel.server
    ensures |e.tools| == |sel.selectedToolNames|
  {
    StepCatalog(sel.stepGoal, sel.server, StepTools(sel.selectedToolNames, meta))
  }

  /** The catalogue after the steps `steps`, assigned in order, so a later
      step with the same id replaces an earlier one. */
  function CatalogOf(steps: seq<ToolSelection>, meta: map<string, map<string, Json>>): map<int, StepCatalog> {
    if steps == [] then map[]
    else
      var last := steps[|steps| - 1];
      CatalogOf(steps[..|steps| - 1], meta)[last.stepId := StepEntry(last, meta)]
  }

  /** The inner loop of `_build_tools_catalog`. */
  method BuildStepTools(names: seq<string>, meta: map<string, map<string, Json>>) returns (tools: seq<ToolSpec>)
    ensures tools == StepTools(names, meta)
  {
    tools := [];
    var j := 0;
    while j < |names|
      invariant 0 <= j <= |names|
      invariant tools == StepTools(names[..j], meta)
    {
      assert names[..j + 1][..j] == names[..j];
      tools := tools + [SpecFor(names[j], meta)];
      j := j + 1;
    }
    assert names[..|names|] == names;
  }

  /** `SEOCodeGenerator._build_tools_catalog`. */
  method BuildToolsCatalog(selection: PlanToolSelection, meta: map<string, map<string, Json>>)
    returns (catalog: map<int, StepCatalog>)
    ensures catalog == CatalogOf(selection.steps, meta)
  {
    var steps := selection.steps;
    catalog := map[];
    var i := 0;
    while i < |steps|
      invariant 0 <= i <= |steps|
      invariant catalog == CatalogOf(steps[..i], meta)
    {
      assert steps[..i + 1][..i] == steps[..i];
      var sel := steps[i];
      var stepTools := BuildStepTools(sel.selectedToolNames, meta);
      catalog := catalog[sel.stepId := StepCatalog(sel.stepGoal, sel.server, stepTools)];
      i := i + 1;
    }
    assert steps[..|steps|] == steps;
  }

  // ---------------------------------------------------------------------
  // What the catalogue promises
  // ---------------------------------------------------------------------

  /** Each tool entry is the metadata entry of the name at that position. */
  lemma {:induction false} StepToolsAt(names: seq<string>, meta: map<string, map<string, Json>>, i: nat)
    requires i < |names|
    ensures StepTools(names, meta)[i] == SpecFor(names[i], meta)
  {
    var init := names[..|names| - 1];
    if i < |init| {
      StepToolsAt(init, meta, i);
    }
  }

  /** The catalogue has exactly one key per step id of the selection. */
  lemma {:induction false} CatalogKeys(steps: seq<ToolSelection>, meta: map<string, map<string, Json>>, k: int)
    ensures k in CatalogOf(steps, meta) <==> exists i :: 0 <= i < |steps| && steps[i].stepId == k
  {
    if steps != [] {
      var init := steps[..|steps| - 1];
      CatalogKeys(init, meta, k);
      if exists i :: 0 <= i < |init| && init[i].stepId == k {
        var i :| 0 <= i < |init| && init[i].stepId == k;
        assert steps[i].stepId == k;
      }
      if exists i :: 0 <= i < |steps| && steps[i].stepId == k {
        var i :| 0 <= i < |steps| && steps[i].stepId == k;
        if i < |init| {
          assert init[i].stepId == k;
        }
      }
    }
  }

  /** The entry under a step id is built from the last selection with that
      id: its goal, its server and its tools. */
  lemma {:induction false} CatalogLastWins(steps: seq<ToolSelection>, meta: map<string, map<string, Json>>, i: nat)
    requires i < |steps|
    requires forall j :: i < j < |steps| ==> steps[j].stepId != steps[i].stepId
    ensures steps[i].stepId in CatalogOf(steps, meta)
    ensures CatalogOf(steps, meta)[steps[i].stepId] == StepEntry(steps[i], meta)
  {
    var init := steps[..|steps| - 1];
    if i < |init| {
      assert forall j :: i < j < |init| ==> init[j] == steps[j];
      CatalogLastWins(init, meta, i);
    }
  }

  /** Built from the registry's own metadata, a selected name that the
      registry indexes gets that tool's description and schema (with their
      defaults), and any other name gets "" and {}. */
  lemma SpecFromRegistry(tools: seq<Tool>, name: string)
    ensures var t := SpecFor(name, MetadataOf(tools));
      if name in IndexMap(tools) then
        t == ToolSpec(name, Str(DescriptionText(IndexMap(tools)[name])), ArgsSchemaOrEmpty(IndexMap(tools)[name]))
      else
        t == ToolSpec(name, Str(""), EmptyObj)
  {
    MetadataSpec(tools, name);
  }
}
