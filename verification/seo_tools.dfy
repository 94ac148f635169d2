/** The tool registry: a cache of the remote tool catalogue, an index of the
    tools by name, and lookups over that index. The remote client is an
    abstract source of tool records; what it serves at a given moment is
    passed in as `served`. */
module ToolRegistry {
  import opened Wrappers
  import opened Json
  import opened Seqs
  import opened Text

  /** A tool record as the remote client describes it. `None` stands for an
      attribute that is missing or set to None. */
  datatype Tool = Tool(name: Option<string>, description: Option<string>, argsSchema: Option<Json>)

  /** The handle of the multi-server client; building it touches the file
      system, environment and network, none of which is modelled. */
  datatype McpClient = McpClient

  /** `getattr(tool, "name", None)` when it is truthy. */
  function IndexName(t: Tool): Option<string> {
    if t.name.Some? && t.name.value != "" then t.name else None
  }

  /** `getattr(t, "description", "") or ""` */
  function DescriptionText(t: Tool): string {
    if t.description.Some? then t.description.value else ""
  }

  /** `getattr(t, "args_schema", {}) or {}` */
  function ArgsSchemaOrEmpty(t: Tool): Json {
    if t.argsSchema.Some? then OrDefault(t.argsSchema.value, EmptyObj) else EmptyObj
  }

  /** The truthy names of `tools`, in list order, repetitions included. */
  function NamedNames(tools: seq<Tool>): (r: seq<string>)
    ensures forall n :: n in r <==> exists i :: 0 <= i < |tools| && IndexName(tools[i]) == Some(n)
  {
    if tools == [] then []
    else
      var init := tools[..|tools| - 1];
      var r := NamedNames(init);
      assert forall i :: 0 <= i < |init| ==> init[i] == tools[i];
      match IndexName(tools[|tools| - 1])
      case Some(n) => r + [n]
      case None => r
  }

  /** The name index `_index_tools` builds from `tools`: every named tool
      under its name, a later tool overwriting an earlier one of the same name. */
  function IndexMap(tools: seq<Tool>): map<string, Tool> {
    if tools == [] then map[]
    else
      var m := IndexMap(tools[..|tools| - 1]);
      match IndexName(tools[|tools| - 1])
      case Some(n) => m[n := tools[|tools| - 1]]
      case None => m
  }

  /** The index's key order: names in first-insertion order. */
  function IndexOrder(tools: seq<Tool>): seq<string> {
    Dedup(NamedNames(tools))
  }

  /** The index holds a name exactly when some tool carries it as a truthy
      name, and then it holds the last such tool. */
  lemma {:induction false} IndexMapSpec(tools: seq<Tool>, n: string)
    ensures n in IndexMap(tools) <==> n in NamedNames(tools)
    ensures n in IndexMap(tools) ==>
      exists i :: 0 <= i < |tools| && IndexName(tools[i]) == Some(n) && IndexMap(tools)[n] == tools[i]
        && forall j :: i < j < |tools| ==> IndexName(tools[j]) != Some(n)
  {
    if tools != [] {
      var init := tools[..|tools| - 1];
      IndexMapSpec(init, n);
      assert forall i :: 0 <= i < |init| ==> init[i] == tools[i];
      if IndexName(tools[|tools| - 1]) == Some(n) {
        assert IndexMap(tools)[n] == tools[|tools| - 1];
      } else if n in IndexMap(init) {
        var i :| 0 <= i < |init| && IndexName(init[i]) == Some(n) && IndexMap(init)[n] == init[i]
          && forall j :: i < j < |init| ==> IndexName(init[j]) != Some(n);
        assert IndexMap(tools)[n] == tools[i];
      }
    }
  }

  /** The key set of the index is the set of names in its key order. */
  lemma IndexKeysInOrder(tools: seq<Tool>, n: string)
    ensures n in IndexMap(tools) <==> n in IndexOrder(tools)
  {
    IndexMapSpec(tools, n);
  }

  /** `map.get(key)` */
  function Get<K, V>(m: map<K, V>, k: K): (r: Option<V>)
    ensures r.Some? <==> k in m
    ensures r.Some? ==> r.value == m[k]
  {
    if k in m then Some(m[k]) else None
  }

  /** The index keys, in key order, that start with `prefix`. */
  function PrefixNames(order: seq<string>, prefix: string): (r: seq<string>)
    ensures forall n :: n in r <==> n in order && StartsWith(n, prefix)
    ensures Distinct(order) ==> Distinct(r)
  {
    if order == [] then []
    else
      var init := order[..|order| - 1];
      var last := order[|order| - 1];
      var r := PrefixNames(init, prefix);
      assert forall n :: n in order <==> n in init || n == last;
      if StartsWith(last, prefix) then r + [last] else r
  }

  /** The index keys that start with `prefix`, in key order: exactly the
      indexed names with that prefix, each once. */
  function PrefixKeys(tools: seq<Tool>, prefix: string): (keys: seq<string>)
    ensures forall n :: n in keys <==> n in IndexMap(tools) && StartsWith(n, prefix)
    ensures Distinct(keys)
  {
    var keys := PrefixNames(IndexOrder(tools), prefix);
    assert forall n :: n in IndexMap(tools) <==> n in IndexOrder(tools) by {
      forall n ensures n in IndexMap(tools) <==> n in IndexOrder(tools) {
        IndexKeysInOrder(tools, n);
      }
    }
    keys
  }

  /** `get_tools_by_prefix` over a loaded list: the indexed tools under the
      keys that start with `prefix`, in key order. */
  function PrefixTools(tools: seq<Tool>, prefix: string): (r: seq<Tool>)
    ensures var keys := PrefixKeys(tools, prefix);
      |r| == |keys| && forall k :: 0 <= k < |keys| ==> r[k] == IndexMap(tools)[keys[k]]
  {
    var keys := PrefixKeys(tools, prefix);
    seq(|keys|, k requires 0 <= k < |keys| => IndexMap(tools)[keys[k]])
  }

  /** The `{description, args_schema}` entry the registry reports for a tool. */
  function MetaEntry(t: Tool): map<string, Json> {
    map["description" := Str(DescriptionText(t)), "args_schema" := ArgsSchemaOrEmpty(t)]
  }

  /** `get_tools_metadata` over `tools`: one entry per truthy name, the last
      tool of that name winning. */
  function MetadataOf(tools: seq<Tool>): map<string, map<string, Json>> {
    if tools == [] then map[]
    else
      var m := MetadataOf(tools[..|tools| - 1]);
      match IndexName(tools[|tools| - 1])
      case Some(n) => m[n := MetaEntry(tools[|tools| - 1])]
      case None => m
  }

  /** The metadata has a key per named tool and no other; each entry is the
      defaulted description and argument schema of the last tool of that name,
      so it agrees with the name index. */
  lemma {:induction false} MetadataSpec(tools: seq<Tool>, n: string)
    ensures n in MetadataOf(tools) <==> n in IndexMap(tools)
    ensures n in MetadataOf(tools) ==> MetadataOf(tools)[n] == MetaEntry(IndexMap(tools)[n])
  {
    if tools != [] {
      MetadataSpec(tools[..|tools| - 1], n);
    }
  }

  /** A described tool keeps its description and a truthy schema; otherwise
      the entry falls back to "" and {}. */
  lemma MetaEntryDefaults(t: Tool)
    ensures MetaEntry(t)["description"] == (if t.description.Some? then Str(t.description.value) else Str(""))
    ensures t.argsSchema.Some? && Truthy(t.argsSchema.value) ==> MetaEntry(t)["args_schema"] == t.argsSchema.value
    ensures t.argsSchema.None? || !Truthy(t.argsSchema.value) ==> MetaEntry(t)["args_schema"] == EmptyObj
  {
  }

  class SeoTools {
    /** `_client`: created on first use and then kept. */
    var client: Option<McpClient>
    /** How many times a client has been built. */
    ghost var clientBuilds: nat
    /** `_tools`: the cached tool list, None until first loaded. */
    var tools: Option<seq<Tool>>
    /** `_tools_by_name`, as its key order and its mapping. */
    var indexOrder: seq<string>
    var toolsByName: map<string, Tool>

    /** At most one client is ever built, and a cached list was fetched
        through it. */
    ghost predicate ClientValid()
      reads this
    {
      && clientBuilds <= 1 && (client.Some? <==> clientBuilds == 1)
      && (tools.Some? ==> client.Some?)
    }

    /** The index is the one built from the cached list. */
    ghost predicate Valid()
      reads this
    {
      && ClientValid()
      && toolsByName == IndexMap(if tools.Some? then tools.value else [])
      && indexOrder == IndexOrder(if tools.Some? then tools.value else [])
    }

    constructor ()
      ensures Valid()
      ensures client == None && tools == None && toolsByName == map[] && indexOrder == []
    {
      client := None;
      clientBuilds := 0;
      tools := None;
      indexOrder := [];
      toolsByName := map[];
    }

    /** The `client` property: builds the client the first time only. */
    method Client() returns (c: McpClient)
      requires ClientValid()
      modifies this`client, this`clientBuilds
      ensures ClientValid() && client == Some(c)
      ensures old(client).Some? ==> client == old(client) && clientBuilds == old(clientBuilds)
    {
      if client.None? {
        client := Some(McpClient);
        clientBuilds := clientBuilds + 1;
      }
      c := client.value;
    }

    /** `_index_tools`: clears the index, then files every named tool under
        its name. */
    method IndexTools()
      requires ClientValid()
      modifies this`toolsByName, this`indexOrder
      ensures Valid()
    {
      toolsByName := map[];
      indexOrder := [];
      if tools.None? || tools.value == [] {
        return;
      }
      var ts := tools.value;
      var i := 0;
      while i < |ts|
        invariant 0 <= i <= |ts|
        invariant toolsByName == IndexMap(ts[..i])
        invariant indexOrder == IndexOrder(ts[..i])
      {
        assert ts[..i + 1][..i] == ts[..i];
        match IndexName(ts[i]) {
          case Some(n) =>
            IndexKeysInOrder(ts[..i], n);
            if n !in toolsByName {
              indexOrder := indexOrder + [n];
            }
            toolsByName := toolsByName[n := ts[i]];
          case None =>
        }
        i := i + 1;
      }
      assert ts[..i] == ts;
    }

    /** `_load_tools`: fetches from the client only when nothing is cached or
        a reload is forced; otherwise the cache and its index stay as they are. */
    method LoadTools(forceReload: bool, served: seq<Tool>) returns (ts: seq<Tool>)
      requires Valid()
      modifies this
      ensures Valid() && tools == Some(ts)
      ensures old(tools).None? || forceReload ==> ts == served && client.Some?
      ensures old(tools).Some? && !forceReload ==>
        ts == old(tools).value && toolsByName == old(toolsByName) && indexOrder == old(indexOrder)
      ensures old(client).Some? ==> client == old(client) && clientBuilds == old(clientBuilds)
    {
      if tools.None? || forceReload {
        var c := Client();
        tools := Some(served);
        IndexTools();
      }
      ts := tools.value;
    }

    /** `get_all_tools` */
    method GetAllTools(forceReload: bool, served: seq<Tool>) returns (ts: seq<Tool>)
      requires Valid()
      modifies this
      ensures Valid() && tools == Some(ts)
      ensures ts == if old(tools).None? || forceReload then served else old(tools).value
      ensures old(client).Some? ==> client == old(client) && clientBuilds == old(clientBuilds)
    {
      ts := LoadTools(forceReload, served);
    }

    /** `get_tool_by_name`: the indexed tool of that exact name, or None. */
    method GetToolByName(name: string, served: seq<Tool>) returns (r: Option<Tool>)
      requires Valid()
      modifies this
      ensures Valid() && tools == Some(if old(tools).None? then served else old(tools).value)
      ensures old(client).Some? ==> client == old(client) && clientBuilds == old(clientBuilds)
      ensures r == Get(IndexMap(tools.value), name)
    {
      var _ := LoadTools(false, served);
      r := Get(toolsByName, name);
    }

    /** `get_tools_by_prefix`: the indexed tools whose name starts with
        `prefix`, in index order. */
    method GetToolsByPrefix(prefix: string, served: seq<Tool>) returns (r: seq<Tool>)
      requires Valid()
      modifies this
      ensures Valid() && tools == Some(if old(tools).None? then served else old(tools).value)
      ensures old(client).Some? ==> client == old(client) && clientBuilds == old(clientBuilds)
      ensures r == PrefixTools(tools.value, prefix)
    {
      var ts := LoadTools(false, served);
      assert toolsByName == IndexMap(ts) && indexOrder == IndexOrder(ts);
      var keys := PrefixNames(indexOrder, prefix);
      assert keys == PrefixKeys(ts, prefix);
      var byName := toolsByName;
      r := seq(|keys|, k requires 0 <= k < |keys| => byName[keys[k]]);
      ghost var spec := PrefixTools(ts, prefix);
      assert |r| == |spec| && forall k :: 0 <= k < |r| ==> r[k] == spec[k];
    }

    /** `get_tools_metadata`: `{description, args_schema}` per named tool of
        the (cached or freshly loaded) list. */
    method GetToolsMetadata(served: seq<Tool>) returns (meta: map<string, map<string, Json>>)
      requires Valid()
      modifies this
      ensures Valid() && tools == Some(if old(tools).None? then served else old(tools).value)
      ensures old(client).Some? ==> client == old(client) && clientBuilds == old(clientBuilds)
      ensures meta == MetadataOf(tools.value)
    {
      var ts := GetAllTools(false, served);
      meta := map[];
      var i := 0;
      while i < |ts|
        invariant 0 <= i <= |ts|
        invariant meta == MetadataOf(ts[..i])
      {
        assert ts[..i + 1][..i] == ts[..i];
        var t := ts[i];
        match IndexName(t) {
          case Some(n) =>
            meta := meta[n := MetaEntry(t)];
          case None =>
        }
        i := i + 1;
      }
      assert ts[..i] == ts;
    }

    /** `run_tool`: "Tool not found: <name>" when the name is not indexed;
        otherwise the tool is invoked with `args` as given, and whatever the
        invocation returns or raises is passed on. */
    method RunTool(name: string, args: Json, served: seq<Tool>, invoke: (Tool, Json) -> Result<Json>)
      returns (r: Result<Json>)
      requires Valid()
      modifies this
      ensures Valid() && tools == Some(if old(tools).None? then served else old(tools).value)
      ensures old(client).Some? ==> client == old(client) && clientBuilds == old(clientBuilds)
      ensures name !in IndexMap(tools.value) ==> r == Err("Tool not found: " + name)
      ensures name in IndexMap(tools.value) ==> r == invoke(IndexMap(tools.value)[name], args)
    {
      var _ := LoadTools(false, served);
      var tool := Get(toolsByName, name);
      if tool.None? {
        return Err("Tool not found: " + name);
      }
      r := invoke(tool.value, args);
    }
  }
}
