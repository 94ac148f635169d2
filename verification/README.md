# SEO agent core — a Dafny model

The SEO agent answers search-engine-optimisation questions in three steps:

- A language model plans steps. Each step names a server: Google Search Console ("gsc"), DataForSEO, "both" or "none".
- A tool selector gives each step at most six tool names from the tool registry.
- Generated Python code calls those tools inside an executor.

This project models the deterministic core of that pipeline and proves what it promises.

- **Tool registry** (`ToolRegistry.SeoTools`, a class):
  - a lazily built client;
  - a cached tool list and its name index;
  - lookups by name and by prefix;
  - the metadata map and `run_tool`.
- **Hint table** (`Hints`): the category → server → tool-name hints.
- **Tool selector** (`ToolSelector`):
  - the per-step heuristic: category pass, goal-keyword inference and server fallback;
  - the catalogue shown to the model;
  - post-processing of the model's answer;
  - the whole-plan selection with its fallback.
- **Executor** (`Executor`):
  - `clean_generated_code`, with both regular-expression substitutions written out as scanners;
  - the result envelope of `execute`.
- **Code generator** (`CodeGen`): the per-step tool catalogue.

The supporting modules are:

- `Wrappers`: Option and Result.
- `Json`: Python values and their truthiness.
- `Text`: lower-casing, substring search and Python's whitespace strip.
- `Seqs`: order-preserving de-duplication and slicing.
- `Planner`: the plan datatypes.

The selector's functions take the hint table as a parameter. `select_for_plan` passes `Hints.Table`, and the lemmas about that table pass it too.

Loops in the source are methods with loop invariants, each proved equal to a specification function. The properties are lemmas about those functions.

## Model

| member | source | states |
|---|---|---|
| ToolRegistry.SeoTools.constructor | src/tools/seo_tools.py:19-23 | a new registry has no client, no cached tools and an empty index |
| ToolRegistry.SeoTools.Client | src/tools/seo_tools.py:55-60 | the client is built on first use only; once built, the same client is returned and no other is built |
| ToolRegistry.SeoTools.IndexTools | src/tools/seo_tools.py:75-85 | the index is rebuilt from scratch: exactly the truthy names, each mapped to the last tool carrying it, keys in first-insertion order |
| ToolRegistry.SeoTools.LoadTools | src/tools/seo_tools.py:65-73 | tools are fetched and re-indexed when nothing is cached or a reload is forced; otherwise the cache and the index are returned unchanged |
| ToolRegistry.SeoTools.GetAllTools | src/tools/seo_tools.py:90-92 | the result is the served list on first load or forced reload, else the cached list |
| ToolRegistry.SeoTools.GetToolByName | src/tools/seo_tools.py:94-97 | the result is the indexed tool of that exact name, or None when the index lacks it; an existing client is kept and no second one is built |
| ToolRegistry.SeoTools.GetToolsByPrefix | src/tools/seo_tools.py:99-106 | the result is the indexed tools whose names start with the prefix, in index order, one per name; an existing client is kept and no second one is built |
| ToolRegistry.SeoTools.GetToolsMetadata | src/tools/seo_tools.py:108-126 | the result is the metadata map of the loaded tools; an existing client is kept and no second one is built |
| ToolRegistry.SeoTools.RunTool | src/tools/seo_tools.py:128-143 | an unknown name fails with "Tool not found: <name>"; a known one invokes the indexed tool with the arguments; an existing client is kept and no second one is built |
| ToolRegistry.NamedNames | src/tools/seo_tools.py:81-85 | a name is listed exactly when some tool carries it as a truthy name |
| ToolRegistry.IndexMapSpec | src/tools/seo_tools.py:81-85 | the index holds a name iff some tool has it; the tool held is the last one with that name |
| ToolRegistry.IndexKeysInOrder | src/tools/seo_tools.py:81-85 | the key order lists exactly the indexed names |
| ToolRegistry.PrefixNames | src/tools/seo_tools.py:102-106 | the prefix filter keeps exactly the names that start with the prefix, without repetitions |
| ToolRegistry.PrefixKeys | src/tools/seo_tools.py:102-106 | the prefix keys are exactly the indexed names that start with the prefix, each once |
| ToolRegistry.PrefixTools | src/tools/seo_tools.py:102-106 | the result has one tool per prefix key, in key order: the tool the index holds for it |
| ToolRegistry.MetadataSpec | src/tools/seo_tools.py:115-124 | the metadata has a key iff the index has it; its entry is the defaulted description and schema of the indexed tool |
| ToolRegistry.MetaEntryDefaults | src/tools/seo_tools.py:119-120 | a missing description becomes ""; a missing or falsy schema becomes {} |
| Hints.HintsInFirstEntry | src/agents/seo_tool_selector.py:407-408 | the first entry for a category decides the lookup: its names for its own server, and [] for any other server |
| Hints.HintsInNoEntry | src/agents/seo_tool_selector.py:407-408 | a category the table lacks has no hints for any server |
| Hints.CollectedInSpec | src/agents/seo_tool_selector.py:477-480 | the collected list holds exactly the names listed for the server in some category |
| Hints.HintServersSpec | src/agents/seo_tool_selector.py:281-288 | a server is recorded for a name iff an entry of that server lists the name |
| Hints.HintCategoriesSpec | src/agents/seo_tool_selector.py:281-288 | a category is recorded for a name iff an entry of that category lists the name |
| Hints.NoHintsWithoutEntries | src/agents/seo_tool_selector.py:407-408 | a server without table entries gets no hints and nothing collected |
| Hints.TableOnlyGscAndDataForSeo | src/agents/seo_tool_selector.py:8-180 | the table lists nothing under "both" or "none" |
| ToolSelector.ToolNames | src/agents/seo_tool_selector.py:254-256 | one name per tool, in order: the tool's name or `tool_<index>` |
| ToolSelector.ToolsByNameKeys | src/agents/seo_tool_selector.py:254-256 | the key list of `tools_by_name` has no repetitions and holds exactly the tools' names |
| ToolSelector.CategoryAdmits | src/agents/seo_tool_selector.py:410-422 | the category pass admits a name iff some hint of the category and server occurs in it, ignoring case; the "gsc" marker alone never admits |
| ToolSelector.AdmittedIn | src/agents/seo_tool_selector.py:410-422 | the names admitted for one category are exactly the keys that some hint matches |
| ToolSelector.CategoryCandidatesMatchHints | src/agents/seo_tool_selector.py:406-422 | a name is a category candidate iff it is a key of `tools_by_name` and contains, ignoring case, a hint of one of the step's categories for the step's server |
| ToolSelector.InferredIn | src/agents/seo_tool_selector.py:431-439 | the inferred pass keeps exactly the keys that match a hint (dataforseo) or that contain "gsc" and match a hint (gsc) |
| ToolSelector.KnownIn | src/agents/seo_tool_selector.py:484-487 | the kept names are exactly the collected names that are keys |
| ToolSelector.KnownInKeepsOrder | src/agents/seo_tool_selector.py:484-487 | the kept names follow the order of the collected list |
| ToolSelector.FirstMatchSpec | src/agents/seo_tool_selector.py:491-520 | the inferred category is the first keyword group in priority order that applies; None means that no group applies |
| ToolSelector.InferCategoryIgnoresCase | src/agents/seo_tool_selector.py:492 | inference sees the goal lower-cased, so lower-casing it first changes nothing |
| ToolSelector.InferredGscCategoriesNeedGsc | src/agents/seo_tool_selector.py:503-512 | gsc_performance, gsc_queries and gsc_pages are inferred only for a gsc step |
| ToolSelector.RankingIsNeverRankTracking | src/agents/seo_tool_selector.py:500-518 | a goal containing "ranking" infers backlinks, keywords or serp, never rank_tracking |
| ToolSelector.FallbackSpec | src/agents/seo_tool_selector.py:468-489 | "none" gets []; any other server gets the first `max_tools` distinct registry names listed for it (all of them when fewer), each once, in the table's first-listed order; a listed registry name is left out only when `max_tools` names were already taken |
| ToolSelector.FallbackEmptyForNoneAndBoth | src/agents/seo_tool_selector.py:474-480 | the fallback is empty for "none" and for "both" |
| ToolSelector.FallbackWithoutCollected | src/agents/seo_tool_selector.py:474-489 | a server under which the table lists no names gets an empty fallback |
| Seqs.FirstSeenTake | src/agents/seo_tool_selector.py:441 | `list(dict.fromkeys(xs))[:k]` gives the first k distinct elements of xs in first-seen order, all of them when fewer |
| ToolSelector.AdmittedWithoutHints | src/agents/seo_tool_selector.py:421 | without hints the category pass admits nothing |
| ToolSelector.BothStepHasNoCategoryCandidates | src/agents/seo_tool_selector.py:406-422 | a "both" step never has category candidates |
| ToolSelector.HeuristicSpec | src/agents/seo_tool_selector.py:389-466 | a heuristic selection copies the step's id, server and goal; a "none" step gets no names and the reasoning-only note; in every case there are at most six distinct names, all keys |
| ToolSelector.CategoryPassSpec | src/agents/seo_tool_selector.py:424-458 | with category candidates: the category note and the first six distinct candidates in first-seen order (all when fewer), each matching a hint of a step category |
| ToolSelector.InferredPassSpec | src/agents/seo_tool_selector.py:426-445 | with no category candidates and a non-empty inferred pass: the inferred-category note and the first six distinct inferred candidates in first-seen order (all when fewer) |
| ToolSelector.FallbackPassSpec | src/agents/seo_tool_selector.py:446-458 | with no category candidates and no inferred names: the fallback note and exactly the server fallback's names |
| ToolSelector.CollectHints | src/agents/seo_tool_selector.py:477-480 | the loop collects the server's hint names category by category |
| ToolSelector.KnownUnique | src/agents/seo_tool_selector.py:482-487 | the loop keeps the first occurrence of each collected name that is a key |
| ToolSelector.FallbackToolsForServer | src/agents/seo_tool_selector.py:468-489 | `_fallback_tools_for_server` equals the fallback specification |
| ToolSelector.AdmitPass | src/agents/seo_tool_selector.py:410-422 | the key loop of one category equals the admitted names |
| ToolSelector.CategoryPass | src/agents/seo_tool_selector.py:406-422 | the category loops equal the category candidates |
| ToolSelector.InferredPass | src/agents/seo_tool_selector.py:431-439 | the inferred loop equals the inferred candidates |
| ToolSelector.SelectForStep | src/agents/seo_tool_selector.py:389-466 | `_select_for_step` equals the heuristic selection |
| ToolSelector.InferOrFallback | src/agents/seo_tool_selector.py:426-453 | with no category candidates: the inferred category's tools and note when inference finds some, otherwise the server fallback and the fallback note |
| ToolSelector.HintMaps | src/agents/seo_tool_selector.py:281-288 | the nested loops record, for every name, exactly the servers and the categories whose hints list it |
| ToolSelector.AddHintEntry | src/agents/seo_tool_selector.py:286-288 | every name of one hint list gains that list's server and category; every other name keeps its sets |
| ToolSelector.BuildToolsCatalog | src/agents/seo_tool_selector.py:272-307 | one catalogue entry per tool, in order, with the tool's name, its description or "", and its hint servers and categories |
| ToolSelector.CatalogEntrySpec | src/agents/seo_tool_selector.py:284-296 | a catalogue entry lists a server or category iff the table lists the tool's exact name under it |
| ToolSelector.CatalogNames | src/agents/seo_tool_selector.py:247 | the valid names are exactly the catalogue's names |
| ToolSelector.CatalogNamesAreToolNames | src/agents/seo_tool_selector.py:247-256 | the catalogue's valid names are exactly the names `tools_by_name` is keyed by |
| ToolSelector.FilterValid | src/agents/seo_tool_selector.py:249 | the filter keeps exactly the names that are valid and is never longer than its input |
| ToolSelector.FilterValidAppend | src/agents/seo_tool_selector.py:249 | filtering distributes over concatenation, so the kept names keep their order |
| ToolSelector.FilterValidKeepsValid | src/agents/seo_tool_selector.py:249 | the filter changes nothing iff every name is valid |
| ToolSelector.FilterValidOfValid | src/agents/seo_tool_selector.py:249 | a list of valid names passes the filter unchanged |
| ToolSelector.PostProcessSpec | src/agents/seo_tool_selector.py:246-251 | post-processing keeps every step and its id, server, goal and notes; a step's names become the first min(6, number of valid names) of its valid names, in order |
| ToolSelector.PostProcessKeepsDuplicates | src/agents/seo_tool_selector.py:249-250 | a repeated valid name survives post-processing |
| ToolSelector.HeuristicPlan | src/agents/seo_tool_selector.py:257-260 | the fallback makes one heuristic selection per plan step, in plan order |
| ToolSelector.HeuristicStepsAt | src/agents/seo_tool_selector.py:257-260 | the selection at each position is the heuristic selection of the plan step at that position |
| ToolSelector.SelectedPlanBounds | src/agents/seo_tool_selector.py:228-266 | on either path, every step has at most six names, each a registry tool's name |
| ToolSelector.FallbackPlanFollowsPlan | src/agents/seo_tool_selector.py:252-266 | the fallback copies the query and summary and gives one selection per step with the step's id, server and goal |
| ToolSelector.SelectForPlan | src/agents/seo_tool_selector.py:228-266 | `select_for_plan` post-processes the model's answer, or falls back to the heuristic when the model call raised |
| ToolSelector.PostProcessAnswer | src/agents/seo_tool_selector.py:248-251 | the post-processing loop gives the post-processed answer |
| ToolSelector.FallbackSelections | src/agents/seo_tool_selector.py:257-266 | the fallback loop gives the heuristic plan |
| Executor.OpenFence | src/agents/seo_executor.py:18 | a match of the opening pattern starts with ``` and ends just after a newline |
| Executor.CloseFence | src/agents/seo_executor.py:19 | a match of the closing pattern starts with a newline and ```, and ends at the string's end or before a newline |
| Executor.CleanGeneratedCode | src/agents/seo_executor.py:8-29 | the cleaned code never starts or ends with whitespace |
| Executor.StripOpeningFenceFree | src/agents/seo_executor.py:18 | the opening substitution changes nothing in code without ``` |
| Executor.StripClosingFenceFree | src/agents/seo_executor.py:19 | the closing substitution changes nothing in code without ``` |
| Executor.SingleLineUntouched | src/agents/seo_executor.py:18-19 | neither substitution matches in code without a newline |
| Executor.StripClosingRemovesClose | src/agents/seo_executor.py:19 | a final newline and ``` after fence-free text is removed, and nothing else |
| Executor.OpeningFenceMatch | src/agents/seo_executor.py:18 | ```python, ```py or a bare ``` followed by a newline matches through the last newline of the whitespace that follows |
| Executor.CleanWithoutFences | src/agents/seo_executor.py:8-29 | code without ``` is only stripped |
| Executor.CleanFencedBlock | src/agents/seo_executor.py:8-29 | a text without ``` wrapped in a python, py or bare fence and a closing fence cleans to its strip; an already stripped text comes back unchanged |
| Executor.CleanSingleLineFence | src/agents/seo_executor.py:22-29 | a one-line snippet between two fences loses both fences |
| Executor.CleanLeadingFence | src/agents/seo_executor.py:23-24 | a leading ``` before one-line text is dropped |
| Executor.CleanNotIdempotent | src/agents/seo_executor.py:8-29 | a doubled leading fence loses one fence per pass, so cleaning twice differs from cleaning once |
| Executor.FreshNamespace | src/agents/seo_executor.py:66-72 | the namespace holds `run_tool` and nothing else |
| Executor.FreshNamespaceOnlyRunTool | src/agents/seo_executor.py:66-72 | no `run` from an earlier execution is visible |
| Executor.Execute | src/agents/seo_executor.py:53-109 | `execute` cleans the code, executes it in the fresh namespace and builds the envelope from what `exec` and `run()` did |
| Executor.ExecuteCleaned | src/agents/seo_executor.py:66-109 | once the code is cleaned, the envelope depends only on what `exec` did in the fresh namespace and what `run()` did |
| Executor.EnvelopeShape | src/agents/seo_executor.py:78-109 | `ok` iff a result is present iff no error; a traceback only with an error |
| Executor.CompileErrorEnvelope | src/agents/seo_executor.py:78-86 | a compile `Exception` gives "Error compiling generated code: <class>: <message>" and its traceback |
| Executor.MissingRunEnvelope | src/agents/seo_executor.py:89-94 | a missing or non-callable `run` gives the fixed message and no traceback |
| Executor.RunEnvelope | src/agents/seo_executor.py:97-109 | `run()` returning gives ok and its result; raising an `Exception` gives "Error during execution of run(): <class>: <message>" and its traceback |
| CodeGen.SpecFor | src/agents/seo_codegen.py:254-261 | a tool entry keeps the selected name; a name unknown to the metadata gets description "" and schema {} |
| CodeGen.StepTools | src/agents/seo_codegen.py:252-261 | a step's tool list matches its selected names in length and order, repetitions included |
| CodeGen.StepToolsAt | src/agents/seo_codegen.py:253-261 | each tool entry is the metadata entry of the name at that position |
| CodeGen.StepEntry | src/agents/seo_codegen.py:263-267 | a catalogue entry copies the step's goal and server and has one tool per selected name |
| CodeGen.BuildStepTools | src/agents/seo_codegen.py:252-261 | the inner loop builds the step's tool list |
| CodeGen.BuildToolsCatalog | src/agents/seo_codegen.py:223-269 | `_build_tools_catalog` equals the catalogue of the selection's steps |
| CodeGen.CatalogKeys | src/agents/seo_codegen.py:251-267 | the catalogue has a key iff some step has that id |
| CodeGen.CatalogLastWins | src/agents/seo_codegen.py:251-267 | the entry under an id is built from the last step with that id |
| CodeGen.SpecFromRegistry | src/agents/seo_codegen.py:254-261 | with the registry's own metadata, an indexed name gets its tool's description and schema, and any other name gets "" and {} |

## Left out

- The language-model calls are not modelled: planning, tool choice and code generation. The tool-choice answer is a parameter, `None` when the call raised. The prompt builders (`_build_prompt` and its code-generator counterpart) are not modelled.
- `_build_mcp_client` is not modelled: environment variables, server start-up and the network. The tools the client serves are a parameter, `served`. Invoking a tool is a parameter, `invoke`.
- `exec` and awaiting `run()` are not modelled. What they did is a parameter: an outcome of `exec` and a function from the `run` value to its outcome.
- An exception that is not an `Exception` (a `BaseException`) escapes `execute`. The model represents that as `None` and does not model its propagation.
- The set order of the servers and categories in the selector's catalogue is not modelled (they are sets). The insertion order of the code generator's catalogue keys is not modelled (it is a map).
- A failing `get_tools()` is not modelled: the source leaves `_tools` as it was and lets the exception propagate (src/tools/seo_tools.py:71). Concurrent awaits of `_load_tools` are not modelled either: two of them can both fetch. Each registry method is one atomic step here.
- Planning itself is not modelled; `PlanStep` and `QueryPlan` are plain datatypes.
- `Text.Lower` lower-cases ASCII letters only; Python's `str.lower` also folds other alphabets. The hint names and keywords are ASCII.
- `ToolSelector.ToolNames` treats a name attribute that is present but `None` like a missing one (`tool_<index>`). Python would use `None` as the key.
- The agent driver (`seo_agent.py`), the summariser, the web front end and the unrelated Wi-Fi script are not part of this model.

Two behaviours of the source are worth knowing:

- The post-processing filters the model's names and cuts them to six without removing duplicates (src/agents/seo_tool_selector.py:249-250). `ToolSelector.PostProcessKeepsDuplicates` shows a repeated name surviving.
- Cleaning is not idempotent (src/agents/seo_executor.py:18-29). `Executor.CleanNotIdempotent` shows a doubled leading fence losing one fence per pass.
