/** The tool selector: maps each plan step to at most six registry tool
    names. The language-model pass is a call whose outcome is given; what is
    modelled is its post-processing, the deterministic heuristic that
    replaces it when it fails, and the catalogue the pass is shown. */
module ToolSelector {
  import opened Wrappers
  import opened Text
  import opened Seqs
  import opened Planner
  import opened Hints
  import opened ToolRegistry

  /** `MAX_TOOLS_PER_STEP`, also the cap of the model-driven pass. */
  const MaxToolsPerStep: nat := 6
  /** The default `max_tools` of the server fallback. */
  const FallbackMaxTools: nat := 3

  const NoToolsNote := "No tools needed (reasoning-only step)."
  const CategoryNote := "Selected tools based on categories and name-hints."
  const FallbackNote := "Used fallback tools for server; no category-based match found."

  function InferredNote(category: string): string {
    "Selected tools based on inferred category '" + category + "' from step goal."
  }

  /** Selected tools for a single plan step. */
  datatype ToolSelection = ToolSelection(
    stepId: int,
    server: Server,
    stepGoal: string,
    selectedToolNames: seq<string>,
    notes: Option<string>)

  /** The per-step selections of a whole plan. */
  datatype PlanToolSelection = PlanToolSelection(
    originalQuery: string,
    summary: string,
    steps: seq<ToolSelection>)

  /** One line of the catalogue shown to the model: the servers and
      categories whose hints list the tool's exact name. */
  datatype CatalogEntry = CatalogEntry(
    name: string,
    description: string,
    servers: set<Server>,
    categories: set<string>)

  // ---------------------------------------------------------------------
  // Tool names as the selector sees them
  // ---------------------------------------------------------------------

  /** `getattr(t, "name", f"tool_{idx}")` */
  function ToolName(t: Tool, idx: nat): string {
    if t.name.Some? then t.name.value else "tool_" + NatToDecimal(idx)
  }

  function ToolNames(tools: seq<Tool>): (r: seq<string>)
    ensures |r| == |tools|
    ensures forall i :: 0 <= i < |tools| ==> r[i] == ToolName(tools[i], i)
  {
    seq(|tools|, i requires 0 <= i < |tools| => ToolName(tools[i], i))
  }

  /** The keys of `tools_by_name`, in dictionary order: each name once,
      where it first appears. */
  function ToolsByNameKeys(tools: seq<Tool>): (keys: seq<string>)
    ensures Distinct(keys)
    ensures forall n :: n in keys <==> n in ToolNames(tools)
  {
    Dedup(ToolNames(tools))
  }

  // ---------------------------------------------------------------------
  // Matching tool names against hints
  // ---------------------------------------------------------------------

  /** `any(hint.lower() in tool_name.lower() for hint in hints)` */
  predicate AnyHintIn(hints: seq<string>, name: string) {
    exists i :: 0 <= i < |hints| && Contains(Lower(name), Lower(hints[i]))
  }

  /** The category pass's test for one tool name. For a "gsc" step, a name
      containing "gsc" gets past the first check, but the last check still
      asks for a hint: the marker never admits a tool on its own. */
  predicate CategoryAdmits(server: Server, hints: seq<string>, name: string)
    ensures CategoryAdmits(server, hints, name) <==> AnyHintIn(hints, name)
  {
    if server == Gsc && !(AnyHintIn(hints, name) || Contains(Lower(name), "gsc")) then false
    else if server == DataForSeo && !AnyHintIn(hints, name) then false
    else AnyHintIn(hints, name)
  }

  /** The inferred-category pass's test: a hint for a "dataforseo" step, a
      hint and the "gsc" marker for a "gsc" step, nothing for other servers. */
  predicate InferredAdmits(server: Server, hints: seq<string>, name: string) {
    if server == DataForSeo then AnyHintIn(hints, name)
    else if server == Gsc then Contains(Lower(name), "gsc") && AnyHintIn(hints, name)
    else false
  }

  /** The names of `keys`, in order, that the category pass admits. */
  function AdmittedIn(server: Server, hints: seq<string>, keys: seq<string>): (r: seq<string>)
    ensures forall n :: n in r <==> n in keys && AnyHintIn(hints, n)
  {
    if keys == [] then []
    else
      var init := keys[..|keys| - 1];
      var last := keys[|keys| - 1];
      assert forall n :: n in keys <==> n in init || n == last;
      AdmittedIn(server, hints, init) + (if CategoryAdmits(server, hints, last) then [last] else [])
  }

  /** The candidates of the category pass before de-duplication: category by
      category, the admitted names in registry order. */
  function CategoryCandidates(server: Server, categories: seq<string>, keys: seq<string>, table: seq<HintEntry>): (r: seq<string>)
    ensures forall n :: n in r ==> n in keys
  {
    if categories == [] then []
    else
      var last := categories[|categories| - 1];
      CategoryCandidates(server, categories[..|categories| - 1], keys, table) + AdmittedIn(server, HintsIn(table, last, server), keys)
  }

  /** A name is a candidate of the category pass exactly when it is a key
      and contains (ignoring case) a hint of one of the step's categories for
      the step's server. */
  lemma {:induction false} CategoryCandidatesMatchHints(server: Server, categories: seq<string>, keys: seq<string>, n: string, table: seq<HintEntry>)
    ensures n in CategoryCandidates(server, categories, keys, table) <==>
      n in keys && exists c :: c in categories && AnyHintIn(HintsIn(table, c, server), n)
  {
    if categories != [] {
      var init := categories[..|categories| - 1];
      var last := categories[|categories| - 1];
      CategoryCandidatesMatchHints(server, init, keys, n, table);
      if n in CategoryCandidates(server, categories, keys, table) {
        if n in CategoryCandidates(server, init, keys, table) {
          var c :| c in init && AnyHintIn(HintsIn(table, c, server), n);
          assert c in categories;
        } else {
          assert AnyHintIn(HintsIn(table, last, server), n) && last in categories;
        }
      }
      if n in keys && exists c :: c in categories && AnyHintIn(HintsIn(table, c, server), n) {
        var c :| c in categories && AnyHintIn(HintsIn(table, c, server), n);
        if c !in init {
          assert c == last;
          assert n in AdmittedIn(server, HintsIn(table, last, server), keys);
        }
      }
    }
  }

  /** The names of `keys`, in order, that the inferred-category pass admits. */
  function InferredIn(server: Server, hints: seq<string>, keys: seq<string>): (r: seq<string>)
    ensures forall n :: n in r <==> n in keys && InferredAdmits(server, hints, n)
  {
    if keys == [] then []
    else
      var init := keys[..|keys| - 1];
      var last := keys[|keys| - 1];
      assert forall n :: n in keys <==> n in init || n == last;
      InferredIn(server, hints, init) + (if InferredAdmits(server, hints, last) then [last] else [])
  }

  /** The names of `names`, in order and with repetitions, that are keys of
      the registry. */
  function KnownIn(names: seq<string>, keys: seq<string>): (r: seq<string>)
    ensures forall n :: n in r <==> n in names && n in keys
  {
    if names == [] then []
    else
      var init := names[..|names| - 1];
      var last := names[|names| - 1];
      assert forall n :: n in names <==> n in init || n == last;
      KnownIn(init, keys) + (if last in keys then [last] else [])
  }

  /** Filtering keeps relative order: names seen earlier in the filtered
      list were seen earlier in the original. */
  lemma {:induction false} KnownInKeepsOrder(names: seq<string>, keys: seq<string>, x: string, y: string)
    requires x in KnownIn(names, keys) && y in KnownIn(names, keys)
    requires FirstIndex(KnownIn(names, keys), x) < FirstIndex(KnownIn(names, keys), y)
    ensures FirstIndex(names, x) < FirstIndex(names, y)
    decreases |names|, 1
  {
    if y in KnownIn(names[..|names| - 1], keys) {
      KnownInOrderWithinInit(names, keys, x, y);
    } else {
      KnownInOrderAtLast(names, keys, x, y);
    }
  }

  /** The case of `KnownInKeepsOrder` where both names are already met
      before the last one: by induction on the shorter list. */
  lemma {:induction false} KnownInOrderWithinInit(names: seq<string>, keys: seq<string>, x: string, y: string)
    requires x in KnownIn(names, keys) && y in KnownIn(names, keys)
    requires FirstIndex(KnownIn(names, keys), x) < FirstIndex(KnownIn(names, keys), y)
    requires names != [] && y in KnownIn(names[..|names| - 1], keys)
    ensures FirstIndex(names, x) < FirstIndex(names, y)
    decreases |names|, 0
  {
    var init := names[..|names| - 1];
    var f, fi := KnownIn(names, keys), KnownIn(init, keys);
    KnownInOfInit(names, keys);
    FirstSeenInPrefix(f, |fi|, x, y);
    KnownInKeepsOrder(init, keys, x, y);
    OrderFromPrefix(names, |names| - 1, x, y);
  }

  /** Names met in order within a prefix are met in that order in the
      whole sequence. */
  lemma OrderFromPrefix(s: seq<string>, n: nat, x: string, y: string)
    requires n <= |s| && x in s[..n] && y in s[..n]
    requires FirstIndex(s[..n], x) < FirstIndex(s[..n], y)
    ensures FirstIndex(s, x) < FirstIndex(s, y)
  {
    FirstIndexOfPrefix(s, n, x);
    FirstIndexOfPrefix(s, n, y);
  }

  /** The case of `KnownInKeepsOrder` where `y` is first met as the last
      name. */
  lemma KnownInOrderAtLast(names: seq<string>, keys: seq<string>, x: string, y: string)
    requires x in KnownIn(names, keys) && y in KnownIn(names, keys)
    requires FirstIndex(KnownIn(names, keys), x) < FirstIndex(KnownIn(names, keys), y)
    requires names != [] && y !in KnownIn(names[..|names| - 1], keys)
    ensures FirstIndex(names, x) < FirstIndex(names, y)
  {
    var init := names[..|names| - 1];
    var f, fi := KnownIn(names, keys), KnownIn(init, keys);
    KnownInOfInit(names, keys);
    FirstSeenBeforeLast(f, |fi|, x, y);
    assert x in init;
    assert y == names[|names| - 1];
    FirstIndexOfPrefix(names, |names| - 1, x);
  }

  /** The names kept from all but the last name are a prefix of those kept
      from the whole list, followed by at most the last name. */
  lemma KnownInOfInit(names: seq<string>, keys: seq<string>)
    requires names != []
    ensures var fi := KnownIn(names[..|names| - 1], keys);
      fi == KnownIn(names, keys)[..|fi|] && |KnownIn(names, keys)| <= |fi| + 1
  {
  }

  /** Two names met in order within a prefix of `s` are met in the same
      order in the prefix itself. */
  lemma FirstSeenInPrefix(s: seq<string>, n: nat, x: string, y: string)
    requires n <= |s| && x in s && y in s[..n]
    requires FirstIndex(s, x) <= FirstIndex(s, y)
    ensures x in s[..n] && FirstIndex(s[..n], x) == FirstIndex(s, x)
    ensures FirstIndex(s[..n], y) == FirstIndex(s, y)
  {
    FirstIndexOfPrefix(s, n, y);
    assert s[..n][FirstIndex(s, x)] == x;
    FirstIndexOfPrefix(s, n, x);
  }

  /** When only one element follows a prefix and `y` is not in the prefix,
      a name met before `y` lies in the prefix and `y` is that last element. */
  lemma FirstSeenBeforeLast(s: seq<string>, n: nat, x: string, y: string)
    requires n <= |s| <= n + 1 && x in s && y in s && y !in s[..n]
    requires FirstIndex(s, x) < FirstIndex(s, y)
    ensures x in s[..n] && n < |s| && y == s[n]
  {
    assert s[..n][FirstIndex(s, x)] == x;
  }

  // ---------------------------------------------------------------------
  // Category inference from the step goal
  // ---------------------------------------------------------------------

  const BacklinkWords: seq<string> := ["backlink", "referring domain", "anchor", "link profile"]
  const KeywordWords: seq<string> := ["keyword", "search volume", "cpc", "keyword research", "keyword idea"]
  const SerpWords: seq<string> := ["serp", "search result", "organic result", "ranking"]
  const PerformanceWords: seq<string> := ["performance", "traffic", "clicks", "impressions", "ctr"]
  const QueryWords: seq<string> := ["query", "queries", "search query"]
  const PageWords: seq<string> := ["page", "pages", "url", "landing page"]
  const TechnicalWords: seq<string> := ["sitemap", "indexing", "coverage", "technical", "audit"]
  const RankWords: seq<string> := ["rank", "position", "ranking"]

  /** `any(kw in text for kw in words)` */
  predicate AnyWord(words: seq<string>, text: string) {
    exists i :: 0 <= i < |words| && Contains(text, words[i])
  }

  /** A keyword group of the classifier, as a row of a priority table. */
  datatype KeywordGroup = KeywordGroup(category: string, words: seq<string>, gscOnly: bool)

  /** The classifier's groups in priority order. */
  const KeywordGroups: seq<KeywordGroup> := [
    KeywordGroup("backlinks", BacklinkWords, false),
    KeywordGroup("keywords", KeywordWords, false),
    KeywordGroup("serp", SerpWords, false),
    KeywordGroup("gsc_performance", PerformanceWords, true),
    KeywordGroup("gsc_queries", QueryWords, true),
    KeywordGroup("gsc_pages", PageWords, true),
    KeywordGroup("technical_audit", TechnicalWords, false),
    KeywordGroup("rank_tracking", RankWords, false)
  ]

  predicate GroupApplies(grp: KeywordGroup, text: string, server: Server) {
    (!grp.gscOnly || server == Gsc) && AnyWord(grp.words, text)
  }

  /** The category of the first group in `groups` that applies. */
  function FirstMatch(groups: seq<KeywordGroup>, text: string, server: Server): Option<string> {
    if groups == [] then None
    else if GroupApplies(groups[0], text, server) then Some(groups[0].category)
    else FirstMatch(groups[1..], text, server)
  }

  /** First match wins: a result names an applicable group with no applicable
      group before it, and None means that no group applies. */
  lemma {:induction false} FirstMatchSpec(groups: seq<KeywordGroup>, text: string, server: Server)
    ensures var r := FirstMatch(groups, text, server);
      && (r.Some? ==> exists i :: (0 <= i < |groups| && GroupApplies(groups[i], text, server)
            && groups[i].category == r.value && forall j :: 0 <= j < i ==> !GroupApplies(groups[j], text, server)))
      && (r.None? ==> forall i :: 0 <= i < |groups| ==> !GroupApplies(groups[i], text, server))
  {
    if groups != [] && !GroupApplies(groups[0], text, server) {
      FirstMatchSpec(groups[1..], text, server);
      var r := FirstMatch(groups[1..], text, server);
      if r.Some? {
        var i :| 0 <= i < |groups[1..]| && GroupApplies(groups[1..][i], text, server)
          && groups[1..][i].category == r.value && forall j :: 0 <= j < i ==> !GroupApplies(groups[1..][j], text, server);
        assert GroupApplies(groups[i + 1], text, server) && groups[i + 1].category == r.value
          && forall j :: 0 <= j < i + 1 ==> !GroupApplies(groups[j], text, server);
      } else {
        assert forall i :: 1 <= i < |groups| ==> groups[i] == groups[1..][i - 1];
      }
    }
  }

  /** `_infer_category_from_goal`: the if-chain of `any(kw in goal.lower() ...)`
      tests, read as the priority table above. */
  function InferCategory(goal: string, server: Server): Option<string> {
    FirstMatch(KeywordGroups, Lower(goal), server)
  }

  /** Lowering twice is lowering once. */
  lemma LowerTwice(s: string)
    ensures Lower(Lower(s)) == Lower(s)
  {
  }

  /** The classifier ignores the case of the goal. */
  lemma InferCategoryIgnoresCase(goal: string, server: Server)
    ensures InferCategory(Lower(goal), server) == InferCategory(goal, server)
  {
    LowerTwice(goal);
  }

  /** Only a "gsc" step can be classified into one of the gsc_* categories. */
  lemma InferredGscCategoriesNeedGsc(goal: string, server: Server)
    requires InferCategory(goal, server) in {Some("gsc_performance"), Some("gsc_queries"), Some("gsc_pages")}
    ensures server == Gsc
  {
    FirstMatchSpec(KeywordGroups, Lower(goal), server);
  }

  /** "ranking" belongs to the SERP group, which is read before the rank
      tracking group: a goal that mentions it is never put in rank_tracking. */
  lemma RankingIsNeverRankTracking(goal: string, server: Server)
    requires Contains(Lower(goal), "ranking")
    ensures InferCategory(goal, server) in {Some("backlinks"), Some("keywords"), Some("serp")}
  {
    var g := Lower(goal);
    assert SerpWords[3] == "ranking";
    assert GroupApplies(KeywordGroups[2], g, server);
    FirstMatchSpec(KeywordGroups, g, server);
  }

  // ---------------------------------------------------------------------
  // The heuristic fallback
  // ---------------------------------------------------------------------

  /** `_fallback_tools_for_server` as a value: the hint-table names for the
      server that the registry knows, each once, at most `maxTools`. */
  function FallbackFor(server: Server, keys: seq<string>, maxTools: nat, table: seq<HintEntry>): seq<string> {
    if server == NoServer then []
    else Take(Dedup(KnownIn(CollectedIn(table, server), keys)), maxTools)
  }

  /** `_select_for_step` as a value. */
  function Heuristic(step: PlanStep, keys: seq<string>, table: seq<HintEntry>): ToolSelection {
    if step.server == NoServer then
      ToolSelection(step.id, step.server, step.goal, [], Some(NoToolsNote))
    else
      var candidates := Dedup(CategoryCandidates(step.server, step.categories, keys, table));
      var (names, notes) :=
        if candidates != [] then (candidates, CategoryNote)
        else InferredOrFallback(step, keys, table);
      ToolSelection(step.id, step.server, step.goal, Take(names, MaxToolsPerStep), Some(notes))
  }

  /** The names and note of a step whose categories gave no candidate: the
      inferred category's tools when it has any, else the server fallback. */
  function InferredOrFallback(step: PlanStep, keys: seq<string>, table: seq<HintEntry>): (seq<string>, string) {
    match InferCategory(step.goal, step.server)
    case Some(category) =>
      var inferred := Take(Dedup(InferredIn(step.server, HintsIn(table, category, step.server), keys)), MaxToolsPerStep);
      if inferred != [] then (inferred, InferredNote(category))
      else (FallbackFor(step.server, keys, FallbackMaxTools, table), FallbackNote)
    case None => (FallbackFor(step.server, keys, FallbackMaxTools, table), FallbackNote)
  }

  /** The server fallback returns nothing for "none"; otherwise it returns
      the first `maxTools` distinct registry names listed for that server in
      the hint table (all of them when there are fewer), each once, in the
      order the table first lists them. */
  lemma FallbackSpec(server: Server, keys: seq<string>, maxTools: nat, table: seq<HintEntry>)
    ensures var r := FallbackFor(server, keys, maxTools, table);
      && (server == NoServer ==> r == [])
      && (server != NoServer ==> FirstSeen(r, KnownIn(CollectedIn(table, server), keys), maxTools))
      && (forall n :: server != NoServer && n in keys && n in CollectedIn(table, server) && |r| < maxTools ==> n in r)
      && |r| <= maxTools
      && Distinct(r)
      && (forall n :: n in r ==> n in keys && n in CollectedIn(table, server))
      && (forall i, j :: 0 <= i < j < |r| ==>
            FirstIndex(CollectedIn(table, server), r[i]) < FirstIndex(CollectedIn(table, server), r[j]))
  {
    if server != NoServer {
      var collected := CollectedIn(table, server);
      var known := KnownIn(collected, keys);
      var d := Dedup(known);
      TakeDistinct(d, maxTools);
      FirstSeenTake(known, maxTools);
      forall i, j | 0 <= i < j < |FallbackFor(server, keys, maxTools, table)|
        ensures FirstIndex(collected, d[i]) < FirstIndex(collected, d[j])
      {
        DedupFirstSeenOrder(known, i, j);
        KnownInKeepsOrder(collected, keys, d[i], d[j]);
      }
    }
  }

  /** A "none" step, and a "both" step (the table has no "both" entries),
      get nothing from the server fallback. */
  lemma FallbackEmptyForNoneAndBoth(keys: seq<string>, maxTools: nat)
    ensures FallbackFor(NoServer, keys, maxTools, Table) == []
    ensures FallbackFor(Both, keys, maxTools, Table) == []
  {
    assert CollectedIn(Table, Both) == [] by {
      TableOnlyGscAndDataForSeo("");
    }
    FallbackWithoutCollected(Both, keys, maxTools, Table);
  }

  /** A server with nothing collected has an empty fallback. */
  lemma FallbackWithoutCollected(server: Server, keys: seq<string>, maxTools: nat, table: seq<HintEntry>)
    requires CollectedIn(table, server) == []
    ensures FallbackFor(server, keys, maxTools, table) == []
  {
    assert KnownIn([], keys) == [];
  }

  /** With no hints, the category pass admits nothing. */
  lemma {:induction false} AdmittedWithoutHints(server: Server, keys: seq<string>)
    ensures AdmittedIn(server, [], keys) == []
  {
    if keys != [] {
      AdmittedWithoutHints(server, keys[..|keys| - 1]);
    }
  }

  /** In the category pass a "both" step finds no hints, so it has no candidates. */
  lemma {:induction false} BothStepHasNoCategoryCandidates(categories: seq<string>, keys: seq<string>)
    ensures CategoryCandidates(Both, categories, keys, Table) == []
  {
    if categories != [] {
      BothStepHasNoCategoryCandidates(categories[..|categories| - 1], keys);
      TableOnlyGscAndDataForSeo(categories[|categories| - 1]);
      AdmittedWithoutHints(Both, keys);
    }
  }

  /** The heuristic result for any step: the step's id, server and goal are
      copied; a "none" step gets no tools and the reasoning-only note; any
      step gets at most six distinct names, all keys of the registry. */
  lemma HeuristicSpec(step: PlanStep, keys: seq<string>, table: seq<HintEntry>)
    ensures var sel := Heuristic(step, keys, table);
      && sel.stepId == step.id && sel.server == step.server && sel.stepGoal == step.goal
      && (step.server == NoServer ==> sel.selectedToolNames == [] && sel.notes == Some(NoToolsNote))
      && |sel.selectedToolNames| <= MaxToolsPerStep
      && Distinct(sel.selectedToolNames)
      && forall n :: n in sel.selectedToolNames ==> n in keys
  {
    var sel := Heuristic(step, keys, table);
    if step.server != NoServer {
      var candidates := Dedup(CategoryCandidates(step.server, step.categories, keys, table));
      FallbackSpec(step.server, keys, FallbackMaxTools, table);
      if candidates == [] {
        match InferCategory(step.goal, step.server)
        case Some(category) =>
          var inferred := Dedup(InferredIn(step.server, HintsIn(table, category, step.server), keys));
          TakeDistinct(inferred, MaxToolsPerStep);
          TakeDistinct(Take(inferred, MaxToolsPerStep), MaxToolsPerStep);
          TakeDistinct(FallbackFor(step.server, keys, FallbackMaxTools, table), MaxToolsPerStep);
        case None =>
          TakeDistinct(FallbackFor(step.server, keys, FallbackMaxTools, table), MaxToolsPerStep);
      } else {
        TakeDistinct(candidates, MaxToolsPerStep);
      }
    }
  }

  /** When the category pass finds something it decides: the names are its
      candidates, each once and at most six, each containing (ignoring case)
      a hint of one of the step's categories for the step's server, in the
      order the pass first met them (category by category, registry order
      within a category). */
  lemma CategoryPassSpec(step: PlanStep, keys: seq<string>, table: seq<HintEntry>)
    requires step.server != NoServer
    requires CategoryCandidates(step.server, step.categories, keys, table) != []
    ensures var sel := Heuristic(step, keys, table);
      var raw := CategoryCandidates(step.server, step.categories, keys, table);
      && sel.notes == Some(CategoryNote)
      && 0 < |sel.selectedToolNames| <= MaxToolsPerStep
      && FirstSeen(sel.selectedToolNames, raw, MaxToolsPerStep)
      && (forall n :: n in sel.selectedToolNames ==> exists c :: c in step.categories && AnyHintIn(HintsIn(table, c, step.server), n))
      && (forall i, j :: 0 <= i < j < |sel.selectedToolNames| ==>
            FirstIndex(raw, sel.selectedToolNames[i]) < FirstIndex(raw, sel.selectedToolNames[j]))
  {
    var raw := CategoryCandidates(step.server, step.categories, keys, table);
    var d := Dedup(raw);
    assert raw[0] in d;
    var names := Take(d, MaxToolsPerStep);
    assert Heuristic(step, keys, table).selectedToolNames == names;
    FirstSeenTake(raw, MaxToolsPerStep);
    forall n | n in names ensures exists c :: c in step.categories && AnyHintIn(HintsIn(table, c, step.server), n) {
      CategoryCandidatesMatchHints(step.server, step.categories, keys, n, table);
    }
    forall i, j | 0 <= i < j < |names| ensures FirstIndex(raw, names[i]) < FirstIndex(raw, names[j]) {
      DedupFirstSeenOrder(raw, i, j);
    }
  }

  /** When the category pass finds nothing and the goal names a category
      whose pass finds something, the inferred pass decides: its names, cut
      to six, each matching a hint of the inferred category (and, for a "gsc"
      step, containing "gsc"), with the note naming the category. */
  lemma InferredPassSpec(step: PlanStep, keys: seq<string>, category: string, table: seq<HintEntry>)
    requires step.server != NoServer
    requires CategoryCandidates(step.server, step.categories, keys, table) == []
    requires InferCategory(step.goal, step.server) == Some(category)
    requires InferredIn(step.server, HintsIn(table, category, step.server), keys) != []
    ensures var sel := Heuristic(step, keys, table);
      && sel.notes == Some(InferredNote(category))
      && 0 < |sel.selectedToolNames| <= MaxToolsPerStep
      && FirstSeen(sel.selectedToolNames, InferredIn(step.server, HintsIn(table, category, step.server), keys), MaxToolsPerStep)
      && forall n :: n in sel.selectedToolNames ==> InferredAdmits(step.server, HintsIn(table, category, step.server), n)
  {
    var raw := InferredIn(step.server, HintsIn(table, category, step.server), keys);
    var d := Dedup(raw);
    assert raw[0] in d;
    TakeDistinct(Take(d, MaxToolsPerStep), MaxToolsPerStep);
    FirstSeenTake(raw, MaxToolsPerStep);
  }

  /** When neither the category pass nor the inferred category finds
      anything, the server fallback decides: its names (at most three, so the
      cut to six keeps them all) and the fallback note. */
  lemma FallbackPassSpec(step: PlanStep, keys: seq<string>, table: seq<HintEntry>)
    requires step.server != NoServer
    requires CategoryCandidates(step.server, step.categories, keys, table) == []
    requires match InferCategory(step.goal, step.server)
      case None => true
      case Some(category) => InferredIn(step.server, HintsIn(table, category, step.server), keys) == []
    ensures var sel := Heuristic(step, keys, table);
      && sel.notes == Some(FallbackNote)
      && sel.selectedToolNames == FallbackFor(step.server, keys, FallbackMaxTools, table)
  {
    assert Dedup<string>([]) == [];
  }

  // ---------------------------------------------------------------------
  // The heuristic as the source runs it
  // ---------------------------------------------------------------------

  /** The first loop of `_fallback_tools_for_server`: every entry's names
      for `server`, entry by entry. */
  method CollectHints(entries: seq<HintEntry>, server: Server) returns (collected: seq<string>)
    ensures collected == CollectedIn(entries, server)
  {
    collected := [];
    var e := 0;
    while e < |entries|
      invariant 0 <= e <= |entries|
      invariant collected == CollectedIn(entries[..e], server)
    {
      assert entries[..e + 1][..e] == entries[..e];
      var names := if entries[e].server == server then entries[e].names else [];
      collected := collected + names;
      e := e + 1;
    }
    assert entries[..e] == entries;
  }

  /** The second loop of `_fallback_tools_for_server`: each collected name
      the registry knows, once, where it is first met. */
  method KnownUnique(collected: seq<string>, keys: seq<string>) returns (unique: seq<string>)
    ensures unique == Dedup(KnownIn(collected, keys))
  {
    var seen: set<string> := {};
    unique := [];
    var k := 0;
    while k < |collected|
      invariant 0 <= k <= |collected|
      invariant unique == Dedup(KnownIn(collected[..k], keys))
      invariant forall n :: n in seen <==> n in unique
    {
      var n := collected[k];
      assert collected[..k + 1][..k] == collected[..k];
      var known := KnownIn(collected[..k], keys);
      if n in keys {
        assert KnownIn(collected[..k + 1], keys) == known + [n];
        assert (known + [n])[..|known|] == known;
      } else {
        assert KnownIn(collected[..k + 1], keys) == known;
      }
      if n !in seen && n in keys {
        seen := seen + {n};
        unique := unique + [n];
      }
      k := k + 1;
    }
    assert collected[..k] == collected;
  }

  /** `_fallback_tools_for_server`: collects the server's hint names in table
      order, then keeps each registry name once, up to `maxTools`. */
  method FallbackToolsForServer(server: Server, keys: seq<string>, maxTools: nat, table: seq<HintEntry>) returns (r: seq<string>)
    ensures r == FallbackFor(server, keys, maxTools, table)
  {
    if server == NoServer {
      return [];
    }
    var collected := CollectHints(table, server);
    var unique := KnownUnique(collected, keys);
    r := Take(unique, maxTools);
  }

  /** The inner loop of the category pass: the registry names, in order,
      through the source's checks for one category's hints. */
  method AdmitPass(server: Server, hints: seq<string>, keys: seq<string>) returns (admittedNames: seq<string>)
    ensures admittedNames == AdmittedIn(server, hints, keys)
  {
    admittedNames := [];
    var j := 0;
    while j < |keys|
      invariant 0 <= j <= |keys|
      invariant admittedNames == AdmittedIn(server, hints, keys[..j])
    {
      assert keys[..j + 1][..j] == keys[..j];
      var name := keys[j];
      var admitted := true;
      if server == Gsc {
        var inGscHints := AnyHintIn(hints, name);
        var hasGscInName := Contains(Lower(name), "gsc");
        if !(inGscHints || hasGscInName) {
          admitted := false;
        }
      }
      if server == DataForSeo && !AnyHintIn(hints, name) {
        admitted := false;
      }
      if admitted && AnyHintIn(hints, name) {
        admittedNames := admittedNames + [name];
      }
      j := j + 1;
    }
    assert keys[..j] == keys;
  }

  /** The category pass of `_select_for_step`: for every category of the
      step, the names its hints admit. */
  method CategoryPass(server: Server, categories: seq<string>, keys: seq<string>, table: seq<HintEntry>) returns (candidates: seq<string>)
    ensures candidates == CategoryCandidates(server, categories, keys, table)
  {
    candidates := [];
    var c := 0;
    while c < |categories|
      invariant 0 <= c <= |categories|
      invariant candidates == CategoryCandidates(server, categories[..c], keys, table)
    {
      assert categories[..c + 1][..c] == categories[..c];
      var hints := HintsIn(table, categories[c], server);
      var admitted := AdmitPass(server, hints, keys);
      assert CategoryCandidates(server, categories[..c + 1], keys, table)
          == CategoryCandidates(server, categories[..c], keys, table) + AdmittedIn(server, hints, keys);
      candidates := candidates + admitted;
      c := c + 1;
    }
    assert categories[..c] == categories;
  }

  /** The inferred-category pass of `_select_for_step`. */
  method InferredPass(server: Server, hints: seq<string>, keys: seq<string>) returns (candidates: seq<string>)
    ensures candidates == InferredIn(server, hints, keys)
  {
    candidates := [];
    var j := 0;
    while j < |keys|
      invariant 0 <= j <= |keys|
      invariant candidates == InferredIn(server, hints, keys[..j])
    {
      assert keys[..j + 1][..j] == keys[..j];
      var name := keys[j];
      if server == DataForSeo {
        if AnyHintIn(hints, name) {
          candidates := candidates + [name];
        }
      } else if server == Gsc {
        if Contains(Lower(name), "gsc") && AnyHintIn(hints, name) {
          candidates := candidates + [name];
        }
      }
      j := j + 1;
    }
    assert keys[..j] == keys;
  }

  /** `_select_for_step`: the category pass over every (category, registry
      name) pair, then the inferred-category pass, then the server fallback. */
  method SelectForStep(step: PlanStep, keys: seq<string>, table: seq<HintEntry>) returns (sel: ToolSelection)
    ensures sel == Heuristic(step, keys, table)
  {
    if step.server == NoServer {
      return ToolSelection(step.id, step.server, step.goal, [], Some(NoToolsNote));
    }
    var candidates := CategoryPass(step.server, step.categories, keys, table);
    candidates := Dedup(candidates);
    var notes: string;
    if candidates == [] {
      candidates, notes := InferOrFallback(step, keys, table);
    } else {
      notes := CategoryNote;
    }
    candidates := Take(candidates, MaxToolsPerStep);
    sel := ToolSelection(step.id, step.server, step.goal, candidates, Some(notes));
  }

  /** The branch of `_select_for_step` taken when the category pass found
      nothing. */
  method InferOrFallback(step: PlanStep, keys: seq<string>, table: seq<HintEntry>) returns (candidates: seq<string>, notes: string)
    ensures (candidates, notes) == InferredOrFallback(step, keys, table)
  {
    candidates := [];
    var inferred := InferCategory(step.goal, step.server);
    if inferred.Some? {
      var category := inferred.value;
      candidates := InferredPass(step.server, HintsIn(table, category, step.server), keys);
      candidates := Take(Dedup(candidates), MaxToolsPerStep);
      if candidates != [] {
        notes := InferredNote(category);
      } else {
        var fallback := FallbackToolsForServer(step.server, keys, FallbackMaxTools, table);
        assert candidates + fallback == fallback;
        candidates := candidates + fallback;
        notes := FallbackNote;
      }
    } else {
      var fallback := FallbackToolsForServer(step.server, keys, FallbackMaxTools, table);
      assert candidates + fallback == fallback;
      candidates := candidates + fallback;
      notes := FallbackNote;
    }
  }

  // ---------------------------------------------------------------------
  // The catalogue shown to the model
  // ---------------------------------------------------------------------

  /** `d.get(k, set())` */
  function Lookup<V>(m: map<string, set<V>>, k: string): set<V> {
    if k in m then m[k] else {}
  }

  /** The first loop of `_build_tools_catalog`: for every hint name, the
      servers and the categories of the entries listing it. */
  method HintMaps(entries: seq<HintEntry>) returns (toolServers: map<string, set<Server>>, toolCategories: map<string, set<string>>)
    ensures forall n :: Lookup(toolServers, n) == HintServers(entries, n)
    ensures forall n :: Lookup(toolCategories, n) == HintCategories(entries, n)
  {
    toolServers := map[];
    toolCategories := map[];
    var e := 0;
    while e < |entries|
      invariant 0 <= e <= |entries|
      invariant forall n :: Lookup(toolServers, n) == HintServers(entries[..e], n)
      invariant forall n :: Lookup(toolCategories, n) == HintCategories(entries[..e], n)
    {
      assert entries[..e + 1][..e] == entries[..e];
      toolServers, toolCategories := AddHintEntry(toolServers, toolCategories, entries[e]);
      e := e + 1;
    }
    assert entries[..e] == entries;
  }

  /** `m` is `base` with `v` added for each of `names`. */
  ghost predicate AddedFor<V>(m: map<string, set<V>>, base: map<string, set<V>>, names: seq<string>, v: V) {
    forall n :: Lookup(m, n) == Lookup(base, n) + (if n in names then {v} else {})
  }

  /** One `setdefault(name, set()).add(v)` extends the names by one. */
  lemma AddedForStep<V>(m: map<string, set<V>>, base: map<string, set<V>>, names: seq<string>, k: nat, v: V)
    requires k < |names| && AddedFor(m, base, names[..k], v)
    ensures AddedFor(m[names[k] := Lookup(m, names[k]) + {v}], base, names[..k + 1], v)
  {
    assert forall n :: n in names[..k + 1] <==> n in names[..k] || n == names[k];
  }

  /** The innermost loop of `_build_tools_catalog` for one (category, server)
      hint list: every listed name gains that server and that category. */
  method AddHintEntry(servers: map<string, set<Server>>, categories: map<string, set<string>>, entry: HintEntry)
    returns (toolServers: map<string, set<Server>>, toolCategories: map<string, set<string>>)
    ensures forall n :: Lookup(toolServers, n) == Lookup(servers, n) + (if n in entry.names then {entry.server} else {})
    ensures forall n :: Lookup(toolCategories, n) == Lookup(categories, n) + (if n in entry.names then {entry.category} else {})
  {
    toolServers := servers;
    toolCategories := categories;
    var k := 0;
    while k < |entry.names|
      invariant 0 <= k <= |entry.names|
      invariant AddedFor(toolServers, servers, entry.names[..k], entry.server)
      invariant AddedFor(toolCategories, categories, entry.names[..k], entry.category)
    {
      var hint := entry.names[k];
      AddedForStep(toolServers, servers, entry.names, k, entry.server);
      AddedForStep(toolCategories, categories, entry.names, k, entry.category);
      toolServers := toolServers[hint := Lookup(toolServers, hint) + {entry.server}];
      toolCategories := toolCategories[hint := Lookup(toolCategories, hint) + {entry.category}];
      k := k + 1;
    }
    assert entry.names[..k] == entry.names;
  }

  /** `_build_tools_catalog`: one entry per registry tool, in registry order,
      with its name (or `tool_<index>`), its description (or ""), and the
      servers and categories whose hints list that exact name. */
  method BuildToolsCatalog(allTools: seq<Tool>, table: seq<HintEntry>) returns (catalog: seq<CatalogEntry>)
    ensures |catalog| == |allTools|
    ensures forall i :: 0 <= i < |allTools| ==>
      var name := ToolName(allTools[i], i);
      catalog[i] == CatalogEntry(name, DescriptionText(allTools[i]), HintServers(table, name), HintCategories(table, name))
  {
    var toolServers, toolCategories := HintMaps(table);
    catalog := [];
    var i := 0;
    while i < |allTools|
      invariant 0 <= i <= |allTools|
      invariant |catalog| == i
      invariant forall j :: 0 <= j < i ==>
        var name := ToolName(allTools[j], j);
        catalog[j] == CatalogEntry(name, DescriptionText(allTools[j]), HintServers(table, name), HintCategories(table, name))
    {
      var name := ToolName(allTools[i], i);
      catalog := catalog + [CatalogEntry(name, DescriptionText(allTools[i]), Lookup(toolServers, name), Lookup(toolCategories, name))];
      i := i + 1;
    }
  }

  /** A catalogue entry records a server (a category) exactly when an entry
      of the hint table for that server (category) lists the tool's name. */
  lemma CatalogEntrySpec(allTools: seq<Tool>, i: nat, s: Server, c: string, table: seq<HintEntry>)
    requires i < |allTools|
    ensures var name := ToolName(allTools[i], i);
      && (s in HintServers(table, name) <==>
            exists k :: 0 <= k < |table| && table[k].server == s && name in table[k].names)
      && (c in HintCategories(table, name) <==>
            exists k :: 0 <= k < |table| && table[k].category == c && name in table[k].names)
  {
    HintServersSpec(table, ToolName(allTools[i], i), s);
    HintCategoriesSpec(table, ToolName(allTools[i], i), c);
  }

  /** The set of catalogue names (`valid_tool_names`). */
  function CatalogNames(catalog: seq<CatalogEntry>): (valid: set<string>)
    ensures forall n :: n in valid <==> exists i :: 0 <= i < |catalog| && catalog[i].name == n
  {
    set i | 0 <= i < |catalog| :: catalog[i].name
  }

  // ---------------------------------------------------------------------
  // Post-processing the model's answer
  // ---------------------------------------------------------------------

  /** `[t for t in names if t in valid]` */
  function FilterValid(names: seq<string>, valid: set<string>): (r: seq<string>)
    ensures |r| <= |names|
    ensures forall n :: n in r <==> n in names && n in valid
  {
    if names == [] then []
    else
      var init := names[..|names| - 1];
      var last := names[|names| - 1];
      assert forall n :: n in names <==> n in init || n == last;
      FilterValid(init, valid) + (if last in valid then [last] else [])
  }

  /** The filter works piece by piece: filtering a concatenation filters
      each part and keeps them in order, so valid names keep their relative
      order and their repetitions. */
  lemma {:induction false} FilterValidAppend(a: seq<string>, b: seq<string>, valid: set<string>)
    ensures FilterValid(a + b, valid) == FilterValid(a, valid) + FilterValid(b, valid)
  {
    if b == [] {
      assert a + b == a;
    } else {
      var init := b[..|b| - 1];
      var last := b[|b| - 1];
      var tail := if last in valid then [last] else [];
      FilterValidAppend(a, init, valid);
      assert (a + b)[..|a + b| - 1] == a + init;
      assert (a + b)[|a + b| - 1] == last;
      calc {
        FilterValid(a + b, valid);
        FilterValid(a + init, valid) + tail;
        FilterValid(a, valid) + FilterValid(init, valid) + tail;
        FilterValid(a, valid) + (FilterValid(init, valid) + tail);
        FilterValid(a, valid) + FilterValid(b, valid);
      }
    }
  }

  /** The filter changes nothing exactly when every name is valid. */
  lemma {:induction false} FilterValidKeepsValid(names: seq<string>, valid: set<string>)
    ensures FilterValid(names, valid) == names <==> forall n :: n in names ==> n in valid
  {
    if forall n :: n in names ==> n in valid {
      FilterValidOfValid(names, valid);
    }
  }

  /** A list of valid names passes the filter unchanged. */
  lemma {:induction false} FilterValidOfValid(names: seq<string>, valid: set<string>)
    requires forall n :: n in names ==> n in valid
    ensures FilterValid(names, valid) == names
  {
    if names != [] {
      var init := names[..|names| - 1];
      assert forall n :: n in init ==> n in names;
      FilterValidOfValid(init, valid);
      assert names == init + [names[|names| - 1]];
    }
  }

  /** One step of the post-processing: the valid names, cut to six; the
      rest of the step is kept. */
  function PostProcessStep(step: ToolSelection, valid: set<string>): ToolSelection {
    step.(selectedToolNames := Take(FilterValid(step.selectedToolNames, valid), MaxToolsPerStep))
  }

  function PostProcess(answer: PlanToolSelection, valid: set<string>): PlanToolSelection {
    answer.(steps := seq(|answer.steps|, i requires 0 <= i < |answer.steps| => PostProcessStep(answer.steps[i], valid)))
  }

  /** After post-processing, the answer has the same steps in the same order,
      each with its id, server, goal and notes untouched, and at most six
      names, every one valid and taken, in order, from the model's names. */
  lemma PostProcessSpec(answer: PlanToolSelection, valid: set<string>)
    ensures var r := PostProcess(answer, valid);
      && r.originalQuery == answer.originalQuery && r.summary == answer.summary
      && |r.steps| == |answer.steps|
      && forall i :: 0 <= i < |r.steps| ==>
           var before := answer.steps[i];
           var after := r.steps[i];
           && after.stepId == before.stepId && after.server == before.server
           && after.stepGoal == before.stepGoal && after.notes == before.notes
           && |after.selectedToolNames| <= MaxToolsPerStep
           && |after.selectedToolNames| == (if |FilterValid(before.selectedToolNames, valid)| <= MaxToolsPerStep
                                           then |FilterValid(before.selectedToolNames, valid)| else MaxToolsPerStep)
           && after.selectedToolNames == FilterValid(before.selectedToolNames, valid)[..|after.selectedToolNames|]
           && (forall n :: n in after.selectedToolNames ==> n in valid && n in before.selectedToolNames)
  {
  }

  /** The post-processing does not de-duplicate: a name the model repeats
      stays repeated. */
  lemma PostProcessKeepsDuplicates()
    ensures var step := ToolSelection(1, Gsc, "", ["gsc_query", "gsc_query"], None);
      PostProcessStep(step, {"gsc_query"}).selectedToolNames == ["gsc_query", "gsc_query"]
  {
    var names := ["gsc_query", "gsc_query"];
    assert names[..1] == ["gsc_query"] && names[..1][..0] == [];
  }

  // ---------------------------------------------------------------------
  // select_for_plan
  // ---------------------------------------------------------------------

  /** The heuristic applied to every step of the plan, in plan order. */
  function HeuristicPlan(plan: QueryPlan, keys: seq<string>, table: seq<HintEntry>): (r: PlanToolSelection)
    ensures |r.steps| == |plan.steps|
    ensures forall i :: 0 <= i < |plan.steps| ==> r.steps[i] == Heuristic(plan.steps[i], keys, table)
  {
    HeuristicStepsAt(plan.steps, keys, table);
    PlanToolSelection(plan.originalQuery, plan.summary, HeuristicSteps(plan.steps, keys, table))
  }

  /** The heuristic selections of `steps`, one per step, in order. */
  function HeuristicSteps(steps: seq<PlanStep>, keys: seq<string>, table: seq<HintEntry>): (r: seq<ToolSelection>)
    ensures |r| == |steps|
  {
    if steps == [] then []
    else HeuristicSteps(steps[..|steps| - 1], keys, table) + [Heuristic(steps[|steps| - 1], keys, table)]
  }

  /** The selection at each position is the heuristic of the step there. */
  lemma {:induction false} HeuristicStepsAt(steps: seq<PlanStep>, keys: seq<string>, table: seq<HintEntry>)
    ensures forall i :: 0 <= i < |steps| ==> HeuristicSteps(steps, keys, table)[i] == Heuristic(steps[i], keys, table)
  {
    if steps != [] {
      var init := steps[..|steps| - 1];
      HeuristicStepsAt(init, keys, table);
      assert forall i :: 0 <= i < |init| ==> init[i] == steps[i];
    }
  }

  /** `select_for_plan`. The model's structured answer is a parameter:
      `None` stands for an exception raised while invoking it. */
  function SelectedPlan(plan: QueryPlan, allTools: seq<Tool>, answer: Option<PlanToolSelection>): PlanToolSelection {
    match answer
    case Some(a) => PostProcess(a, set n | n in ToolNames(allTools))
    case None => HeuristicPlan(plan, ToolsByNameKeys(allTools), Table)
  }

  /** Whatever path is taken, every step names at most six tools, and each
      one is a tool of the registry (by name or `tool_<index>`). */
  lemma SelectedPlanBounds(plan: QueryPlan, allTools: seq<Tool>, answer: Option<PlanToolSelection>)
    ensures var r := SelectedPlan(plan, allTools, answer);
      forall i :: 0 <= i < |r.steps| ==>
        && |r.steps[i].selectedToolNames| <= MaxToolsPerStep
        && forall n :: n in r.steps[i].selectedToolNames ==> n in ToolNames(allTools)
  {
    var r := SelectedPlan(plan, allTools, answer);
    match answer
    case Some(a) =>
      PostProcessSpec(a, set n | n in ToolNames(allTools));
    case None =>
      var keys := ToolsByNameKeys(allTools);
      forall i | 0 <= i < |r.steps|
        ensures |r.steps[i].selectedToolNames| <= MaxToolsPerStep
        ensures forall n :: n in r.steps[i].selectedToolNames ==> n in ToolNames(allTools)
      {
        HeuristicSpec(plan.steps[i], keys, Table);
      }
  }

  /** When the model fails, the answer has one selection per plan step, in
      plan order, each for that step's id, server and goal, and the query
      and summary of the plan. */
  lemma FallbackPlanFollowsPlan(plan: QueryPlan, allTools: seq<Tool>)
    ensures var r := SelectedPlan(plan, allTools, None);
      && r.originalQuery == plan.originalQuery && r.summary == plan.summary
      && |r.steps| == |plan.steps|
      && forall i :: 0 <= i < |plan.steps| ==>
           r.steps[i].stepId == plan.steps[i].id && r.steps[i].server == plan.steps[i].server
           && r.steps[i].stepGoal == plan.steps[i].goal
  {
    var keys := ToolsByNameKeys(allTools);
    forall i | 0 <= i < |plan.steps|
      ensures SelectedPlan(plan, allTools, None).steps[i].stepId == plan.steps[i].id
      ensures SelectedPlan(plan, allTools, None).steps[i].server == plan.steps[i].server
      ensures SelectedPlan(plan, allTools, None).steps[i].stepGoal == plan.steps[i].goal
    {
      HeuristicSpec(plan.steps[i], keys, Table);
    }
  }

  /** `select_for_plan` as the source runs it: the catalogue, then either the
      post-processing loop over the model's steps or the heuristic loop over
      the plan's steps. */
  method SelectForPlan(plan: QueryPlan, allTools: seq<Tool>, answer: Option<PlanToolSelection>) returns (r: PlanToolSelection)
    ensures r == SelectedPlan(plan, allTools, answer)
  {
    var catalog := BuildToolsCatalog(allTools, Table);
    if answer.Some? {
      var valid := CatalogNames(catalog);
      CatalogNamesAreToolNames(allTools, catalog);
      r := PostProcessAnswer(answer.value, valid);
    } else {
      var keys := ToolsByNameKeys(allTools);
      r := FallbackSelections(plan, keys, Table);
    }
  }

  /** The valid names of `select_for_plan` are the registry tools' names. */
  lemma CatalogNamesAreToolNames(allTools: seq<Tool>, catalog: seq<CatalogEntry>)
    requires |catalog| == |allTools|
    requires forall i :: 0 <= i < |allTools| ==> catalog[i].name == ToolName(allTools[i], i)
    ensures CatalogNames(catalog) == set n | n in ToolNames(allTools)
  {
    forall n ensures n in CatalogNames(catalog) <==> n in ToolNames(allTools) {
      if n in ToolNames(allTools) {
        var i :| 0 <= i < |allTools| && ToolNames(allTools)[i] == n;
        assert catalog[i].name == n;
      }
    }
  }

  /** The post-processing loop of `select_for_plan`. */
  method PostProcessAnswer(answer: PlanToolSelection, valid: set<string>) returns (r: PlanToolSelection)
    ensures r == PostProcess(answer, valid)
  {
    var steps: seq<ToolSelection> := [];
    var i := 0;
    while i < |answer.steps|
      invariant 0 <= i <= |answer.steps|
      invariant |steps| == i
      invariant forall j :: 0 <= j < i ==> steps[j] == PostProcessStep(answer.steps[j], valid)
    {
      var step := answer.steps[i];
      var filtered := FilterValid(step.selectedToolNames, valid);
      steps := steps + [step.(selectedToolNames := Take(filtered, MaxToolsPerStep))];
      i := i + 1;
    }
    r := answer.(steps := steps);
  }

  /** The fallback loop of `select_for_plan`: one heuristic selection per
      plan step. */
  method FallbackSelections(plan: QueryPlan, keys: seq<string>, table: seq<HintEntry>) returns (r: PlanToolSelection)
    ensures r == HeuristicPlan(plan, keys, table)
  {
    var selections: seq<ToolSelection> := [];
    var i := 0;
    while i < |plan.steps|
      invariant 0 <= i <= |plan.steps|
      invariant selections == HeuristicSteps(plan.steps[..i], keys, table)
    {
      assert plan.steps[..i + 1][..i] == plan.steps[..i];
      var selection := SelectForStep(plan.steps[i], keys, table);
      selections := selections + [selection];
      i := i + 1;
    }
    assert plan.steps[..i] == plan.steps;
    r := PlanToolSelection(plan.originalQuery, plan.summary, selections);
  }
}
