/** The static category -> server -> tool-name hint table of the tool
    selector, kept in the table's own (insertion) order, and the lookups the
    selector makes in it. Every category of the table lists hints for
    exactly one server, so a sequence of (category, server, names) triples
    holds the same information as the nested dictionary. */
module Hints {
  import opened Planner

  datatype HintEntry = HintEntry(category: string, server: Server, names: seq<string>)

  const Table: seq<HintEntry> := [
    HintEntry("gsc_properties", Gsc, [
        "list_properties",
        "get_search_analytics",
        "get_site_details",
        "get_sitemaps",
        "inspect_url_enhanced",
        "batch_url_inspection",
        "check_indexing_issues",
        "get_performance_overview",
        "get_advanced_search_analytics",
        "compare_search_periods",
        "get_search_by_page_query",
        "list_sitemaps_enhanced",
        "get_sitemap_details",
        "submit_sitemap",
        "delete_sitemap",
        "manage_sitemaps"]),
    HintEntry("gsc_pages", Gsc, [
        "get_search_analytics",
        "get_site_details",
        "get_sitemaps",
        "inspect_url_enhanced",
        "batch_url_inspection",
        "check_indexing_issues",
        "get_performance_overview",
        "get_advanced_search_analytics",
        "compare_search_periods",
        "get_search_by_page_query",
        "list_sitemaps_enhanced",
        "get_sitemap_details",
        "submit_sitemap",
        "delete_sitemap",
        "manage_sitemaps"]),
    HintEntry("gsc_performance", Gsc, [
        "get_search_analytics",
        "get_performance_overview",
        "get_advanced_search_analytics",
        "compare_search_periods",
        "get_search_by_page_query"]),
    HintEntry("gsc_queries", Gsc, [
        "get_search_analytics",
        "get_advanced_search_analytics",
        "compare_search_periods",
        "get_search_by_page_query"]),
    HintEntry("technical_audit", Gsc, [
        "get_sitemaps",
        "inspect_url_enhanced",
        "check_indexing_issues",
        "list_sitemaps_enhanced",
        "get_sitemap_details",
        "submit_sitemap",
        "delete_sitemap",
        "manage_sitemaps"]),
    HintEntry("gsc_misc", Gsc, [
        "get_creator_info"]),
    HintEntry("keywords", DataForSeo, [
        "ai_optimization_keyword_data_locations_and_languages",
        "ai_optimization_keyword_data_search_volume",
        "keywords_data_google_ads_search_volume",
        "keywords_data_dataforseo_trends_demography",
        "keywords_data_dataforseo_trends_subregion_interests",
        "keywords_data_dataforseo_trends_explore",
        "keywords_data_google_trends_categories",
        "keywords_data_google_trends_explore",
        "dataforseo_labs_google_ranked_keywords",
        "dataforseo_labs_google_keyword_ideas",
        "dataforseo_labs_google_related_keywords",
        "dataforseo_labs_google_keyword_suggestions",
        "dataforseo_labs_bulk_keyword_difficulty",
        "dataforseo_labs_google_keyword_overview",
        "dataforseo_labs_google_keywords_for_site",
        "dataforseo_labs_google_historical_keyword_data"]),
    HintEntry("serp", DataForSeo, [
        "serp_organic_live_advanced",
        "serp_locations",
        "serp_youtube_locations",
        "serp_youtube_organic_live_advanced",
        "serp_youtube_video_info_live_advanced",
        "serp_youtube_video_comments_live_advanced",
        "serp_youtube_video_subtitles_live_advanced",
        "dataforseo_labs_google_historical_serp",
        "dataforseo_labs_google_serp_competitors"]),
    HintEntry("paid_search", DataForSeo, [
        "keywords_data_google_ads_search_volume"]),
    HintEntry("dataforseo_misc", DataForSeo, [
        "on_page_content_parsing",
        "on_page_instant_pages",
        "on_page_lighthouse",
        "dataforseo_labs_google_competitors_domain",
        "dataforseo_labs_google_subdomains",
        "dataforseo_labs_google_top_searches",
        "dataforseo_labs_search_intent",
        "dataforseo_labs_google_domain_intersection",
        "dataforseo_labs_google_page_intersection",
        "dataforseo_labs_available_filters",
        "dataforseo_labs_google_relevant_pages",
        "business_data_business_listings_search",
        "domain_analytics_whois_overview",
        "domain_analytics_whois_available_filters",
        "domain_analytics_technologies_domain_technologies",
        "domain_analytics_technologies_available_filters",
        "content_analysis_search",
        "content_analysis_summary",
        "content_analysis_phrase_trends"]),
    HintEntry("rank_tracking", DataForSeo, [
        "dataforseo_labs_google_ranked_keywords",
        "dataforseo_labs_google_domain_rank_overview",
        "dataforseo_labs_google_historical_rank_overview",
        "backlinks_bulk_ranks"]),
    HintEntry("domain_insights", DataForSeo, [
        "dataforseo_labs_bulk_traffic_estimation"]),
    HintEntry("backlinks", DataForSeo, [
        "backlinks_backlinks",
        "backlinks_anchors",
        "backlinks_bulk_backlinks",
        "backlinks_bulk_new_lost_referring_domains",
        "backlinks_bulk_new_lost_backlinks",
        "backlinks_bulk_ranks",
        "backlinks_bulk_referring_domains",
        "backlinks_bulk_spam_score",
        "backlinks_competitors",
        "backlinks_domain_intersection",
        "backlinks_domain_pages_summary",
        "backlinks_domain_pages",
        "backlinks_page_intersection",
        "backlinks_referring_domains",
        "backlinks_referring_networks",
        "backlinks_summary",
        "backlinks_timeseries_new_lost_summary",
        "backlinks_timeseries_summary",
        "backlinks_bulk_pages_summary",
        "backlinks_available_filters"])
  ]

  /** `SEO_CATEGORY_TOOL_HINTS.get(category, {}).get(server, [])` over `entries`:
      the first entry for `category` decides, and only its own server has hints. */
  function HintsIn(entries: seq<HintEntry>, category: string, server: Server): (r: seq<string>)
    ensures r != [] ==> exists i :: 0 <= i < |entries| && entries[i].category == category
                                      && entries[i].server == server && entries[i].names == r
  {
    if entries == [] then []
    else if entries[0].category == category then
      (if entries[0].server == server then entries[0].names else [])
    else
      var r := HintsIn(entries[1..], category, server);
      assert r != [] ==> exists i :: 0 <= i < |entries[1..]| && entries[1..][i].category == category
                                     && entries[1..][i].server == server && entries[1..][i].names == r;
      r
  }

  /** The first entry for `category` decides the lookup: its names when it
      is for `server`, and nothing for any other server. */
  lemma {:induction false} HintsInFirstEntry(entries: seq<HintEntry>, category: string, server: Server, i: nat)
    requires i < |entries| && entries[i].category == category
    requires forall j :: 0 <= j < i ==> entries[j].category != category
    ensures HintsIn(entries, category, server) == if entries[i].server == server then entries[i].names else []
  {
    if i > 0 {
      assert entries[0].category != category;
      assert forall j :: 0 <= j < i - 1 ==> entries[1..][j] == entries[j + 1];
      HintsInFirstEntry(entries[1..], category, server, i - 1);
    }
  }

  /** A category missing from the table has no hints for any server. */
  lemma {:induction false} HintsInNoEntry(entries: seq<HintEntry>, category: string, server: Server)
    requires forall j :: 0 <= j < |entries| ==> entries[j].category != category
    ensures HintsIn(entries, category, server) == []
  {
    if entries != [] {
      assert entries[0].category != category;
      assert forall j :: 0 <= j < |entries| - 1 ==> entries[1..][j] == entries[j + 1];
      HintsInNoEntry(entries[1..], category, server);
    }
  }

  /** All hint names listed for `server`, category by category in table order
      (the `collected` list of the server fallback). */
  function CollectedIn(entries: seq<HintEntry>, server: Server): seq<string> {
    if entries == [] then []
    else CollectedIn(entries[..|entries| - 1], server)
         + (if entries[|entries| - 1].server == server then entries[|entries| - 1].names else [])
  }

  /** Every name in the collected list comes from an entry for that server,
      and every name of such an entry is collected. */
  lemma {:induction false} CollectedInSpec(entries: seq<HintEntry>, server: Server, n: string)
    ensures n in CollectedIn(entries, server) <==>
      exists i :: 0 <= i < |entries| && entries[i].server == server && n in entries[i].names
  {
    if entries != [] {
      var init := entries[..|entries| - 1];
      CollectedInSpec(init, server, n);
      if exists i :: 0 <= i < |init| && init[i].server == server && n in init[i].names {
        var i :| 0 <= i < |init| && init[i].server == server && n in init[i].names;
        assert entries[i] == init[i];
      }
      if exists i :: 0 <= i < |entries| && entries[i].server == server && n in entries[i].names {
        var i :| 0 <= i < |entries| && entries[i].server == server && n in entries[i].names;
        if i < |init| { assert init[i] == entries[i]; }
      }
    }
  }

  /** The servers whose hint lists mention `name` (the selector's `tool_servers`). */
  function HintServers(entries: seq<HintEntry>, name: string): set<Server> {
    if entries == [] then {}
    else HintServers(entries[..|entries| - 1], name)
         + (if name in entries[|entries| - 1].names then {entries[|entries| - 1].server} else {})
  }

  /** The categories whose hint lists mention `name` (the selector's `tool_categories`). */
  function HintCategories(entries: seq<HintEntry>, name: string): set<string> {
    if entries == [] then {}
    else HintCategories(entries[..|entries| - 1], name)
         + (if name in entries[|entries| - 1].names then {entries[|entries| - 1].category} else {})
  }

  /** A server is recorded for a name exactly when some entry of that server lists it. */
  lemma {:induction false} HintServersSpec(entries: seq<HintEntry>, name: string, s: Server)
    ensures s in HintServers(entries, name) <==>
      exists i :: 0 <= i < |entries| && entries[i].server == s && name in entries[i].names
  {
    if entries != [] {
      var init := entries[..|entries| - 1];
      HintServersSpec(init, name, s);
      if exists i :: 0 <= i < |init| && init[i].server == s && name in init[i].names {
        var i :| 0 <= i < |init| && init[i].server == s && name in init[i].names;
        assert entries[i] == init[i];
      }
      if exists i :: 0 <= i < |entries| && entries[i].server == s && name in entries[i].names {
        var i :| 0 <= i < |entries| && entries[i].server == s && name in entries[i].names;
        if i < |init| { assert init[i] == entries[i]; }
      }
    }
  }

  /** A category is recorded for a name exactly when that category's entry lists it. */
  lemma {:induction false} HintCategoriesSpec(entries: seq<HintEntry>, name: string, c: string)
    ensures c in HintCategories(entries, name) <==>
      exists i :: 0 <= i < |entries| && entries[i].category == c && name in entries[i].names
  {
    if entries != [] {
      var init := entries[..|entries| - 1];
      HintCategoriesSpec(init, name, c);
      if exists i :: 0 <= i < |init| && init[i].category == c && name in init[i].names {
        var i :| 0 <= i < |init| && init[i].category == c && name in init[i].names;
        assert entries[i] == init[i];
      }
      if exists i :: 0 <= i < |entries| && entries[i].category == c && name in entries[i].names {
        var i :| 0 <= i < |entries| && entries[i].category == c && name in entries[i].names;
        if i < |init| { assert init[i] == entries[i]; }
      }
    }
  }

  /** Whether any entry is keyed by `server`. */
  predicate HasServer(entries: seq<HintEntry>, server: Server) {
    exists i :: 0 <= i < |entries| && entries[i].server == server
  }

  /** With no entry for a server, the table offers it no hints in any category
      and nothing to collect. */
  lemma {:induction false} NoHintsWithoutEntries(entries: seq<HintEntry>, server: Server, category: string)
    requires !HasServer(entries, server)
    ensures HintsIn(entries, category, server) == []
    ensures CollectedIn(entries, server) == []
  {
    if entries != [] {
      assert forall i :: 0 <= i < |entries| - 1 ==> entries[1..][i] == entries[i + 1];
      NoHintsWithoutEntries(entries[1..], server, category);
      NoHintsWithoutEntries(entries[..|entries| - 1], server, category);
    }
  }

  /** The table only has entries for "gsc" and "dataforseo": a "both" or a
      "none" step finds no hints under any category and nothing to fall back on. */
  lemma TableOnlyGscAndDataForSeo(category: string)
    ensures HintsIn(Table, category, Both) == [] && CollectedIn(Table, Both) == []
    ensures HintsIn(Table, category, NoServer) == [] && CollectedIn(Table, NoServer) == []
  {
    forall i | 0 <= i < |Table| ensures Table[i].server == Gsc || Table[i].server == DataForSeo {
    }
    NoHintsWithoutEntries(Table, Both, category);
    NoHintsWithoutEntries(Table, NoServer, category);
  }
}
