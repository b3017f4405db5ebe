/** The pure half of `src/App.tsx`: the per-industry role table with its live
    counts (`getRoleCategories`), the first role of an industry
    (`getFirstRoleId`), the three-stage filter pipeline (`filteredAgents`) and
    the availability sort (`sortedAgents`). */
module Discover {
  import opened Options
  import opened Seqs
  import opened Text
  import opened Catalog

  /** The four industries of the sidebar. */
  datatype Industry = General | Beauty | Education | Startup

  /** The key the source uses for an industry. */
  function Key(i: Industry): string
  {
    match i
    case General => "general"
    case Beauty => "beauty"
    case Education => "education"
    case Startup => "startup"
  }

  /** The category label an industry's listings carry: the values of the
      source's `categoryMap`. */
  function Label(i: Industry): string
  {
    match i
    case General => GeneralLabel
    case Beauty => BeautyLabel
    case Education => EducationLabel
    case Startup => StartupLabel
  }

  /** Reading an industry key, as the lookups `categoryMap[industryId]` and
      `roleMap[industry]` do: `None` for a key outside the four. */
  function IndustryOf(key: string): (r: Option<Industry>)
    ensures r.Some? ==> Key(r.value) == key
  {
    match key
    case "general" => Some(General)
    case "beauty" => Some(Beauty)
    case "education" => Some(Education)
    case "startup" => Some(Startup)
    case _ => None
  }

  /** Every industry's key reads back as that industry. */
  lemma IndustryKeyRoundTrip(i: Industry)
    ensures IndustryOf(Key(i)) == Some(i)
  {
  }

  /** `agent => agent.role === roleId` */
  function HasRole(roleId: string): Agent -> bool
  {
    (a: Agent) => a.role == roleId
  }

  /** The industry stage shared by both filter chains: keep the listings
      labelled with the industry's category, or everything when the key names
      no industry. */
  function ByIndustry(industryId: string, s: seq<Agent>): (r: seq<Agent>)
    ensures forall a :: a in r <==> a in s && InIndustry(industryId, a)
    ensures |r| <= |s|
  {
    match IndustryOf(industryId)
    case Some(i) => Filter(InCategory(Label(i)), s)
    case None => s
  }

  /** A listing passes the industry stage. */
  predicate InIndustry(industryId: string, a: Agent)
  {
    IndustryOf(industryId).Some? ==> a.category == Label(IndustryOf(industryId).value)
  }

  // ---------------------------------------------------------------- role table

  /** One entry of the role table, before its count is attached. */
  datatype RoleEntry = RoleEntry(id: string, name: string)

  /** One entry of what `getRoleCategories` returns. */
  datatype RoleCategory = RoleCategory(id: string, name: string, count: nat)

  /** The fixed role table of `roleMap`, per industry. */
  function Roles(i: Industry): (r: seq<RoleEntry>)
    ensures |r| > 0
  {
    match i
    case General => [
      RoleEntry("administrative", "行政助理"),
      RoleEntry("content_creation", "内容创作"),
      RoleEntry("analysis_decision", "分析决策"),
      RoleEntry("customer_service", "客服")
    ]
    case Beauty => [
      RoleEntry("service", "客服"),
      RoleEntry("consultant", "顾问"),
      RoleEntry("training", "培训"),
      RoleEntry("content", "内容"),
      RoleEntry("management", "管理")
    ]
    case Education => [
      RoleEntry("admissions", "招生顾问"),
      RoleEntry("counselor", "辅导员")
    ]
    case Startup => [
      RoleEntry("analyst", "行业分析员"),
      RoleEntry("product_manager", "产品经理"),
      RoleEntry("investment_assistant", "投资助理"),
      RoleEntry("legal_expert", "法务专家"),
      RoleEntry("finance_expert", "财务专家")
    ]
  }

  /** The industry stage, then the role stage, counted over a list of
      listings. */
  function RoleCount(roleId: string, industryId: string, s: seq<Agent>): (n: nat)
    ensures n <= |s|
  {
    |Filter(HasRole(roleId), ByIndustry(industryId, s))|
  }

  /** `getCountForRole(roleId, industryId)`: the two stages over the catalog. */
  function CountForRole(roleId: string, industryId: string): (n: nat)
    ensures n <= |Agents|
  {
    RoleCount(roleId, industryId, Agents)
  }

  /** `agent => agent.category === c && agent.role === roleId` */
  function InCategoryWithRole(c: string, roleId: string): Agent -> bool
  {
    (a: Agent) => a.category == c && a.role == roleId
  }

  /** The count for a role is the number of listings with the industry's
      label and that role, or with that role anywhere when the key names no
      industry. */
  lemma CountForRoleCounts(roleId: string, industryId: string)
    ensures IndustryOf(industryId).Some? ==>
      CountForRole(roleId, industryId)
        == |Filter(InCategoryWithRole(Label(IndustryOf(industryId).value), roleId), Agents)|
    ensures IndustryOf(industryId).None? ==>
      CountForRole(roleId, industryId) == |Filter(HasRole(roleId), Agents)|
  {
    if IndustryOf(industryId).Some? {
      var c := Label(IndustryOf(industryId).value);
      FilterFilter(InCategory(c), HasRole(roleId), InCategoryWithRole(c, roleId), Agents);
    }
  }

  /** The industry whose table `getRoleCategories` shows: `roleMap[industry] ||
      roleMap['general']`. */
  function TableIndustry(industry: string): (i: Industry)
    ensures IndustryOf(industry).Some? ==> i == IndustryOf(industry).value
    ensures IndustryOf(industry).None? ==> i == General
  {
    IndustryOf(industry).GetOr(General)
  }

  /** Attaches the count of its role among the listings `s` to each entry. */
  function WithCounts(entries: seq<RoleEntry>, industryId: string, s: seq<Agent>): (r: seq<RoleCategory>)
    ensures |r| == |entries|
    ensures forall k | 0 <= k < |r| ::
      r[k].id == entries[k].id && r[k].name == entries[k].name
      && r[k].count == RoleCount(entries[k].id, industryId, s)
  {
    if entries == [] then []
    else
      [RoleCategory(entries[0].id, entries[0].name, RoleCount(entries[0].id, industryId, s))]
        + WithCounts(entries[1..], industryId, s)
  }

  /** `getRoleCategories(industry)`: the industry's table with live counts,
      the general table (counted over the general listings) for an
      unrecognised industry; never empty. */
  function GetRoleCategories(industry: string): (r: seq<RoleCategory>)
    ensures |r| > 0
    ensures |r| == |Roles(TableIndustry(industry))|
    ensures forall k | 0 <= k < |r| ::
      r[k].id == Roles(TableIndustry(industry))[k].id
      && r[k].name == Roles(TableIndustry(industry))[k].name
      && r[k].count == CountForRole(r[k].id, Key(TableIndustry(industry)))
  {
    var i := TableIndustry(industry);
    WithCounts(Roles(i), Key(i), Agents)
  }

  /** An unrecognised industry shows exactly the general table, counts included. */
  lemma UnknownIndustryFallsBack(industry: string)
    requires IndustryOf(industry).None?
    ensures GetRoleCategories(industry) == GetRoleCategories("general")
  {
  }

  /** `getFirstRoleId(industry)`: the first role id, or `""` for an empty table. */
  function FirstRoleId(industry: string): (r: string)
    ensures r == Roles(TableIndustry(industry))[0].id
    ensures exists k | 0 <= k < |GetRoleCategories(industry)| :: GetRoleCategories(industry)[k].id == r
  {
    var roles := GetRoleCategories(industry);
    if |roles| > 0 then roles[0].id else ""
  }

  /** The role ids of a table. */
  function RoleIds(entries: seq<RoleEntry>): (r: seq<string>)
    ensures |r| == |entries|
    ensures forall k | 0 <= k < |r| :: r[k] == entries[k].id
  {
    if entries == [] then [] else [entries[0].id] + RoleIds(entries[1..])
  }

  /** The sum of the per-role counts `|s.filter(a => a.role === roles[k])|`. */
  function SumRoleCounts(roles: seq<string>, s: seq<Agent>): nat
  {
    if roles == [] then 0
    else |Filter(HasRole(roles[0]), s)| + SumRoleCounts(roles[1..], s)
  }

  /** Adding one listing in front adds one to the sum for every time its role
      is listed. */
  lemma {:induction false} SumRoleCountsCons(roles: seq<string>, a: Agent, s: seq<Agent>)
    ensures SumRoleCounts(roles, [a] + s) == SumRoleCounts(roles, s) + multiset(roles)[a.role]
  {
    if roles != [] {
      SumRoleCountsCons(roles[1..], a, s);
      assert [a] + s != [] && ([a] + s)[0] == a && ([a] + s)[1..] == s;
      assert roles == [roles[0]] + roles[1..];
    }
  }

  /** When each listing's role is listed exactly once, the per-role counts
      add up to the number of listings. */
  lemma {:induction false} SumRoleCountsCovers(roles: seq<string>, s: seq<Agent>)
    requires forall a | a in s :: multiset(roles)[a.role] == 1
    ensures SumRoleCounts(roles, s) == |s|
  {
    if s == [] {
      SumRoleCountsEmpty(roles);
    } else {
      assert s == [s[0]] + s[1..];
      SumRoleCountsCovers(roles, s[1..]);
      SumRoleCountsCons(roles, s[0], s[1..]);
    }
  }

  lemma {:induction false} SumRoleCountsEmpty(roles: seq<string>)
    ensures SumRoleCounts(roles, []) == 0
  {
    if roles != [] {
      SumRoleCountsEmpty(roles[1..]);
    }
  }

  /** No string is listed twice. */
  predicate Distinct(roles: seq<string>)
  {
    forall j, k | 0 <= j < k < |roles| :: roles[j] != roles[k]
  }

  /** A string listed in a list without repeats is listed exactly once. */
  lemma {:induction false} ListedOnce(roles: seq<string>, r: string)
    requires Distinct(roles) && r in roles
    ensures multiset(roles)[r] == 1
  {
    assert roles == [roles[0]] + roles[1..];
    if roles[0] == r {
      assert r !in roles[1..];
    } else {
      ListedOnce(roles[1..], r);
    }
  }

  /** No role is listed twice in a table. */
  lemma RoleIdsDistinct(i: Industry)
    ensures Distinct(RoleIds(Roles(i)))
  {
    match i
    case General => GeneralRolesDistinct();
    case Beauty => BeautyRolesDistinct();
    case Education => EducationRolesDistinct();
    case Startup => StartupRolesDistinct();
  }

  lemma GeneralRolesDistinct() ensures Distinct(RoleIds(Roles(General))) {}
  lemma BeautyRolesDistinct() ensures Distinct(RoleIds(Roles(Beauty))) {}
  lemma EducationRolesDistinct() ensures Distinct(RoleIds(Roles(Education))) {}
  lemma StartupRolesDistinct() ensures Distinct(RoleIds(Roles(Startup))) {}

  /** Every listing of `run` has a role from the table of `i`. */
  predicate RolesTabled(run: seq<Agent>, i: Industry)
  {
    forall a | a in run :: a.role in RoleIds(Roles(i))
  }

  lemma GeneralRolesTabled() ensures RolesTabled(GeneralAgents, General) {}
  lemma BeautyRolesTabled() ensures RolesTabled(BeautyAgents, Beauty) {}
  lemma EducationRolesTabled() ensures RolesTabled(EducationAgents, Education) {}
  lemma StartupRolesTabled() ensures RolesTabled(StartupAgents, Startup) {}

  /** The listings of an industry, as the catalog lays them out. */
  function IndustryRun(i: Industry): seq<Agent>
  {
    match i
    case General => GeneralAgents
    case Beauty => BeautyAgents
    case Education => EducationAgents
    case Startup => StartupAgents
  }

  /** The industry stage keeps exactly the industry's run of listings. */
  lemma IndustryRunIsFiltered(i: Industry)
    ensures ByIndustry(Key(i), Agents) == IndustryRun(i)
  {
    RunsAreListed();
    ByIndustryOfRuns(i, GeneralAgents, BeautyAgents, EducationAgents, StartupAgents);
  }

  /** The same fact for any four runs labelled with the four labels. */
  lemma ByIndustryOfRuns(i: Industry, g: seq<Agent>, b: seq<Agent>, e: seq<Agent>, s: seq<Agent>)
    requires forall a | a in g :: a.category == GeneralLabel
    requires forall a | a in b :: a.category == BeautyLabel
    requires forall a | a in e :: a.category == EducationLabel
    requires forall a | a in s :: a.category == StartupLabel
    ensures i == General ==> ByIndustry(Key(i), g + b + e + s) == g
    ensures i == Beauty ==> ByIndustry(Key(i), g + b + e + s) == b
    ensures i == Education ==> ByIndustry(Key(i), g + b + e + s) == e
    ensures i == Startup ==> ByIndustry(Key(i), g + b + e + s) == s
  {
    IndustryKeyRoundTrip(i);
    FilterOfRuns(Label(i), g, b, e, s);
  }

  /** Each listing of an industry has a role from the industry's table. */
  lemma IndustryRunIsTabled(i: Industry)
    ensures RolesTabled(IndustryRun(i), i)
  {
    match i
    case General => GeneralRolesTabled();
    case Beauty => BeautyRolesTabled();
    case Education => EducationRolesTabled();
    case Startup => StartupRolesTabled();
  }

  /** When each listing's role is listed once in a table without repeats,
      the per-role counts add up to the number of listings. */
  lemma RoleCountsCover(roles: seq<string>, s: seq<Agent>)
    requires Distinct(roles)
    requires forall a | a in s :: a.role in roles
    ensures SumRoleCounts(roles, s) == |s|
  {
    forall a | a in s ensures multiset(roles)[a.role] == 1 {
      ListedOnce(roles, a.role);
    }
    SumRoleCountsCovers(roles, s);
  }

  /** Every listing's role belongs to the role table of its industry, so
      the role counts of an industry add up to its `categories` count. */
  lemma RoleCountsCoverIndustry(i: Industry)
    ensures SumRoleCounts(RoleIds(Roles(i)), ByIndustry(Key(i), Agents)) == CountInCategory(Label(i))
  {
    IndustryKeyRoundTrip(i);
    IndustryRunIsFiltered(i);
    IndustryRunIsTabled(i);
    RoleIdsDistinct(i);
    RoleCountsCover(RoleIds(Roles(i)), ByIndustry(Key(i), Agents));
  }

  /** The role counts shown by `getRoleCategories` are those per-role counts. */
  lemma {:induction false} ShownCountsAreRoleCounts(entries: seq<RoleEntry>, industry: string, s: seq<Agent>)
    ensures SumRoleCounts(RoleIds(entries), ByIndustry(industry, s))
         == SumShown(WithCounts(entries, industry, s))
  {
    if entries != [] {
      ShownCountsAreRoleCounts(entries[1..], industry, s);
      assert RoleIds(entries)[1..] == RoleIds(entries[1..]);
      assert WithCounts(entries, industry, s)[1..] == WithCounts(entries[1..], industry, s);
    }
  }

  /** The sum of the `count` fields of a role list. */
  function SumShown(roles: seq<RoleCategory>): nat
  {
    if roles == [] then 0 else roles[0].count + SumShown(roles[1..])
  }

  /** The counts `getRoleCategories` shows for an industry add up to the
      number of listings in that industry. */
  lemma RoleCategoriesCoverIndustry(i: Industry)
    ensures SumShown(GetRoleCategories(Key(i))) == CountInCategory(Label(i))
  {
    IndustryKeyRoundTrip(i);
    RoleCountsCoverIndustry(i);
    ShownCountsAreRoleCounts(Roles(i), Key(i), Agents);
  }

  // ----------------------------------------------------------- filter pipeline

  /** The search stage's test: the lower-cased name or description contains
      the lower-cased term. */
  predicate MatchesSearch(term: string, a: Agent)
  {
    IncludesIgnoringCase(a.name, term) || IncludesIgnoringCase(a.description, term)
  }

  function Searching(term: string): Agent -> bool
  {
    (a: Agent) => MatchesSearch(term, a)
  }

  /** A listing passes all three stages of `filteredAgents`. */
  predicate Passes(industry: string, activeCategory: string, searchTerm: string, a: Agent)
  {
    && InIndustry(industry, a)
    && (activeCategory == "" || a.role == activeCategory)
    && (searchTerm == "" || MatchesSearch(searchTerm, a))
  }

  /** The three stages of `filteredAgents` applied to a list of listings: the
      industry stage, then the role stage when a role is selected, then the
      search stage when the term is non-empty. */
  function FilterStages(industry: string, activeCategory: string, searchTerm: string, s: seq<Agent>): (r: seq<Agent>)
    ensures forall a :: a in r <==> a in s && Passes(industry, activeCategory, searchTerm, a)
  {
    var byIndustry := ByIndustry(industry, s);
    var byRole := if activeCategory != "" then Filter(HasRole(activeCategory), byIndustry) else byIndustry;
    if searchTerm != "" then Filter(Searching(searchTerm), byRole) else byRole
  }

  /** `filteredAgents`: the three stages over the catalog. */
  function FilteredAgents(industry: string, activeCategory: string, searchTerm: string): (r: seq<Agent>)
    ensures forall a :: a in r <==> a in Agents && Passes(industry, activeCategory, searchTerm, a)
  {
    FilterStages(industry, activeCategory, searchTerm, Agents)
  }

  function Passing(industry: string, activeCategory: string, searchTerm: string): Agent -> bool
  {
    (a: Agent) => Passes(industry, activeCategory, searchTerm, a)
  }

  /** The three stages are one filter by their conjunction. */
  lemma StagesAreOneFilter(industry: string, activeCategory: string, searchTerm: string, s: seq<Agent>)
    ensures FilterStages(industry, activeCategory, searchTerm, s)
         == Filter(Passing(industry, activeCategory, searchTerm), s)
  {
    var p := Passing(industry, activeCategory, searchTerm);
    var ind := (a: Agent) => InIndustry(industry, a);
    var role := (a: Agent) => activeCategory == "" || a.role == activeCategory;
    var search := (a: Agent) => searchTerm == "" || MatchesSearch(searchTerm, a);
    var indRole := (a: Agent) => ind(a) && role(a);
    // the industry stage is a filter by `ind`
    if IndustryOf(industry).Some? {
      FilterSame(InCategory(Label(IndustryOf(industry).value)), ind, s);
    } else {
      FilterKeepsAll(ind, s);
    }
    // the role stage is a filter by `role`
    if activeCategory != "" {
      FilterSame(HasRole(activeCategory), role, Filter(ind, s));
    } else {
      FilterKeepsAll(role, Filter(ind, s));
    }
    FilterFilter(ind, role, indRole, s);
    // the search stage is a filter by `search`
    if searchTerm != "" {
      FilterSame(Searching(searchTerm), search, Filter(indRole, s));
    } else {
      FilterKeepsAll(search, Filter(indRole, s));
    }
    FilterFilter(indRole, search, p, s);
  }

  /** The listings shown are one filter of the catalog by the conjunction of
      the three stages; hence they keep catalog order. */
  lemma FilteredIsOneFilter(industry: string, activeCategory: string, searchTerm: string)
    ensures FilteredAgents(industry, activeCategory, searchTerm)
         == Filter(Passing(industry, activeCategory, searchTerm), Agents)
    ensures IsSubsequence(FilteredAgents(industry, activeCategory, searchTerm), Agents)
  {
    StagesAreOneFilter(industry, activeCategory, searchTerm, Agents);
    FilterIsSubsequence(Passing(industry, activeCategory, searchTerm), Agents);
  }

  /** The `if (searchTerm)` guard changes nothing: the empty term occurs in
      every name. */
  lemma EmptySearchKeepsAll(s: seq<Agent>)
    ensures Filter(Searching(""), s) == s
  {
    forall a | a in s ensures Searching("")(a) {
      ContainsEmpty(Lower(a.name));
    }
    FilterKeepsAll(Searching(""), s);
  }

  // ---------------------------------------------------------- availability sort

  /** The comparator of `sortedAgents`: positive puts `a` after `b`. */
  function Compare(a: Agent, b: Agent): (r: int)
    ensures r > 0 <==> a.isPrelaunch && !b.isPrelaunch
    ensures r < 0 <==> !a.isPrelaunch && b.isPrelaunch
  {
    if a.isPrelaunch && !b.isPrelaunch then 1
    else if !a.isPrelaunch && b.isPrelaunch then -1
    else 0
  }

  function Launched(): Agent -> bool
  {
    (a: Agent) => !a.isPrelaunch
  }

  function Prelaunched(): Agent -> bool
  {
    (a: Agent) => a.isPrelaunch
  }

  /** `sortedAgents`: the stable sort by `Compare`, which puts the launched
      listings first and the prelaunch ones after, each group in its order. */
  function SortedAgents(s: seq<Agent>): (r: seq<Agent>)
    ensures forall a :: a in r <==> a in s
  {
    Filter(Launched(), s) + Filter(Prelaunched(), s)
  }

  /** The sort is a permutation of its input and orders it by `Compare`. */
  lemma SortedIsOrderedPermutation(s: seq<Agent>)
    ensures multiset(SortedAgents(s)) == multiset(s)
    ensures forall i, j | 0 <= i < j < |SortedAgents(s)| ::
      Compare(SortedAgents(s)[i], SortedAgents(s)[j]) <= 0
  {
    FilterComplement(Launched(), Prelaunched(), s);
    FilterThenComplementIsPartitioned(Launched(), Prelaunched(), s);
  }

  /** The sort is stable: within each group the order is that of the input. */
  lemma SortedIsStable(s: seq<Agent>)
    ensures Filter(Launched(), SortedAgents(s)) == Filter(Launched(), s)
    ensures Filter(Prelaunched(), SortedAgents(s)) == Filter(Prelaunched(), s)
  {
    var a, b := Filter(Launched(), s), Filter(Prelaunched(), s);
    FilterConcat(Launched(), a, b);
    FilterConcat(Prelaunched(), a, b);
    FilterKeepsAll(Launched(), a);
    FilterDropsAll(Launched(), b);
    FilterDropsAll(Prelaunched(), a);
    FilterKeepsAll(Prelaunched(), b);
  }

  /** Any arrangement of the input that is ordered by `Compare` and keeps each
      group's order is the sort's result: a stable sort has no other choice. */
  lemma SortedIsUnique(s: seq<Agent>, t: seq<Agent>)
    requires forall i, j | 0 <= i < j < |t| :: Compare(t[i], t[j]) <= 0
    requires Filter(Launched(), t) == Filter(Launched(), s)
    requires Filter(Prelaunched(), t) == Filter(Prelaunched(), s)
    ensures t == SortedAgents(s)
  {
    PartitionedSplits(Launched(), Prelaunched(), t);
  }
}
