/** The stateful half of `src/App.tsx`: the interaction ledger that
    `handleHireAgent` updates (the `hired` and `wanted` id sets and the two
    per-id count overlays on the catalog's `bossCount`), the selection state
    that `handleIndustryChange` resets, and the chat target that
    `handleStartChat` sets. */
module Interaction {
  import opened Options
  import opened Seqs
  import opened Catalog
  import opened Discover

  /** `agent => agent.id === agentId` */
  function HasId(agentId: string): Agent -> bool
  {
    (a: Agent) => a.id == agentId
  }

  /** What the ledger relies on in the catalog it is laid over: distinct ids
      and non-negative counters. */
  predicate WellFormed(catalog: seq<Agent>)
  {
    IdsDistinct(catalog) && forall a | a in catalog :: NonNegative(a)
  }

  /** The catalog of `src/data/agents.ts` is such a catalog. */
  lemma AgentsWellFormed()
    ensures WellFormed(Agents)
  {
    AgentIdsDistinct();
    CatalogWellFormed();
  }

  /** `agents.find(a => a.id === agentId)` */
  function FindAgent(catalog: seq<Agent>, agentId: string): (r: Option<Agent>)
    ensures r.Some? ==> r.value in catalog && r.value.id == agentId
    ensures r.None? <==> forall a | a in catalog :: a.id != agentId
  {
    var r := Find(HasId(agentId), catalog);
    assert r.Some? ==> r.value in Filter(HasId(agentId), catalog);
    r
  }

  /** In a catalog with distinct ids, a listing is what looking up its own
      id finds. */
  lemma FoundIsTheListing(catalog: seq<Agent>, agent: Agent)
    requires IdsDistinct(catalog) && agent in catalog
    ensures FindAgent(catalog, agent.id) == Some(agent)
  {
    var r := FindAgent(catalog, agent.id);
    var i :| 0 <= i < |catalog| && catalog[i] == agent;
    var j :| 0 <= j < |catalog| && catalog[j] == r.value;
    assert catalog[i].id == catalog[j].id;
  }

  /** `Math.max` */
  function Max(a: int, b: int): (m: int)
    ensures m >= a && m >= b && (m == a || m == b)
  {
    if a >= b then a else b
  }

  /** `x || fallback` on a count read from a JavaScript object: both an
      absent entry and a stored `0` are falsy and give `fallback`. */
  function OrElse(x: Option<int>, fallback: int): (r: int)
    ensures x.Some? && x.value != 0 ==> r == x.value
    ensures x.None? || x.value == 0 ==> r == fallback
  {
    if x.Some? && x.value != 0 then x.value else fallback
  }

  /** The interaction ledger: ids hired, ids wanted, and the count overlays
      `agentWantCounts` and `agentBossCounts`. */
  datatype Ledger = Ledger(
    hired: set<string>,
    wanted: set<string>,
    wantCounts: map<string, int>,
    bossCounts: map<string, int>)

  /** The ledger at start-up: everything empty. */
  const EmptyLedger := Ledger({}, {}, map[], map[])

  /** Un-wanting: the id leaves `wanted` and its count goes one below the
      previous count (read with `||`), but not below the baseline. */
  function Unwant(l: Ledger, agent: Agent): (r: Ledger)
    ensures r.wanted == l.wanted - {agent.id}
    ensures r.hired == l.hired && r.bossCounts == l.bossCounts
    ensures r.wantCounts.Keys == l.wantCounts.Keys + {agent.id}
    ensures r.wantCounts[agent.id] >= agent.bossCount
    ensures agent.bossCount >= 0 && agent.id in l.wantCounts && l.wantCounts[agent.id] > agent.bossCount ==>
      r.wantCounts[agent.id] == l.wantCounts[agent.id] - 1
    ensures forall id | id in l.wantCounts && id != agent.id :: r.wantCounts[id] == l.wantCounts[id]
  {
    l.(wanted := l.wanted - {agent.id},
       wantCounts := l.wantCounts[agent.id :=
         Max(agent.bossCount, OrElse(Lookup(l.wantCounts, agent.id), agent.bossCount) - 1)])
  }

  /** Wanting: the id joins `wanted` and its count goes one above the
      previous count, or above the baseline when there is none. */
  function Want(l: Ledger, agent: Agent): (r: Ledger)
    ensures r.wanted == l.wanted + {agent.id}
    ensures r.hired == l.hired && r.bossCounts == l.bossCounts
    ensures r.wantCounts.Keys == l.wantCounts.Keys + {agent.id}
    ensures agent.id in l.wantCounts ==> r.wantCounts[agent.id] == l.wantCounts[agent.id] + 1
    ensures agent.id !in l.wantCounts ==> r.wantCounts[agent.id] == agent.bossCount + 1
    ensures forall id | id in l.wantCounts && id != agent.id :: r.wantCounts[id] == l.wantCounts[id]
  {
    l.(wanted := l.wanted + {agent.id},
       wantCounts := l.wantCounts[agent.id :=
         Lookup(l.wantCounts, agent.id).GetOr(agent.bossCount) + 1])
  }

  /** Hiring: the id joins `hired` and its boss count goes one above the
      previous count, or above the baseline when there is none. */
  function HireOne(l: Ledger, agent: Agent): (r: Ledger)
    ensures r.hired == l.hired + {agent.id}
    ensures r.wanted == l.wanted && r.wantCounts == l.wantCounts
    ensures r.bossCounts.Keys == l.bossCounts.Keys + {agent.id}
    ensures agent.id in l.bossCounts ==> r.bossCounts[agent.id] == l.bossCounts[agent.id] + 1
    ensures agent.id !in l.bossCounts ==> r.bossCounts[agent.id] == agent.bossCount + 1
    ensures forall id | id in l.bossCounts && id != agent.id :: r.bossCounts[id] == l.bossCounts[id]
  {
    l.(hired := l.hired + {agent.id},
       bossCounts := l.bossCounts[agent.id :=
         Lookup(l.bossCounts, agent.id).GetOr(agent.bossCount) + 1])
  }

  /** `handleHireAgent(agentId)` as one step on the ledger: nothing for an
      unknown id, a toggle of "want" on a prelaunch listing, a hire of a
      launched one. */
  function Hire(catalog: seq<Agent>, l: Ledger, agentId: string): (r: Ledger)
    ensures (forall a | a in catalog :: a.id != agentId) ==> r == l
    ensures l.hired <= r.hired <= l.hired + {agentId}
    ensures l.wanted - {agentId} <= r.wanted <= l.wanted + {agentId}
    ensures r.hired != l.hired ==> FindAgent(catalog, agentId).Some? && !FindAgent(catalog, agentId).value.isPrelaunch
    ensures r.wanted != l.wanted ==> FindAgent(catalog, agentId).Some? && FindAgent(catalog, agentId).value.isPrelaunch
  {
    match FindAgent(catalog, agentId)
    case None => l
    case Some(agent) =>
      if agent.isPrelaunch then
        if agentId in l.wanted then Unwant(l, agent) else Want(l, agent)
      else
        HireOne(l, agent)
  }

  /** An id that names no listing changes nothing. */
  lemma HireUnknownIsNoop(catalog: seq<Agent>, l: Ledger, agentId: string)
    requires forall a | a in catalog :: a.id != agentId
    ensures Hire(catalog, l, agentId) == l
  {
  }

  /** On a prelaunch listing the step toggles the id in `wanted`, sets its
      want count and touches nothing else; un-wanting never takes the count
      below the listing's baseline. */
  lemma WantToggles(catalog: seq<Agent>, l: Ledger, agent: Agent)
    requires IdsDistinct(catalog) && agent in catalog && agent.isPrelaunch
    ensures var r := Hire(catalog, l, agent.id);
      && (agent.id in r.wanted <==> agent.id !in l.wanted)
      && r.wanted - {agent.id} == l.wanted - {agent.id}
      && r.hired == l.hired && r.bossCounts == l.bossCounts
      && r.wantCounts.Keys == l.wantCounts.Keys + {agent.id}
      && (forall k | k in l.wantCounts && k != agent.id :: r.wantCounts[k] == l.wantCounts[k])
      && (agent.id in l.wanted ==> r.wantCounts[agent.id] >= agent.bossCount)
      && (agent.id !in l.wanted ==>
            r.wantCounts[agent.id] == Lookup(l.wantCounts, agent.id).GetOr(agent.bossCount) + 1)
  {
    FoundIsTheListing(catalog, agent);
  }

  /** On a launched listing the step puts the id in `hired` (a second hire
      leaves the set as it is) and raises its boss count by exactly one over
      the previous count, or over the baseline when there was none; nothing
      else changes. */
  lemma HireLaunched(catalog: seq<Agent>, l: Ledger, agent: Agent)
    requires IdsDistinct(catalog) && agent in catalog && !agent.isPrelaunch
    ensures var r := Hire(catalog, l, agent.id);
      && r.hired == l.hired + {agent.id}
      && r.wanted == l.wanted && r.wantCounts == l.wantCounts
      && r.bossCounts.Keys == l.bossCounts.Keys + {agent.id}
      && r.bossCounts[agent.id] == Lookup(l.bossCounts, agent.id).GetOr(agent.bossCount) + 1
      && (forall k | k in l.bossCounts && k != agent.id :: r.bossCounts[k] == l.bossCounts[k])
  {
    FoundIsTheListing(catalog, agent);
  }

  /** `n` hires of the same listing. */
  function HireTimes(catalog: seq<Agent>, l: Ledger, agentId: string, n: nat): Ledger
  {
    if n == 0 then l else Hire(catalog, HireTimes(catalog, l, agentId, n - 1), agentId)
  }

  /** Hiring a launched listing `n > 0` times leaves one entry in `hired`
      and a boss count `n` above where it started. */
  lemma {:induction false} HireTimesCounts(catalog: seq<Agent>, l: Ledger, agent: Agent, n: nat)
    requires IdsDistinct(catalog) && agent in catalog && !agent.isPrelaunch && n > 0
    ensures var r := HireTimes(catalog, l, agent.id, n);
      && r.hired == l.hired + {agent.id}
      && agent.id in r.bossCounts
      && r.bossCounts[agent.id] == Lookup(l.bossCounts, agent.id).GetOr(agent.bossCount) + n
  {
    HireLaunched(catalog, HireTimes(catalog, l, agent.id, n - 1), agent);
    if n > 1 {
      HireTimesCounts(catalog, l, agent, n - 1);
    }
  }

  /** A want count belongs to a prelaunch listing and is its baseline, plus
      one while the id is wanted. */
  predicate WantEntryOk(catalog: seq<Agent>, l: Ledger, id: string)
    requires id in l.wantCounts
  {
    && FindAgent(catalog, id).Some? && FindAgent(catalog, id).value.isPrelaunch
    && l.wantCounts[id] == FindAgent(catalog, id).value.bossCount + (if id in l.wanted then 1 else 0)
  }

  /** A boss count belongs to a hired, launched listing and is above its
      baseline. */
  predicate BossEntryOk(catalog: seq<Agent>, l: Ledger, id: string)
    requires id in l.bossCounts
  {
    && id in l.hired
    && FindAgent(catalog, id).Some? && !FindAgent(catalog, id).value.isPrelaunch
    && l.bossCounts[id] > FindAgent(catalog, id).value.bossCount
  }

  /** The ledger's consistency: every wanted id has a want count and every
      hired id a boss count, and each count is as above. */
  predicate LedgerValid(catalog: seq<Agent>, l: Ledger)
  {
    && (forall id | id in l.wanted :: id in l.wantCounts)
    && (forall id | id in l.wantCounts :: WantEntryOk(catalog, l, id))
    && (forall id | id in l.hired :: id in l.bossCounts)
    && (forall id | id in l.bossCounts :: BossEntryOk(catalog, l, id))
  }

  lemma EmptyLedgerValid(catalog: seq<Agent>)
    ensures LedgerValid(catalog, EmptyLedger)
  {
  }

  /** Wanting or un-wanting keeps the ledger consistent. */
  lemma WantPreservesValid(catalog: seq<Agent>, l: Ledger, agent: Agent)
    requires WellFormed(catalog) && LedgerValid(catalog, l)
    requires agent in catalog && agent.isPrelaunch
    ensures LedgerValid(catalog, Hire(catalog, l, agent.id))
  {
    FoundIsTheListing(catalog, agent);
    if agent.id in l.wanted {
      UnwantPreservesValid(catalog, l, agent);
    } else {
      WantOnePreservesValid(catalog, l, agent);
    }
  }

  /** Un-wanting a wanted listing keeps the ledger consistent. */
  lemma UnwantPreservesValid(catalog: seq<Agent>, l: Ledger, agent: Agent)
    requires WellFormed(catalog) && LedgerValid(catalog, l)
    requires agent in catalog && agent.isPrelaunch && agent.id in l.wanted
    requires FindAgent(catalog, agent.id) == Some(agent)
    ensures LedgerValid(catalog, Unwant(l, agent))
  {
    var r := Unwant(l, agent);
    assert NonNegative(agent);
    assert WantEntryOk(catalog, l, agent.id);
    forall id | id in r.wantCounts ensures WantEntryOk(catalog, r, id) {
      if id != agent.id {
        assert WantEntryOk(catalog, l, id);
      }
    }
    forall id | id in r.bossCounts ensures BossEntryOk(catalog, r, id) {
      assert BossEntryOk(catalog, l, id);
    }
  }

  /** Wanting a listing that is not wanted keeps the ledger consistent. */
  lemma WantOnePreservesValid(catalog: seq<Agent>, l: Ledger, agent: Agent)
    requires WellFormed(catalog) && LedgerValid(catalog, l)
    requires agent in catalog && agent.isPrelaunch && agent.id !in l.wanted
    requires FindAgent(catalog, agent.id) == Some(agent)
    ensures LedgerValid(catalog, Want(l, agent))
  {
    var r := Want(l, agent);
    if agent.id in l.wantCounts {
      assert WantEntryOk(catalog, l, agent.id);
    }
    forall id | id in r.wantCounts ensures WantEntryOk(catalog, r, id) {
      if id != agent.id {
        assert WantEntryOk(catalog, l, id);
      }
    }
    forall id | id in r.bossCounts ensures BossEntryOk(catalog, r, id) {
      assert BossEntryOk(catalog, l, id);
    }
  }

  /** Hiring keeps the ledger consistent. */
  lemma HireLaunchedPreservesValid(catalog: seq<Agent>, l: Ledger, agent: Agent)
    requires WellFormed(catalog) && LedgerValid(catalog, l)
    requires agent in catalog && !agent.isPrelaunch
    ensures LedgerValid(catalog, Hire(catalog, l, agent.id))
  {
    var r := Hire(catalog, l, agent.id);
    HireLaunched(catalog, l, agent);
    FoundIsTheListing(catalog, agent);
    assert NonNegative(agent);
    forall id | id in r.wantCounts ensures WantEntryOk(catalog, r, id) {
      assert WantEntryOk(catalog, l, id);
    }
    forall id | id in r.bossCounts ensures BossEntryOk(catalog, r, id) {
      if id != agent.id {
        assert BossEntryOk(catalog, l, id);
      }
    }
  }

  /** Every step keeps the ledger consistent. */
  lemma HirePreservesValid(catalog: seq<Agent>, l: Ledger, agentId: string)
    requires WellFormed(catalog) && LedgerValid(catalog, l)
    ensures LedgerValid(catalog, Hire(catalog, l, agentId))
  {
    var found := FindAgent(catalog, agentId);
    if found.Some? {
      if found.value.isPrelaunch {
        WantPreservesValid(catalog, l, found.value);
      } else {
        HireLaunchedPreservesValid(catalog, l, found.value);
      }
    }
  }

  /** The count a card shows for a prelaunch listing: the want count when
      there is one, else the baseline. */
  function ShownWantCount(l: Ledger, agent: Agent): int
  {
    Lookup(l.wantCounts, agent.id).GetOr(agent.bossCount)
  }

  /** On a consistent ledger the shown count is the baseline plus one exactly
      while the listing is wanted. */
  lemma ShownWantCountTracksWanted(catalog: seq<Agent>, l: Ledger, agent: Agent)
    requires WellFormed(catalog) && LedgerValid(catalog, l)
    requires agent in catalog && agent.isPrelaunch
    ensures ShownWantCount(l, agent) == agent.bossCount + (if agent.id in l.wanted then 1 else 0)
  {
    FoundIsTheListing(catalog, agent);
    if agent.id in l.wantCounts {
      assert WantEntryOk(catalog, l, agent.id);
    }
  }

  /** Wanting and un-wanting a listing restores `wanted` and the shown count. */
  lemma WantTwiceRestores(catalog: seq<Agent>, l: Ledger, agent: Agent)
    requires WellFormed(catalog) && LedgerValid(catalog, l)
    requires agent in catalog && agent.isPrelaunch
    ensures Hire(catalog, Hire(catalog, l, agent.id), agent.id).wanted == l.wanted
    ensures ShownWantCount(Hire(catalog, Hire(catalog, l, agent.id), agent.id), agent)
         == ShownWantCount(l, agent)
  {
    FoundIsTheListing(catalog, agent);
    assert NonNegative(agent);
    if agent.id in l.wantCounts {
      assert WantEntryOk(catalog, l, agent.id);
    }
    if agent.id in l.wanted {
      UnwantThenWant(l, agent);
    } else {
      WantThenUnwant(l, agent);
    }
  }

  /** Un-wanting a wanted listing and wanting it again. */
  lemma UnwantThenWant(l: Ledger, agent: Agent)
    requires agent.bossCount >= 0 && agent.id in l.wanted
    requires agent.id in l.wantCounts && l.wantCounts[agent.id] == agent.bossCount + 1
    ensures Want(Unwant(l, agent), agent).wanted == l.wanted
    ensures ShownWantCount(Want(Unwant(l, agent), agent), agent) == ShownWantCount(l, agent)
  {
    assert Unwant(l, agent).wantCounts[agent.id] == agent.bossCount;
  }

  /** Wanting a listing that is not wanted and un-wanting it again. */
  lemma WantThenUnwant(l: Ledger, agent: Agent)
    requires agent.bossCount >= 0 && agent.id !in l.wanted
    requires agent.id in l.wantCounts ==> l.wantCounts[agent.id] == agent.bossCount
    ensures Unwant(Want(l, agent), agent).wanted == l.wanted
    ensures ShownWantCount(Unwant(Want(l, agent), agent), agent) == ShownWantCount(l, agent)
  {
    assert Want(l, agent).wantCounts[agent.id] == agent.bossCount + 1;
  }

  /** On a consistent ledger the `||` of the un-want branch reads the same
      count as the `!== undefined` test of the want branch: a wanted id's
      count is at least one, never the falsy `0`. */
  lemma OrElseAgreesWhenWanted(catalog: seq<Agent>, l: Ledger, agentId: string)
    requires WellFormed(catalog) && LedgerValid(catalog, l) && agentId in l.wanted
    ensures OrElse(Lookup(l.wantCounts, agentId), 0) == Lookup(l.wantCounts, agentId).GetOr(0)
  {
    assert WantEntryOk(catalog, l, agentId);
    assert NonNegative(FindAgent(catalog, agentId).value);
  }

  /** The application's state: the selection, the ledger and the chat target. */
  class App {
    /** The catalog the handlers read: `agents`. */
    const catalog: seq<Agent>
    var selectedIndustry: string
    var activeCategory: string
    var searchTerm: string
    var hired: set<string>
    var wanted: set<string>
    var wantCounts: map<string, int>
    var bossCounts: map<string, int>
    var chatAgent: Option<Agent>

    /** The ledger held in the fields. */
    function CurrentLedger(): Ledger
      reads this
    {
      Ledger(hired, wanted, wantCounts, bossCounts)
    }

    predicate Valid()
      reads this
    {
      WellFormed(catalog) && LedgerValid(catalog, CurrentLedger())
    }

    /** The listings the discover view shows, in order. */
    function Shown(): (r: seq<Agent>)
      reads this
      ensures forall a :: a in r <==> a in catalog && Passes(selectedIndustry, activeCategory, searchTerm, a)
    {
      SortedAgents(FilterStages(selectedIndustry, activeCategory, searchTerm, catalog))
    }

    /** The initial state over a consistent catalog (`Agents` is one, by
        `AgentsWellFormed`): the general industry, no role yet, no search, an
        empty ledger and no chat. */
    constructor(catalog: seq<Agent>)
      requires WellFormed(catalog)
      ensures Valid() && this.catalog == catalog
      ensures selectedIndustry == "general" && activeCategory == ""
      ensures searchTerm == "" && CurrentLedger() == EmptyLedger && chatAgent == None
    {
      this.catalog := catalog;
      selectedIndustry := "general";
      activeCategory := "";
      searchTerm := "";
      hired := {};
      wanted := {};
      wantCounts := map[];
      bossCounts := map[];
      chatAgent := None;
      EmptyLedgerValid(catalog);
    }

    /** The effect that runs after mounting and after every industry change:
        the role becomes the industry's first role. */
    method SyncFirstRole()
      modifies this
      ensures activeCategory == FirstRoleId(selectedIndustry)
      ensures activeCategory == GetRoleCategories(selectedIndustry)[0].id
      ensures selectedIndustry == old(selectedIndustry) && searchTerm == old(searchTerm)
      ensures chatAgent == old(chatAgent) && CurrentLedger() == old(CurrentLedger())
    {
      activeCategory := FirstRoleId(selectedIndustry);
    }

    /** `handleHireAgent(agentId)` */
    method HireAgent(agentId: string)
      requires Valid()
      modifies this
      ensures Valid()
      ensures CurrentLedger() == Hire(catalog, old(CurrentLedger()), agentId)
      ensures selectedIndustry == old(selectedIndustry) && activeCategory == old(activeCategory)
      ensures searchTerm == old(searchTerm) && chatAgent == old(chatAgent)
    {
      ghost var before := CurrentLedger();
      var found := FindAgent(catalog, agentId);
      if found.Some? {
        var agent := found.value;
        if agent.isPrelaunch {
          if agentId in wanted {
            UnwantStep(agent);
          } else {
            WantStep(agent);
          }
        } else {
          HireStep(agent);
        }
      }
      HirePreservesValid(catalog, before, agentId);
    }

    /** The prelaunch branch of `handleHireAgent` for a wanted listing. */
    method UnwantStep(agent: Agent)
      modifies this
      ensures CurrentLedger() == Unwant(old(CurrentLedger()), agent)
      ensures selectedIndustry == old(selectedIndustry) && activeCategory == old(activeCategory)
      ensures searchTerm == old(searchTerm) && chatAgent == old(chatAgent)
    {
      var previous := OrElse(Lookup(wantCounts, agent.id), agent.bossCount);
      wanted := wanted - {agent.id};
      wantCounts := wantCounts[agent.id := Max(agent.bossCount, previous - 1)];
    }

    /** The prelaunch branch of `handleHireAgent` for a listing not wanted yet. */
    method WantStep(agent: Agent)
      modifies this
      ensures CurrentLedger() == Want(old(CurrentLedger()), agent)
      ensures selectedIndustry == old(selectedIndustry) && activeCategory == old(activeCategory)
      ensures searchTerm == old(searchTerm) && chatAgent == old(chatAgent)
    {
      var previous := Lookup(wantCounts, agent.id).GetOr(agent.bossCount);
      wanted := wanted + {agent.id};
      wantCounts := wantCounts[agent.id := previous + 1];
    }

    /** The launched branch of `handleHireAgent`. */
    method HireStep(agent: Agent)
      modifies this
      ensures CurrentLedger() == HireOne(old(CurrentLedger()), agent)
      ensures selectedIndustry == old(selectedIndustry) && activeCategory == old(activeCategory)
      ensures searchTerm == old(searchTerm) && chatAgent == old(chatAgent)
    {
      var previous := Lookup(bossCounts, agent.id).GetOr(agent.bossCount);
      hired := hired + {agent.id};
      bossCounts := bossCounts[agent.id := previous + 1];
    }

    /** `handleIndustryChange(industry)`: the role resets to the industry's
        first role. */
    method IndustryChange(industry: string)
      modifies this
      ensures selectedIndustry == industry
      ensures activeCategory == FirstRoleId(industry)
      ensures activeCategory == GetRoleCategories(industry)[0].id
      ensures searchTerm == old(searchTerm) && chatAgent == old(chatAgent)
      ensures CurrentLedger() == old(CurrentLedger())
    {
      selectedIndustry := industry;
      activeCategory := FirstRoleId(industry);
    }

    /** `handleStartChat(agent)`: a prelaunch listing cannot be chatted with. */
    method StartChat(agent: Agent)
      modifies this
      ensures agent.isPrelaunch ==> chatAgent == old(chatAgent)
      ensures !agent.isPrelaunch ==> chatAgent == Some(agent)
      ensures selectedIndustry == old(selectedIndustry) && activeCategory == old(activeCategory)
      ensures searchTerm == old(searchTerm) && CurrentLedger() == old(CurrentLedger())
    {
      if agent.isPrelaunch {
        return;
      }
      chatAgent := Some(agent);
    }

    /** `handleBackFromChat` */
    method BackFromChat()
      modifies this
      ensures chatAgent == None
      ensures selectedIndustry == old(selectedIndustry) && activeCategory == old(activeCategory)
      ensures searchTerm == old(searchTerm) && CurrentLedger() == old(CurrentLedger())
    {
      chatAgent := None;
    }

    /** The header's `onSearchChange`. */
    method SetSearchTerm(term: string)
      modifies this
      ensures searchTerm == term
      ensures selectedIndustry == old(selectedIndustry) && activeCategory == old(activeCategory)
      ensures chatAgent == old(chatAgent) && CurrentLedger() == old(CurrentLedger())
    {
      searchTerm := term;
    }

    /** The role filter's `onCategoryChange`. */
    method SetActiveCategory(roleId: string)
      modifies this
      ensures activeCategory == roleId
      ensures selectedIndustry == old(selectedIndustry) && searchTerm == old(searchTerm)
      ensures chatAgent == old(chatAgent) && CurrentLedger() == old(CurrentLedger())
    {
      activeCategory := roleId;
    }
  }
}
