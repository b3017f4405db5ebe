/** The hired-team view of `src/components/MyAgentsPage.tsx`: its local copy
    of the hired set, the "fire" removal from that copy, the listings it shows
    for the selected industry and the boss count it prints. */
module MyAgents {
  import opened Options
  import opened Seqs
  import opened Catalog
  import opened Discover
  import opened Interaction

  /** `agent => hired.has(agent.id) && !agent.isPrelaunch` */
  function HiredLaunched(hired: set<string>): Agent -> bool
  {
    (a: Agent) => a.id in hired && !a.isPrelaunch
  }

  /** `getIndustryAgents()`: the hired, launched listings, then those with the
      industry's label; nothing at all for a key that names no industry. */
  function IndustryAgents(industry: string, hired: set<string>): (r: seq<Agent>)
    ensures IndustryOf(industry).None? ==> r == []
    ensures forall a :: a in r <==>
      && a in Agents && a.id in hired && !a.isPrelaunch
      && IndustryOf(industry).Some? && a.category == Label(IndustryOf(industry).value)
  {
    var hiredList := Filter(HiredLaunched(hired), Agents);
    match IndustryOf(industry)
    case Some(i) => Filter(InCategory(Label(i)), hiredList)
    case None => []
  }

  /** The view keeps catalog order. */
  lemma IndustryAgentsInCatalogOrder(industry: string, hired: set<string>)
    ensures IsSubsequence(IndustryAgents(industry, hired), Agents)
  {
    if IndustryOf(industry).Some? {
      var p := HiredLaunched(hired);
      var c := InCategory(Label(IndustryOf(industry).value));
      var pc := (a: Agent) => p(a) && c(a);
      FilterFilter(p, c, pc, Agents);
      FilterIsSubsequence(pc, Agents);
    }
  }

  /** On a consistent ledger every hired id is a launched listing, so the
      `!agent.isPrelaunch` test drops nothing. */
  lemma PrelaunchTestIsRedundant(l: Ledger)
    requires LedgerValid(Agents, l)
    ensures forall a | a in Agents && a.id in l.hired :: !a.isPrelaunch
  {
    AgentsWellFormed();
    forall a | a in Agents && a.id in l.hired ensures !a.isPrelaunch {
      FoundIsTheListing(Agents, a);
      assert BossEntryOk(Agents, l, a.id);
    }
  }

  /** The empty state shows exactly when no hired, launched listing carries
      the industry's label (always, for a key that names no industry). */
  lemma EmptyViewIff(industry: string, hired: set<string>)
    ensures |IndustryAgents(industry, hired)| == 0 <==>
      forall a | a in Agents ::
        !(a.id in hired && !a.isPrelaunch
          && IndustryOf(industry).Some? && a.category == Label(IndustryOf(industry).value))
  {
    var r := IndustryAgents(industry, hired);
    if |r| != 0 {
      assert r[0] in r;
    }
  }

  /** `agent => agent.id !== agentId` */
  function NotId(agentId: string): Agent -> bool
  {
    (a: Agent) => a.id != agentId
  }

  /** Firing an id takes exactly the listings with that id out of the view
      and keeps the rest in order. */
  lemma FireRemovesFromView(industry: string, hired: set<string>, agentId: string)
    ensures IndustryAgents(industry, hired - {agentId})
         == Filter(NotId(agentId), IndustryAgents(industry, hired))
  {
    var p, q := HiredLaunched(hired), HiredLaunched(hired - {agentId});
    FilterFilter(p, NotId(agentId), q, Agents);
    if IndustryOf(industry).Some? {
      var c := InCategory(Label(IndustryOf(industry).value));
      FilterCommute(p, NotId(agentId), c, Agents);
    }
  }

  /** Filtering by `c` after `p` and `d` is filtering by `d` after `p` and `c`. */
  lemma {:induction false} FilterCommute(p: Agent -> bool, d: Agent -> bool, c: Agent -> bool, s: seq<Agent>)
    ensures Filter(c, Filter(d, Filter(p, s))) == Filter(d, Filter(c, Filter(p, s)))
  {
    if s != [] {
      FilterCommute(p, d, c, s[1..]);
    }
  }

  /** The boss count a hired card prints, `agentBossCounts[id] !== undefined ?
      agentBossCounts[id] : agent.bossCount`. */
  function ShownBossCount(bossCounts: map<string, int>, agent: Agent): (n: int)
    ensures agent.id in bossCounts ==> n == bossCounts[agent.id]
    ensures agent.id !in bossCounts ==> n == agent.bossCount
  {
    Lookup(bossCounts, agent.id).GetOr(agent.bossCount)
  }

  /** On a consistent ledger a hired listing's printed count is above its
      baseline; a listing hired `n` times from scratch shows baseline + `n`. */
  lemma ShownBossCountAfterHires(l: Ledger, agent: Agent, n: nat)
    requires LedgerValid(Agents, l) && agent in Agents && !agent.isPrelaunch
    ensures agent.id in l.hired ==> ShownBossCount(l.bossCounts, agent) > agent.bossCount
    ensures n > 0 && agent.id !in l.bossCounts ==>
      ShownBossCount(HireTimes(Agents, l, agent.id, n).bossCounts, agent) == agent.bossCount + n
  {
    AgentsWellFormed();
    FoundIsTheListing(Agents, agent);
    if agent.id in l.hired {
      assert BossEntryOk(Agents, l, agent.id);
    }
    if n > 0 {
      HireTimesCounts(Agents, l, agent, n);
    }
  }

  /** The page's state: the props it was mounted with and its own copy of the
      hired set. */
  class MyAgentsPage {
    const selectedIndustry: string
    const hiredAgents: set<string>
    const agentBossCounts: map<string, int>
    var localHiredAgents: set<string>

    /** `useState(hiredAgents)`: the copy starts equal to the prop. */
    constructor(selectedIndustry: string, hiredAgents: set<string>, agentBossCounts: map<string, int>)
      ensures this.selectedIndustry == selectedIndustry && this.hiredAgents == hiredAgents
      ensures this.agentBossCounts == agentBossCounts
      ensures localHiredAgents == hiredAgents
    {
      this.selectedIndustry := selectedIndustry;
      this.hiredAgents := hiredAgents;
      this.agentBossCounts := agentBossCounts;
      localHiredAgents := hiredAgents;
    }

    /** `currentAgents` */
    function CurrentAgents(): seq<Agent>
      reads this
    {
      IndustryAgents(selectedIndustry, localHiredAgents)
    }

    /** `currentAgents.length === 0`: the page shows its empty state. */
    function ShowsEmptyState(): (b: bool)
      reads this
      ensures b <==> forall a | a in Agents ::
        !(a.id in localHiredAgents && !a.isPrelaunch
          && IndustryOf(selectedIndustry).Some? && a.category == Label(IndustryOf(selectedIndustry).value))
    {
      EmptyViewIff(selectedIndustry, localHiredAgents);
      |CurrentAgents()| == 0
    }

    /** `handleFireAgent(agentId)`: removes the id from the local copy only;
        the prop is a `const` and never changes. */
    method FireAgent(agentId: string)
      modifies this
      ensures localHiredAgents == old(localHiredAgents) - {agentId}
      ensures agentId !in localHiredAgents
      ensures old(agentId !in localHiredAgents) ==> localHiredAgents == old(localHiredAgents)
      ensures CurrentAgents() == Filter(NotId(agentId), old(CurrentAgents()))
    {
      FireRemovesFromView(selectedIndustry, localHiredAgents, agentId);
      localHiredAgents := localHiredAgents - {agentId};
    }
  }
}
