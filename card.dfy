/** A catalog card of `src/components/AgentCard.tsx`: which intent a click
    emits, which button the card offers, which count it shows and how its
    category badge is tinted. */
module Card {
  import opened Options
  import opened Text
  import opened Catalog
  import opened Interaction

  /** The card's props. `hasOnHire` and `hasOnStartChat` say whether the
      optional handlers were passed. */
  datatype CardProps = CardProps(
    agent: Agent,
    isHired: bool,
    isWanted: bool,
    wantCount: Option<int>,
    bossCount: Option<int>,
    hasOnHire: bool,
    hasOnStartChat: bool)

  /** What a click hands to the parent. */
  datatype Intent = NoIntent | HireIntent(agentId: string) | ChatIntent(agent: Agent)

  /** `handleHireClick`: emits the hire intent when there is a handler and the
      listing is not hired yet or is prelaunch. */
  function HireClick(p: CardProps): (r: Intent)
    ensures r != NoIntent <==> p.hasOnHire && (!p.isHired || p.agent.isPrelaunch)
    ensures r != NoIntent ==> r == HireIntent(p.agent.id)
  {
    if p.hasOnHire && (!p.isHired || p.agent.isPrelaunch) then HireIntent(p.agent.id) else NoIntent
  }

  /** `handleChatClick`: emits the chat intent when there is a handler and the
      listing is launched. */
  function ChatClick(p: CardProps): (r: Intent)
    ensures r != NoIntent <==> p.hasOnStartChat && !p.agent.isPrelaunch
    ensures r != NoIntent ==> r == ChatIntent(p.agent)
  {
    if p.hasOnStartChat && !p.agent.isPrelaunch then ChatIntent(p.agent) else NoIntent
  }

  /** The one action button a card shows. */
  datatype Button = Chat | Employ | Want | Unwant

  /** The button's caption. */
  function Caption(b: Button): string
  {
    match b
    case Chat => "派活"
    case Employ => "聘用"
    case Want => "想要"
    case Unwant => "取消想要"
  }

  /** The button of a launched card depends on `isHired`, that of a prelaunch
      card on `isWanted`. */
  function ButtonOf(p: CardProps): (b: Button)
    ensures !p.agent.isPrelaunch ==> (b == Chat <==> p.isHired) && (b == Employ <==> !p.isHired)
    ensures p.agent.isPrelaunch ==> (b == Unwant <==> p.isWanted) && (b == Want <==> !p.isWanted)
  {
    if !p.agent.isPrelaunch then (if p.isHired then Chat else Employ)
    else if p.isWanted then Unwant else Want
  }

  /** Clicking the card's button: the chat button runs `handleChatClick`,
      every other one `handleHireClick`. */
  function Click(p: CardProps): (r: Intent)
    ensures r.HireIntent? ==> r.agentId == p.agent.id && p.hasOnHire && !(p.isHired && !p.agent.isPrelaunch)
    ensures r.ChatIntent? ==> r.agent == p.agent && p.hasOnStartChat && p.isHired && !p.agent.isPrelaunch
  {
    if ButtonOf(p) == Chat then ChatClick(p) else HireClick(p)
  }

  /** A click never asks to hire a launched listing that is already hired,
      and never asks to chat with a prelaunch one; a prelaunch click always
      reaches the hire handler, which toggles "want". */
  lemma ClickIntents(p: CardProps)
    ensures !p.agent.isPrelaunch && p.isHired ==> !Click(p).HireIntent?
    ensures p.agent.isPrelaunch ==> !Click(p).ChatIntent?
    ensures p.agent.isPrelaunch && p.hasOnHire ==> Click(p) == HireIntent(p.agent.id)
    ensures !p.agent.isPrelaunch && !p.isHired && p.hasOnHire ==> Click(p) == HireIntent(p.agent.id)
    ensures !p.agent.isPrelaunch && p.isHired && p.hasOnStartChat ==> Click(p) == ChatIntent(p.agent)
  {
  }

  /** The count under the card: the want overlay for a prelaunch listing,
      the boss overlay for a launched one, the catalog baseline when the
      overlay is undefined. */
  function ShownCount(p: CardProps): (n: int)
    ensures p.agent.isPrelaunch ==> n == (if p.wantCount.Some? then p.wantCount.value else p.agent.bossCount)
    ensures !p.agent.isPrelaunch ==> n == (if p.bossCount.Some? then p.bossCount.value else p.agent.bossCount)
  {
    if p.agent.isPrelaunch then p.wantCount.GetOr(p.agent.bossCount)
    else p.bossCount.GetOr(p.agent.bossCount)
  }

  /** The count line, `${count}位老板想要` or `${count}位老板已用`. */
  function CountLine(p: CardProps): (s: string)
    ensures p.agent.isPrelaunch ==> s == IntToString(ShownCount(p)) + "位老板想要"
    ensures !p.agent.isPrelaunch ==> s == IntToString(ShownCount(p)) + "位老板已用"
  {
    IntToString(ShownCount(p)) + (if p.agent.isPrelaunch then "位老板想要" else "位老板已用")
  }

  /** The props the grid passes for a listing: membership of the two sets,
      the two overlay entries and both handlers. */
  function PropsFor(l: Ledger, agent: Agent): (p: CardProps)
    ensures p.agent == agent && p.hasOnHire && p.hasOnStartChat
    ensures (p.isHired <==> agent.id in l.hired) && (p.isWanted <==> agent.id in l.wanted)
    ensures p.wantCount.Some? <==> agent.id in l.wantCounts
    ensures p.wantCount.Some? ==> p.wantCount.value == l.wantCounts[agent.id]
    ensures p.bossCount.Some? <==> agent.id in l.bossCounts
    ensures p.bossCount.Some? ==> p.bossCount.value == l.bossCounts[agent.id]
  {
    CardProps(agent, agent.id in l.hired, agent.id in l.wanted,
              Lookup(l.wantCounts, agent.id), Lookup(l.bossCounts, agent.id), true, true)
  }

  /** On a consistent ledger a card's count is the baseline plus one while a
      prelaunch listing is wanted, and above the baseline exactly when a
      launched listing is hired. */
  lemma ShownCountFollowsLedger(l: Ledger, agent: Agent)
    requires LedgerValid(Agents, l) && agent in Agents
    ensures agent.isPrelaunch ==>
      ShownCount(PropsFor(l, agent)) == agent.bossCount + (if agent.id in l.wanted then 1 else 0)
    ensures !agent.isPrelaunch ==>
      (ShownCount(PropsFor(l, agent)) > agent.bossCount <==> agent.id in l.hired)
    ensures !agent.isPrelaunch && agent.id !in l.hired ==>
      ShownCount(PropsFor(l, agent)) == agent.bossCount
  {
    AgentsWellFormed();
    FoundIsTheListing(Agents, agent);
    if agent.isPrelaunch {
      ShownWantCountTracksWanted(Agents, l, agent);
    } else if agent.id in l.bossCounts {
      assert BossEntryOk(Agents, l, agent.id);
    }
  }

  /** The tint of the category badge. */
  datatype Tint = Pink | Blue | Green | Gray

  /** `getCategoryColor`: the first of 美业, 教育, 初创 that the category
      contains decides the tint, gray when none does. */
  function CategoryColor(category: string): (t: Tint)
    ensures t == Pink <==> Contains(category, BeautyLabel)
    ensures t == Blue <==> !Contains(category, BeautyLabel) && Contains(category, EducationLabel)
    ensures t == Green <==> !Contains(category, BeautyLabel) && !Contains(category, EducationLabel)
                            && Contains(category, StartupLabel)
  {
    if Contains(category, BeautyLabel) then Pink
    else if Contains(category, EducationLabel) then Blue
    else if Contains(category, StartupLabel) then Green
    else Gray
  }

  /** The four labels of the catalog get four different tints, the general
      label the default gray. */
  lemma LabelTints()
    ensures CategoryColor(BeautyLabel) == Pink
    ensures CategoryColor(EducationLabel) == Blue
    ensures CategoryColor(StartupLabel) == Green
    ensures CategoryColor(GeneralLabel) == Gray
  {
    assert OccursAt(BeautyLabel, BeautyLabel, 0);
    assert OccursAt(EducationLabel, EducationLabel, 0);
    assert OccursAt(StartupLabel, StartupLabel, 0);
    NotContained(EducationLabel, BeautyLabel);
    NotContained(StartupLabel, BeautyLabel);
    NotContained(StartupLabel, EducationLabel);
    NotContained(GeneralLabel, BeautyLabel);
    NotContained(GeneralLabel, EducationLabel);
    NotContained(GeneralLabel, StartupLabel);
  }
}
