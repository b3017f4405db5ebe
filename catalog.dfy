/** The static agent catalog of `src/data/agents.ts`: an ordered, immutable
    list of listings, and the per-category counts derived from it. */
module Catalog {
  import opened Seqs
  import opened Text

  /** One listing. `price` is in fen (hundredths of a yuan), so the source's
      0.08 is 8 here; a missing `isPrelaunch` is `false`. */
  datatype Agent = Agent(
    id: string,
    name: string,
    description: string,
    category: string,
    role: string,
    likes: int,
    price: int,
    bossCount: int,
    isPrelaunch: bool)

  /** The four display labels an agent's `category` can hold. */
  const GeneralLabel: string := "行业通用"
  const BeautyLabel: string := "美业"
  const EducationLabel: string := "教育"
  const StartupLabel: string := "初创"
  const Labels: seq<string> := [GeneralLabel, BeautyLabel, EducationLabel, StartupLabel]

  /** The 行业通用 (general) listings. */
  const GeneralAgents: seq<Agent> := [
    Agent("1", "文档翻译助手", "多语言文档翻译，一键完成各类语言文档翻译",
          GeneralLabel, "administrative", 166, 8, 890, false),
    Agent("2", "音频转录助手", "智能语音识别，快速将音频转换为文字",
          GeneralLabel, "administrative", 0, 0, 567, true),
    Agent("3", "会议纪要助手", "自动生成会议纪要，整理会议要点和行动项",
          GeneralLabel, "administrative", 189, 7, 423, false),
    Agent("4", "文案写作助手", "专业文案创作，多平台适配，提升内容吸引力",
          GeneralLabel, "content_creation", 234, 6, 789, false),
    Agent("5", "PPT生成助手", "智能PPT制作，快速生成专业演示文稿",
          GeneralLabel, "content_creation", 234, 12, 456, false),
    Agent("6", "平面设计师", "专业平面设计，提供现代化设计方案",
          GeneralLabel, "content_creation", 189, 15, 234, false),
    Agent("7", "视频剪辑助手", "智能视频剪辑，快速制作精美视频内容",
          GeneralLabel, "content_creation", 198, 18, 345, false),
    Agent("8", "数据分析助手", "专业数据分析，洞察业务趋势，辅助决策制定",
          GeneralLabel, "analysis_decision", 0, 0, 567, true),
    Agent("9", "客户服务专家", "随时随地响应，解答各类问题，提供专业客户服务",
          GeneralLabel, "customer_service", 267, 5, 1250, false)
  ]

  /** The 美业 (beauty) listings. */
  const BeautyAgents: seq<Agent> := [
    Agent("10", "客户服务专家", "专业美业客户服务，预约管理，售后跟进",
          BeautyLabel, "service", 156, 6, 567, false),
    Agent("11", "美容护肤顾问", "专业美容护肤建议，个性化美容方案制定",
          BeautyLabel, "consultant", 198, 8, 412, false),
    Agent("12", "健康管理顾问", "专业健康管理咨询，制定个性化健康方案",
          BeautyLabel, "consultant", 176, 9, 334, false),
    Agent("13", "产品培训专家", "专业产品培训指导，提升团队专业技能",
          BeautyLabel, "training", 145, 12, 278, false),
    Agent("14", "邀约助手", "智能客户邀约，提升到店率和转化效果",
          BeautyLabel, "service", 167, 7, 445, false),
    Agent("15", "美业朋友圈文案专家", "专业美业朋友圈文案创作，提升品牌影响力",
          BeautyLabel, "content", 189, 5, 623, false),
    Agent("16", "视频剪辑助手", "专业美业视频制作，展示服务效果和店铺形象",
          BeautyLabel, "content", 0, 0, 356, true),
    Agent("17", "活动策划专家", "美业活动策划执行，提升客户参与度和营收",
          BeautyLabel, "content", 0, 0, 289, true),
    Agent("18", "店长助理", "协助店铺日常管理，员工调度，业绩分析",
          BeautyLabel, "management", 0, 0, 234, true)
  ]

  /** The 教育 (education) listings. */
  const EducationAgents: seq<Agent> := [
    Agent("19", "剑桥官方招生官", "解答中国学生关于剑桥招生的一切疑惑，入学申请辅导，为学生提供入读剑桥教育方案建议",
          EducationLabel, "admissions", 145, 10, 234, false),
    Agent("20", "剑桥学生代表", "为中国剑桥学生提供海外生活帮助、学业辅导等，让学生更好融入剑桥校园生活",
          EducationLabel, "counselor", 167, 8, 189, false),
    Agent("21", "剑桥心理咨询师", "为剑桥学生提供心理辅导与帮助，陪伴你度过剑桥学习生涯",
          EducationLabel, "counselor", 198, 12, 156, false)
  ]

  /** The 初创 (startup) listings. */
  const StartupAgents: seq<Agent> := [
    Agent("22", "行业分析员", "深度行业研究分析，市场趋势洞察，竞争对手分析",
          StartupLabel, "analyst", 156, 15, 234, false),
    Agent("23", "市场研究专家", "市场调研分析，用户画像构建，商业模式验证",
          StartupLabel, "analyst", 0, 0, 189, true),
    Agent("24", "产品经理", "产品规划设计，需求分析管理，产品迭代优化",
          StartupLabel, "product_manager", 198, 18, 345, false),
    Agent("25", "MVP设计师", "最小可行产品设计，快速原型验证，用户体验优化",
          StartupLabel, "product_manager", 167, 16, 278, false),
    Agent("26", "投资助理", "融资方案制定，投资人对接，商业计划书撰写",
          StartupLabel, "investment_assistant", 145, 20, 156, false),
    Agent("27", "财务专家", "财务模型构建，投资回报分析，估值计算",
          StartupLabel, "investment_assistant", 0, 0, 123, true),
    Agent("28", "法务专家", "公司注册指导，合同审核起草，知识产权保护",
          StartupLabel, "legal_expert", 134, 25, 198, false),
    Agent("29", "合规顾问", "行业合规咨询，政策解读分析，风险评估管理",
          StartupLabel, "legal_expert", 0, 0, 167, true),
    Agent("30", "财务专家", "财务规划管理，成本控制优化，税务筹划建议",
          StartupLabel, "finance_expert", 176, 22, 234, false),
    Agent("31", "会计助理", "日常记账管理，财务报表制作，税务申报协助",
          StartupLabel, "finance_expert", 0, 0, 145, true)
  ]

  /** The catalog, in the source's order: the four runs of listings above. */
  const Agents: seq<Agent> := GeneralAgents + BeautyAgents + EducationAgents + StartupAgents

  /** `agent => agent.category === categoryName` */
  function InCategory(categoryName: string): Agent -> bool
  {
    (a: Agent) => a.category == categoryName
  }

  /** An entry of `categories`: an industry key, its label and how many
      listings carry that label. */
  datatype Category = Category(id: string, name: string, count: nat)

  /** `agents.filter(a => a.category === categoryName).length` */
  function CountInCategory(categoryName: string): nat
  {
    |Filter(InCategory(categoryName), Agents)|
  }

  const Categories: seq<Category> := [
    Category("general", GeneralLabel, CountInCategory(GeneralLabel)),
    Category("beauty", BeautyLabel, CountInCategory(BeautyLabel)),
    Category("education", EducationLabel, CountInCategory(EducationLabel)),
    Category("startup", StartupLabel, CountInCategory(StartupLabel))
  ]

  /** No two listings share an id. */
  predicate IdsDistinct(s: seq<Agent>)
  {
    forall i, j | 0 <= i < j < |s| :: s[i].id != s[j].id
  }

  /** The listings of `run` carry the ids `start`, `start + 1`, ... in order. */
  predicate NumberedFrom(run: seq<Agent>, start: nat)
  {
    forall i | 0 <= i < |run| :: run[i].id == NatToString(start + i)
  }

  lemma GeneralNumbered() ensures NumberedFrom(GeneralAgents, 1) {}
  lemma BeautyNumbered() ensures NumberedFrom(BeautyAgents, 10) {
    forall i | 0 <= i < |BeautyAgents| ensures BeautyAgents[i].id == NatToString(10 + i) {
      TwoDigits(10 + i);
    }
  }
  lemma EducationNumbered() ensures NumberedFrom(EducationAgents, 19) {}
  lemma StartupNumbered() ensures NumberedFrom(StartupAgents, 22) {
    forall i | 0 <= i < |StartupAgents| ensures StartupAgents[i].id == NatToString(22 + i) {
      TwoDigits(22 + i);
    }
  }

  /** A two-digit counter is written as its two digits. */
  lemma TwoDigits(n: nat)
    requires 10 <= n < 100
    ensures NatToString(n) == [DigitChar(n / 10), DigitChar(n % 10)]
  {
  }

  /** Two runs numbered back to back make one numbered run. */
  lemma NumberedConcat(a: seq<Agent>, b: seq<Agent>, start: nat)
    requires NumberedFrom(a, start) && NumberedFrom(b, start + |a|)
    ensures NumberedFrom(a + b, start)
  {
    forall i | 0 <= i < |a + b|
      ensures (a + b)[i].id == NatToString(start + i)
    {
      if i >= |a| {
        assert (a + b)[i] == b[i - |a|];
      }
    }
  }

  /** The ids are the decimal numerals 1, 2, 3, ... in catalog order. */
  lemma IdsCountUp()
    ensures NumberedFrom(Agents, 1)
  {
    GeneralNumbered();
    BeautyNumbered();
    EducationNumbered();
    StartupNumbered();
    NumberedConcat(EducationAgents, StartupAgents, 19);
    NumberedConcat(BeautyAgents, EducationAgents + StartupAgents, 10);
    NumberedConcat(GeneralAgents, BeautyAgents + (EducationAgents + StartupAgents), 1);
    assert Agents == GeneralAgents + (BeautyAgents + (EducationAgents + StartupAgents));
  }

  /** A run numbered by consecutive counters has distinct ids. */
  lemma NumberedDistinct(run: seq<Agent>, start: nat)
    requires NumberedFrom(run, start)
    ensures IdsDistinct(run)
  {
    forall i, j | 0 <= i < j < |run| ensures run[i].id != run[j].id {
      if run[i].id == run[j].id {
        NatToStringInjective(start + i, start + j);
      }
    }
  }

  lemma AgentIdsDistinct()
    ensures IdsDistinct(Agents)
  {
    IdsCountUp();
    NumberedDistinct(Agents, 1);
  }


  predicate IsLabel(c: string)
  {
    c == GeneralLabel || c == BeautyLabel || c == EducationLabel || c == StartupLabel
  }

  /** A listing that is not launched yet costs nothing and has no likes. */
  predicate PrelaunchIsFree(a: Agent)
  {
    a.isPrelaunch ==> a.price == 0 && a.likes == 0
  }

  /** Likes, prices and baseline counts are never negative. */
  predicate NonNegative(a: Agent)
  {
    a.likes >= 0 && a.price >= 0 && a.bossCount >= 0
  }

  /** Every listing of `run` carries the label `c`, and its numbers are sane. */
  predicate RunListed(run: seq<Agent>, c: string)
  {
    forall i | 0 <= i < |run| :: run[i].category == c && PrelaunchIsFree(run[i]) && NonNegative(run[i])
  }

  lemma GeneralListed() ensures RunListed(GeneralAgents, GeneralLabel) {}
  lemma BeautyListed() ensures RunListed(BeautyAgents, BeautyLabel) {}
  lemma EducationListed() ensures RunListed(EducationAgents, EducationLabel) {}
  lemma StartupListed() ensures RunListed(StartupAgents, StartupLabel) {}

  /** Each run of listings carries its own label. */
  predicate RunsListed()
  {
    && RunListed(GeneralAgents, GeneralLabel)
    && RunListed(BeautyAgents, BeautyLabel)
    && RunListed(EducationAgents, EducationLabel)
    && RunListed(StartupAgents, StartupLabel)
  }

  lemma RunsAreListed()
    ensures RunsListed()
  {
    GeneralListed();
    BeautyListed();
    EducationListed();
    StartupListed();
  }

  lemma InRuns(a: Agent)
    requires a in Agents
    ensures a in GeneralAgents || a in BeautyAgents || a in EducationAgents || a in StartupAgents
  {
    assert Agents == GeneralAgents + (BeautyAgents + (EducationAgents + StartupAgents));
  }

  /** Every listing is in one of the four categories, a listing that is not
      launched yet is free and has no likes, and no counter is negative. */
  lemma CatalogWellFormed()
    ensures forall a | a in Agents :: IsLabel(a.category) && PrelaunchIsFree(a) && NonNegative(a)
  {
    RunsAreListed();
    forall a | a in Agents ensures IsLabel(a.category) && PrelaunchIsFree(a) && NonNegative(a) {
      InRuns(a);
    }
  }

  /** Filtering the catalog by a label picks out exactly the run of listings
      written under that label, and nothing for any other string. */
  lemma FilterByLabel(c: string)
    ensures Filter(InCategory(c), Agents)
         == (if c == GeneralLabel then GeneralAgents else [])
          + (if c == BeautyLabel then BeautyAgents else [])
          + (if c == EducationLabel then EducationAgents else [])
          + (if c == StartupLabel then StartupAgents else [])
  {
    RunsAreListed();
    FilterOfRuns(c, GeneralAgents, BeautyAgents, EducationAgents, StartupAgents);
  }

  /** The same fact for any four runs labelled with the four labels. */
  lemma {:induction false} FilterOfRuns(c: string, g: seq<Agent>, b: seq<Agent>, e: seq<Agent>, s: seq<Agent>)
    requires forall a | a in g :: a.category == GeneralLabel
    requires forall a | a in b :: a.category == BeautyLabel
    requires forall a | a in e :: a.category == EducationLabel
    requires forall a | a in s :: a.category == StartupLabel
    ensures Filter(InCategory(c), g + b + e + s)
         == (if c == GeneralLabel then g else [])
          + (if c == BeautyLabel then b else [])
          + (if c == EducationLabel then e else [])
          + (if c == StartupLabel then s else [])
  {
    FilterConcat(InCategory(c), g, b);
    FilterConcat(InCategory(c), g + b, e);
    FilterConcat(InCategory(c), g + b + e, s);
    FilterRun(c, GeneralLabel, g);
    FilterRun(c, BeautyLabel, b);
    FilterRun(c, EducationLabel, e);
    FilterRun(c, StartupLabel, s);
  }

  /** On a run of listings that all carry `own`, the filter by `c` keeps
      everything or nothing. */
  lemma FilterRun(c: string, own: string, run: seq<Agent>)
    requires forall a | a in run :: a.category == own
    ensures Filter(InCategory(c), run) == if c == own then run else []
  {
    if c == own {
      FilterKeepsAll(InCategory(c), run);
    } else {
      FilterDropsAll(InCategory(c), run);
    }
  }

  /** The `categories` counts are 9, 9, 3 and 10, and together they cover the
      whole catalog. */
  lemma CategoryCounts()
    ensures Categories[0].count == 9 && Categories[1].count == 9
    ensures Categories[2].count == 3 && Categories[3].count == 10
    ensures Categories[0].count + Categories[1].count + Categories[2].count + Categories[3].count == |Agents|
  {
    FilterByLabel(GeneralLabel);
    FilterByLabel(BeautyLabel);
    FilterByLabel(EducationLabel);
    FilterByLabel(StartupLabel);
  }
}
