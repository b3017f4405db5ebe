/** The plan table of `src/components/PricingPage.tsx`: the four plans, how a
    price is written, the yearly-savings line, the colour scheme a plan is
    drawn in and the label of its call-to-action button. */
module Pricing {
  import opened Options
  import opened Text

  /** A price is a whole number of yuan or the word `custom`. */
  datatype Price = Amount(yuan: int) | Custom

  datatype Cycle = Monthly | Yearly

  datatype Feature = Feature(name: string, included: bool)

  datatype Plan = Plan(
    id: string,
    name: string,
    monthly: Price,
    yearly: Price,
    description: string,
    color: string,
    popular: bool,
    features: seq<Feature>)

  const FreePlan := Plan("free", "免费版", Amount(0), Amount(0), "适合个人用户体验", "gray", false, [
    Feature("每月10次AI员工服务", true), Feature("基础客服支持", true),
    Feature("标准响应速度", true), Feature("基础数据分析", true),
    Feature("高级AI员工", false), Feature("优先客服支持", false),
    Feature("自定义工作流", false), Feature("团队协作功能", false)])

  const ProPlan := Plan("pro", "专业版", Amount(99), Amount(89), "适合中小企业使用", "purple", true, [
    Feature("每月500次AI员工服务", true), Feature("所有AI员工类型", true),
    Feature("优先响应速度", true), Feature("高级数据分析", true),
    Feature("自定义工作流", true), Feature("优先客服支持", true),
    Feature("API接口访问", true), Feature("团队协作功能", false)])

  const TeamPlan := Plan("team", "团队版", Amount(299), Amount(269), "适合团队协作使用", "blue", false, [
    Feature("每月2000次AI员工服务", true), Feature("所有AI员工类型", true),
    Feature("最快响应速度", true), Feature("企业级数据分析", true),
    Feature("高级自定义工作流", true), Feature("专属客服支持", true),
    Feature("API接口访问", true), Feature("团队协作功能", true)])

  const EnterprisePlan := Plan("enterprise", "企业版", Custom, Custom, "适合大型企业定制", "gold", false, [
    Feature("无限次AI员工服务", true), Feature("专属AI员工定制", true),
    Feature("极速响应保障", true), Feature("企业级安全合规", true),
    Feature("完全自定义工作流", true), Feature("7x24专属客服", true),
    Feature("完整API权限", true), Feature("高级团队管理", true)])

  /** The plans in the order the page lists them. */
  const Plans := [FreePlan, ProPlan, TeamPlan, EnterprisePlan]

  // ----------------------------------------------------------------- prices

  /** `formatPrice`: 联系销售 for `custom`, 免费 for zero, `¥` and the number
      otherwise. */
  function FormatPrice(price: Price): (s: string)
    ensures price == Custom ==> s == "联系销售"
    ensures price == Amount(0) ==> s == "免费"
    ensures price.Amount? && price.yuan != 0 ==> s == "¥" + IntToString(price.yuan)
  {
    match price
    case Custom => "联系销售"
    case Amount(n) => if n == 0 then "免费" else "¥" + IntToString(n)
  }

  /** The three kinds of price are written differently, and different
      non-negative amounts are written differently. */
  lemma FormatPriceDistinguishes(a: nat, b: nat)
    ensures a != 0 ==> FormatPrice(Amount(a)) != FormatPrice(Custom)
    ensures a != 0 ==> FormatPrice(Amount(a)) != FormatPrice(Amount(0))
    ensures FormatPrice(Amount(a)) == FormatPrice(Amount(b)) ==> a == b
  {
    assert FormatPrice(Custom)[0] == '联';
    assert FormatPrice(Amount(0))[0] == '免';
    if a != 0 {
      assert FormatPrice(Amount(a))[0] == '¥';
    }
    if b != 0 {
      assert FormatPrice(Amount(b))[0] == '¥';
    }
    if FormatPrice(Amount(a)) == FormatPrice(Amount(b)) {
      if a != 0 && b != 0 {
        assert NatToString(a) == FormatPrice(Amount(a))[1..];
        assert NatToString(b) == FormatPrice(Amount(b))[1..];
        NatToStringInjective(a, b);
      }
    }
  }

  /** `plan.price[billingCycle]` */
  function CurrentPrice(plan: Plan, cycle: Cycle): (p: Price)
    ensures cycle == Monthly ==> p == plan.monthly
    ensures cycle == Yearly ==> p == plan.yearly
  {
    match cycle
    case Monthly => plan.monthly
    case Yearly => plan.yearly
  }

  /** A positive number, the condition of the `/月` suffix and of the
      savings line. */
  predicate PositiveAmount(price: Price)
  {
    price.Amount? && price.yuan > 0
  }

  /** The `/月` suffix follows a price exactly when it is a positive number. */
  function PerMonthSuffix(price: Price): (s: string)
    ensures s != "" <==> PositiveAmount(price)
  {
    if PositiveAmount(price) then "/月" else ""
  }

  /** The yearly-savings figure, `(monthly - current) * 12`, shown only on the
      yearly cycle for a positive numeric price. */
  function Savings(plan: Plan, cycle: Cycle): (r: Option<int>)
    ensures r.Some? <==> cycle == Yearly && PositiveAmount(plan.yearly) && plan.monthly.Amount?
    ensures r.Some? ==> r.value == (plan.monthly.yuan - plan.yearly.yuan) * 12
  {
    var current := CurrentPrice(plan, cycle);
    if cycle == Yearly && PositiveAmount(current) && plan.monthly.Amount?
    then Some((plan.monthly.yuan - current.yuan) * 12)
    else None
  }

  /** The savings line as the page writes it. */
  function SavingsLine(plan: Plan, cycle: Cycle): (s: string)
    ensures s != "" <==> Savings(plan, cycle).Some?
    ensures Savings(plan, cycle).Some? ==> s == "年付节省 ¥" + IntToString(Savings(plan, cycle).value)
  {
    match Savings(plan, cycle)
    case Some(n) => "年付节省 ¥" + IntToString(n)
    case None => ""
  }

  /** Both prices of a plan are numbers, or both are `custom`. */
  predicate SameKind(plan: Plan)
  {
    plan.monthly.Amount? <==> plan.yearly.Amount?
  }

  /** Every plan is priced in one kind; a numeric yearly price never exceeds
      the monthly one and is at most nine tenths of it, as the 省10% badge on
      the yearly toggle says. */
  lemma YearlyNeverDearer()
    ensures forall plan | plan in Plans :: SameKind(plan)
    ensures forall plan | plan in Plans && plan.monthly.Amount? ::
      0 <= plan.yearly.yuan <= plan.monthly.yuan && 10 * plan.yearly.yuan <= 9 * plan.monthly.yuan
  {
  }

  /** Savings are shown on the yearly cycle for the paid, numeric plans only,
      are never negative, and are 120 for pro and 360 for team. */
  lemma SavingsOfPlans(cycle: Cycle)
    ensures forall plan | plan in Plans && Savings(plan, cycle).Some? :: Savings(plan, cycle).value >= 0
    ensures Savings(FreePlan, cycle) == None && Savings(EnterprisePlan, cycle) == None
    ensures cycle == Monthly ==> Savings(ProPlan, cycle) == None && Savings(TeamPlan, cycle) == None
    ensures cycle == Yearly ==> Savings(ProPlan, cycle) == Some(120) && Savings(TeamPlan, cycle) == Some(360)
  {
    YearlyNeverDearer();
  }

  // ------------------------------------------------------------------ colours

  /** The colour scheme a plan card is drawn in. */
  datatype Scheme = GrayScheme | PurpleScheme | BlueScheme | GoldScheme

  /** `getColorClasses`: the scheme stored for the key, the gray one for any
      other key. */
  function ColorClasses(color: string): (s: Scheme)
    ensures s == PurpleScheme <==> color == "purple"
    ensures s == BlueScheme <==> color == "blue"
    ensures s == GoldScheme <==> color == "gold"
    ensures s == GrayScheme <==> color != "purple" && color != "blue" && color != "gold"
  {
    if color == "purple" then PurpleScheme
    else if color == "blue" then BlueScheme
    else if color == "gold" then GoldScheme
    else GrayScheme
  }

  /** The keys of the colour map. */
  const SchemeKeys := {"gray", "purple", "blue", "gold"}

  /** An unknown key falls back to gray; the four plans use four known keys
      and so four different schemes. */
  lemma ColorClassesFallback(color: string)
    ensures color !in SchemeKeys ==> ColorClasses(color) == GrayScheme
    ensures ColorClasses(color) != GrayScheme ==> color in SchemeKeys
    ensures forall plan | plan in Plans :: plan.color in SchemeKeys
    ensures forall i, j | 0 <= i < j < |Plans| :: ColorClasses(Plans[i].color) != ColorClasses(Plans[j].color)
  {
  }

  // ---------------------------------------------------------------- the button

  /** The call-to-action label: 立即开始 for `free`, 联系销售 for `enterprise`,
      选择方案 otherwise. */
  function CtaLabel(planId: string): (s: string)
    ensures planId == "free" ==> s == "立即开始"
    ensures planId == "enterprise" ==> s == "联系销售"
    ensures planId != "free" && planId != "enterprise" ==> s == "选择方案"
  {
    if planId == "free" then "立即开始"
    else if planId == "enterprise" then "联系销售"
    else "选择方案"
  }

  /** A plan whose price is `custom` has the 联系销售 button its price text
      announces, a free plan the 立即开始 button, and the priced plans the
      选择方案 button. */
  lemma CtaMatchesPrice(cycle: Cycle)
    ensures forall plan | plan in Plans && CurrentPrice(plan, cycle) == Custom ::
      CtaLabel(plan.id) == FormatPrice(CurrentPrice(plan, cycle))
    ensures forall plan | plan in Plans && CurrentPrice(plan, cycle) == Amount(0) :: CtaLabel(plan.id) == "立即开始"
    ensures forall plan | plan in Plans && PositiveAmount(CurrentPrice(plan, cycle)) :: CtaLabel(plan.id) == "选择方案"
  {
  }

  // ---------------------------------------------------------------- features

  /** The number of ticked features of a plan. */
  function IncludedCount(features: seq<Feature>): (n: nat)
    ensures n <= |features|
  {
    if features == [] then 0
    else (if features[0].included then 1 else 0) + IncludedCount(features[1..])
  }

  /** Each plan in the list ticks at least as many features as the one before,
      and the most expensive plan ticks them all. */
  lemma FeaturesGrow()
    ensures IncludedCount(FreePlan.features) == 4
    ensures IncludedCount(ProPlan.features) == 7
    ensures IncludedCount(TeamPlan.features) == 8
    ensures IncludedCount(EnterprisePlan.features) == |EnterprisePlan.features|
  {
  }
}
