/** The account page of `src/components/ProfilePage.tsx`: the personal-info
    card with its edit buffer, and the settings menu that can navigate to
    another page. */
module ProfileCenter {
  import opened Options

  /** The personal information the card shows. */
  datatype UserInfo = UserInfo(
    name: string,
    email: string,
    phone: string,
    company: string,
    position: string,
    joinDate: string)

  const InitialUser := UserInfo("张三", "zhangsan@example.com", "138****8888", "ABC科技有限公司", "产品经理", "2024-01-15")

  /** The five fields that have an editor; the join date has none. */
  datatype Field = Name | Email | Phone | Company | Position

  /** `{...info, field: value}` for one of the editable fields. */
  function WithField(info: UserInfo, field: Field, value: string): (r: UserInfo)
    ensures r.joinDate == info.joinDate
    ensures field == Name ==> r == info.(name := value)
    ensures field == Email ==> r == info.(email := value)
    ensures field == Phone ==> r == info.(phone := value)
    ensures field == Company ==> r == info.(company := value)
    ensures field == Position ==> r == info.(position := value)
  {
    match field
    case Name => info.(name := value)
    case Email => info.(email := value)
    case Phone => info.(phone := value)
    case Company => info.(company := value)
    case Position => info.(position := value)
  }

  /** The value of an editable field. */
  function FieldOf(info: UserInfo, field: Field): string
  {
    match field
    case Name => info.name
    case Email => info.email
    case Phone => info.phone
    case Company => info.company
    case Position => info.position
  }

  /** Writing a field and reading it back gives the value written; the other
      fields and the join date keep theirs; writing back the old value changes
      nothing. */
  lemma WithFieldReadBack(info: UserInfo, field: Field, other: Field, value: string)
    ensures FieldOf(WithField(info, field, value), field) == value
    ensures other != field ==> FieldOf(WithField(info, field, value), other) == FieldOf(info, other)
    ensures WithField(info, field, FieldOf(info, field)) == info
  {
  }

  // -------------------------------------------------------------------- menu

  /** The pages the app can navigate to. */
  datatype Page = DiscoverView | MyAgentsView | PluginsView | KnowledgeView | ProfileView | PricingView

  /** A settings menu entry; `action` is optional. */
  datatype MenuItem = MenuItem(title: string, description: string, action: Option<Page>)

  const MenuItems := [
    MenuItem("套餐与定价", "查看和升级您的服务套餐", Some(PricingView)),
    MenuItem("账单与付费", "查看消费记录和管理付费方式", None),
    MenuItem("账号安全", "密码修改、两步验证等安全设置", None),
    MenuItem("通知设置", "管理消息通知和提醒偏好", None),
    MenuItem("系统设置", "个性化设置和偏好配置", None),
    MenuItem("帮助中心", "常见问题和使用指南", None)
  ]

  /** `handleMenuClick(page)`: the page is handed to `onNavigate` when that
      handler was passed, and nothing happens otherwise. */
  function MenuClick(hasOnNavigate: bool, page: Page): (r: Option<Page>)
    ensures r.Some? <==> hasOnNavigate
    ensures r.Some? ==> r.value == page
  {
    if hasOnNavigate then Some(page) else None
  }

  /** A click on a menu entry, `item.action && handleMenuClick(item.action)`. */
  function ClickItem(hasOnNavigate: bool, item: MenuItem): (r: Option<Page>)
    ensures r.Some? <==> hasOnNavigate && item.action.Some?
    ensures r.Some? ==> r == item.action
  {
    match item.action
    case Some(page) => MenuClick(hasOnNavigate, page)
    case None => None
  }

  /** Only the first entry, 套餐与定价, navigates anywhere, and it goes to the
      pricing page when the handler is there. */
  lemma OnlyPricingNavigates(hasOnNavigate: bool)
    ensures forall i | 0 <= i < |MenuItems| :: ClickItem(hasOnNavigate, MenuItems[i]).Some? <==> hasOnNavigate && i == 0
    ensures hasOnNavigate ==> ClickItem(hasOnNavigate, MenuItems[0]) == Some(PricingView)
  {
  }

  // -------------------------------------------------------------------- card

  /** The card's state: whether it is in edit mode, the saved information and
      the buffer the editors write to. */
  class ProfilePage {
    var isEditing: bool
    var userInfo: UserInfo
    var editInfo: UserInfo

    /** Outside edit mode the buffer equals the saved information, and the
        buffer never carries another join date. */
    predicate Valid()
      reads this
    {
      && (!isEditing ==> editInfo == userInfo)
      && editInfo.joinDate == userInfo.joinDate
    }

    /** The information on screen: the buffer in edit mode (the join date has
        no editor and always shows the saved one), the saved values otherwise. */
    function Displayed(): (d: UserInfo)
      reads this
      requires Valid()
      ensures d.joinDate == userInfo.joinDate
      ensures !isEditing ==> d == userInfo
      ensures isEditing ==> d == editInfo
    {
      if isEditing then editInfo.(joinDate := userInfo.joinDate) else userInfo
    }

    /** `useState(false)`, the initial user, and the buffer copied from it. */
    constructor()
      ensures Valid() && !isEditing && userInfo == InitialUser && editInfo == InitialUser
    {
      isEditing := false;
      userInfo := InitialUser;
      editInfo := InitialUser;
    }

    /** The 编辑 button, shown outside edit mode, enters it with the buffer as
        it is. */
    method StartEditing()
      requires Valid()
      modifies this
      ensures Valid() && isEditing
      ensures userInfo == old(userInfo) && editInfo == old(editInfo)
    {
      isEditing := true;
    }

    /** One of the five editors, present only in edit mode, writes its field
        of the buffer. */
    method Edit(field: Field, value: string)
      requires Valid() && isEditing
      modifies this
      ensures Valid() && isEditing
      ensures editInfo == WithField(old(editInfo), field, value)
      ensures userInfo == old(userInfo)
    {
      editInfo := WithField(editInfo, field, value);
    }

    /** `handleSave`: the buffer becomes the saved information and edit mode
        ends. */
    method Save()
      requires Valid()
      modifies this
      ensures Valid() && !isEditing
      ensures userInfo == old(editInfo) && editInfo == old(editInfo)
      ensures userInfo.joinDate == old(userInfo.joinDate)
      ensures old(!isEditing) ==> userInfo == old(userInfo)
    {
      userInfo := editInfo;
      isEditing := false;
    }

    /** `handleCancel`: the buffer is reset to the saved information, which
        does not change, and edit mode ends. */
    method Cancel()
      requires Valid()
      modifies this
      ensures Valid() && !isEditing
      ensures userInfo == old(userInfo) && editInfo == old(userInfo)
    {
      editInfo := userInfo;
      isEditing := false;
    }
  }
}
