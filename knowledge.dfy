/** The knowledge base of `src/components/KnowledgePage.tsx`: its items, the
    list filter, the add form that prepends a new item, deletion by id, the
    four stat counts and the type badge tint. */
module Knowledge {
  import opened Options
  import opened Seqs
  import opened Text

  datatype ItemType = Workflow | Document | Plugin
  datatype Status = Active | Draft | Archived
  datatype FileType = Company | Department | Personal

  /** The string an item type is stored and selected as. */
  function TypeKey(t: ItemType): string
  {
    match t
    case Workflow => "workflow"
    case Document => "knowledge"
    case Plugin => "plugin"
  }

  /** The string a file type is stored and selected as. */
  function FileKey(f: FileType): string
  {
    match f
    case Company => "company"
    case Department => "department"
    case Personal => "personal"
  }

  /** A knowledge item; `fileType` is optional. */
  datatype Item = Item(
    id: string,
    title: string,
    itemType: ItemType,
    content: string,
    uploadDate: string,
    uploadBy: string,
    size: string,
    status: Status,
    fileType: Option<FileType>)

  /** The four items the page starts with. */
  const InitialItems: seq<Item> := [
    Item("1", "公司产品介绍手册", Workflow, "详细介绍公司所有产品的功能特点、使用方法和技术规格...",
         "2024-01-15", "张三", "2.5MB", Active, Some(Company)),
    Item("2", "客户服务常见问题", Document, "Q: 如何申请退款？A: 请联系客服提供订单号...",
         "2024-01-10", "李四", "1.2MB", Active, Some(Department)),
    Item("3", "员工操作规范", Plugin, "1. 接待客户时需要微笑服务 2. 处理投诉时要耐心倾听...",
         "2024-01-08", "王五", "800KB", Active, Some(Personal)),
    Item("4", "公司政策制度", Workflow, "公司考勤制度、请假流程、绩效考核标准...",
         "2024-01-05", "赵六", "1.8MB", Draft, Some(Company))
  ]

  // ------------------------------------------------------------------ filter

  /** The three tests of `filteredItems`: the term occurs, ignoring case, in
      the title or the content; the type selector is `all` or the item's
      type; the file-type selector is `all` or the item's file type (an item
      without one matches only `all`). */
  predicate Shown(searchTerm: string, selectedType: string, selectedFileType: string, item: Item)
  {
    && (IncludesIgnoringCase(item.title, searchTerm) || IncludesIgnoringCase(item.content, searchTerm))
    && (selectedType == "all" || TypeKey(item.itemType) == selectedType)
    && (selectedFileType == "all" || (item.fileType.Some? && FileKey(item.fileType.value) == selectedFileType))
  }

  function Showing(searchTerm: string, selectedType: string, selectedFileType: string): Item -> bool
  {
    (item: Item) => Shown(searchTerm, selectedType, selectedFileType, item)
  }

  /** `filteredItems`: the items that pass all three tests, in list order. */
  function FilteredItems(items: seq<Item>, searchTerm: string, selectedType: string, selectedFileType: string): (r: seq<Item>)
    ensures forall item :: item in r <==> item in items && Shown(searchTerm, selectedType, selectedFileType, item)
    ensures |r| <= |items|
  {
    Filter(Showing(searchTerm, selectedType, selectedFileType), items)
  }

  /** The filtered list keeps the list's order. */
  lemma FilteredInOrder(items: seq<Item>, searchTerm: string, selectedType: string, selectedFileType: string)
    ensures IsSubsequence(FilteredItems(items, searchTerm, selectedType, selectedFileType), items)
  {
    FilterIsSubsequence(Showing(searchTerm, selectedType, selectedFileType), items);
  }

  /** With an empty term and both selectors on `all` the whole list shows. */
  lemma NoFilterShowsAll(items: seq<Item>)
    ensures FilteredItems(items, "", "all", "all") == items
  {
    forall item | item in items ensures Showing("", "all", "all")(item) {
      ContainsEmpty(Lower(item.title));
    }
    FilterKeepsAll(Showing("", "all", "all"), items);
  }

  // -------------------------------------------------------------------- stats

  function OfType(t: ItemType): Item -> bool
  {
    (item: Item) => item.itemType == t
  }

  /** The per-type stat, `knowledgeItems.filter(item => item.type === t).length`. */
  function TypeCount(items: seq<Item>, t: ItemType): (n: nat)
    ensures n <= |items|
  {
    |Filter(OfType(t), items)|
  }

  /** The fourth stat: the items whose type is one of the three. */
  function AnyTypeCount(items: seq<Item>): nat
  {
    |Filter((item: Item) => item.itemType == Workflow || item.itemType == Document || item.itemType == Plugin, items)|
  }

  /** The three per-type stats add up to the fourth, which is the length of
      the list since every item has one of the three types. */
  lemma {:induction false} StatsAddUp(items: seq<Item>)
    ensures TypeCount(items, Workflow) + TypeCount(items, Document) + TypeCount(items, Plugin) == AnyTypeCount(items)
    ensures AnyTypeCount(items) == |items|
  {
    if items != [] {
      StatsAddUp(items[1..]);
    }
  }

  /** The page opens on two workflows, one document and one plugin. */
  lemma InitialStats()
    ensures TypeCount(InitialItems, Workflow) == 2
    ensures TypeCount(InitialItems, Document) == 1
    ensures TypeCount(InitialItems, Plugin) == 1
    ensures AnyTypeCount(InitialItems) == 4
  {
    StatsAddUp(InitialItems);
  }

  // -------------------------------------------------------------------- tints

  /** The badge tint of a type. */
  datatype Tone = Blue | Green | Purple | Gray

  /** `getTypeColor`: the tint stored for the key, gray for any other key. */
  function TypeColor(key: string): (c: Tone)
    ensures key == TypeKey(Workflow) ==> c == Blue
    ensures key == TypeKey(Document) ==> c == Green
    ensures key == TypeKey(Plugin) ==> c == Purple
    ensures key != TypeKey(Workflow) && key != TypeKey(Document) && key != TypeKey(Plugin) ==> c == Gray
  {
    if key == "workflow" then Blue
    else if key == "knowledge" then Green
    else if key == "plugin" then Purple
    else Gray
  }

  /** Gray is the fallback: exactly the keys that name no type get it. */
  lemma GrayIffUnknownType(key: string)
    ensures TypeColor(key) == Gray <==> forall t: ItemType :: TypeKey(t) != key
  {
    if key == "workflow" {
      assert TypeKey(Workflow) == key;
    } else if key == "knowledge" {
      assert TypeKey(Document) == key;
    } else if key == "plugin" {
      assert TypeKey(Plugin) == key;
    }
  }

  /** Each of the three types gets its own tint. */
  lemma TypeColorsDistinct(s: ItemType, t: ItemType)
    ensures TypeColor(TypeKey(s)) == TypeColor(TypeKey(t)) <==> s == t
  {
  }

  // ---------------------------------------------------------------- add form

  /** The add form, `newKnowledge`. */
  datatype Form = Form(title: string, itemType: ItemType, content: string, fileType: FileType)

  /** The form's defaults, restored after every successful add. */
  const EmptyForm := Form("", Workflow, "", Company)

  /** `newKnowledge.title && newKnowledge.content`: both are non-empty. */
  predicate Complete(form: Form)
  {
    form.title != "" && form.content != ""
  }

  /** `Math.round(length / 1024)`: the length in kilobytes, rounded to the
      nearest whole number with halves rounded up. */
  function RoundedKB(length: nat): (r: nat)
    ensures 2048 * r <= 2 * length + 1024 < 2048 * (r + 1)
  {
    (length + 512) / 1024
  }

  /** The item a complete form turns into; `now` stands for `Date.now()` and
      `today` for the current date. */
  function NewItem(form: Form, now: nat, today: string): (item: Item)
    ensures item.id == NatToString(now) && item.uploadDate == today
    ensures item.title == form.title && item.itemType == form.itemType
    ensures item.content == form.content && item.fileType == Some(form.fileType)
    ensures item.status == Active && item.uploadBy == "当前用户"
    ensures item.size == NatToString(RoundedKB(|form.content|)) + "KB"
  {
    Item(NatToString(now), form.title, form.itemType, form.content, today, "当前用户",
         NatToString(RoundedKB(|form.content|)) + "KB", Active, Some(form.fileType))
  }

  /** A new item shows first in the filtered list when it passes the current
      filter; otherwise the filtered list is as before. */
  lemma AddedItemShowsFirst(items: seq<Item>, item: Item, searchTerm: string, selectedType: string, selectedFileType: string)
    ensures Shown(searchTerm, selectedType, selectedFileType, item) ==>
      FilteredItems([item] + items, searchTerm, selectedType, selectedFileType)
        == [item] + FilteredItems(items, searchTerm, selectedType, selectedFileType)
    ensures !Shown(searchTerm, selectedType, selectedFileType, item) ==>
      FilteredItems([item] + items, searchTerm, selectedType, selectedFileType)
        == FilteredItems(items, searchTerm, selectedType, selectedFileType)
  {
    assert ([item] + items)[1..] == items;
  }

  /** Adding an item raises its type's stat by one and leaves the others. */
  lemma AddRaisesOneStat(items: seq<Item>, item: Item, t: ItemType)
    ensures TypeCount([item] + items, t) == TypeCount(items, t) + (if item.itemType == t then 1 else 0)
  {
    assert ([item] + items)[1..] == items;
  }

  // ------------------------------------------------------------------ delete

  function NotId(id: string): Item -> bool
  {
    (item: Item) => item.id != id
  }

  /** `handleDeleteItem(id)` keeps the items with another id. */
  function DeleteItem(items: seq<Item>, id: string): (r: seq<Item>)
    ensures forall item :: item in r <==> item in items && item.id != id
    ensures |r| <= |items|
  {
    Filter(NotId(id), items)
  }

  /** Deletion keeps the order of the rest, does nothing to a list without the
      id, and deleting twice is deleting once. */
  lemma DeleteProperties(items: seq<Item>, id: string)
    ensures IsSubsequence(DeleteItem(items, id), items)
    ensures (forall item | item in items :: item.id != id) ==> DeleteItem(items, id) == items
    ensures DeleteItem(DeleteItem(items, id), id) == DeleteItem(items, id)
  {
    FilterIsSubsequence(NotId(id), items);
    if forall item | item in items :: item.id != id {
      FilterKeepsAll(NotId(id), items);
    }
    FilterKeepsAll(NotId(id), DeleteItem(items, id));
  }

  /** Deleting and then filtering is filtering and then deleting: the row
      disappears from the visible list and nothing else moves. */
  lemma DeleteCommutesWithFilter(items: seq<Item>, id: string, searchTerm: string, selectedType: string, selectedFileType: string)
    ensures FilteredItems(DeleteItem(items, id), searchTerm, selectedType, selectedFileType)
         == DeleteItem(FilteredItems(items, searchTerm, selectedType, selectedFileType), id)
  {
    var p, d := Showing(searchTerm, selectedType, selectedFileType), NotId(id);
    var pd := (item: Item) => p(item) && d(item);
    var dp := (item: Item) => d(item) && p(item);
    FilterFilter(p, d, pd, items);
    FilterFilter(d, p, dp, items);
    FilterSame(pd, dp, items);
  }

  // -------------------------------------------------------------------- page

  /** The page's state: the list, the three filter controls, the two modal
      flags and the add form. */
  class KnowledgePage {
    var items: seq<Item>
    var searchTerm: string
    var selectedType: string
    var selectedFileType: string
    var showUploadModal: bool
    var showAddModal: bool
    var form: Form

    /** The initial state of every `useState`. */
    constructor()
      ensures items == InitialItems && form == EmptyForm
      ensures searchTerm == "" && selectedType == "all" && selectedFileType == "all"
      ensures !showUploadModal && !showAddModal
    {
      items := InitialItems;
      searchTerm := "";
      selectedType := "all";
      selectedFileType := "all";
      showUploadModal := false;
      showAddModal := false;
      form := EmptyForm;
    }

    /** The list the page renders. */
    function Visible(): (r: seq<Item>)
      reads this
      ensures forall item :: item in r <==> item in items && Shown(searchTerm, selectedType, selectedFileType, item)
      ensures IsSubsequence(r, items)
    {
      FilteredInOrder(items, searchTerm, selectedType, selectedFileType);
      FilteredItems(items, searchTerm, selectedType, selectedFileType)
    }

    /** `handleAddKnowledge`: an incomplete form changes nothing; a complete
        one is prepended as a new active item, the form is reset and the add
        modal closes. */
    method AddKnowledge(now: nat, today: string)
      modifies this
      ensures !Complete(old(form)) ==>
        items == old(items) && form == old(form) && showAddModal == old(showAddModal)
      ensures Complete(old(form)) ==>
        items == [NewItem(old(form), now, today)] + old(items) && form == EmptyForm && !showAddModal
      ensures |items| == |old(items)| + (if Complete(old(form)) then 1 else 0)
      ensures items[|items| - |old(items)|..] == old(items)
      ensures searchTerm == old(searchTerm) && selectedType == old(selectedType)
      ensures selectedFileType == old(selectedFileType) && showUploadModal == old(showUploadModal)
    {
      if form.title != "" && form.content != "" {
        var item := NewItem(form, now, today);
        items := [item] + items;
        form := EmptyForm;
        showAddModal := false;
      }
    }

    /** `handleDeleteItem(id)`: the list loses every item with the id. */
    method DeleteById(id: string)
      modifies this
      ensures items == DeleteItem(old(items), id)
      ensures form == old(form) && showAddModal == old(showAddModal) && showUploadModal == old(showUploadModal)
      ensures searchTerm == old(searchTerm) && selectedType == old(selectedType)
      ensures selectedFileType == old(selectedFileType)
      ensures Visible() == DeleteItem(old(Visible()), id)
    {
      DeleteCommutesWithFilter(items, id, searchTerm, selectedType, selectedFileType);
      items := DeleteItem(items, id);
    }

    /** The search box, the two selectors and the modal buttons set one field
        each; closing the add modal keeps what was typed into the form. */
    method SetSearchTerm(term: string)
      modifies this
      ensures searchTerm == term
      ensures items == old(items) && selectedType == old(selectedType) && selectedFileType == old(selectedFileType)
      ensures form == old(form) && showAddModal == old(showAddModal) && showUploadModal == old(showUploadModal)
    {
      searchTerm := term;
    }

    method SetSelectedType(key: string)
      modifies this
      ensures selectedType == key
      ensures items == old(items) && searchTerm == old(searchTerm) && selectedFileType == old(selectedFileType)
      ensures form == old(form) && showAddModal == old(showAddModal) && showUploadModal == old(showUploadModal)
    {
      selectedType := key;
    }

    method SetSelectedFileType(key: string)
      modifies this
      ensures selectedFileType == key
      ensures items == old(items) && searchTerm == old(searchTerm) && selectedType == old(selectedType)
      ensures form == old(form) && showAddModal == old(showAddModal) && showUploadModal == old(showUploadModal)
    {
      selectedFileType := key;
    }

    method SetAddModal(open: bool)
      modifies this
      ensures showAddModal == open
      ensures items == old(items) && searchTerm == old(searchTerm) && selectedType == old(selectedType)
      ensures selectedFileType == old(selectedFileType) && form == old(form) && showUploadModal == old(showUploadModal)
    {
      showAddModal := open;
    }

    method SetUploadModal(open: bool)
      modifies this
      ensures showUploadModal == open
      ensures items == old(items) && searchTerm == old(searchTerm) && selectedType == old(selectedType)
      ensures selectedFileType == old(selectedFileType) && form == old(form) && showAddModal == old(showAddModal)
    {
      showUploadModal := open;
    }

    /** The form's editors, `setNewKnowledge({...newKnowledge, field: value})`:
        one field changes, the rest of the form stays. */
    method EditTitle(title: string)
      modifies this
      ensures form == old(form).(title := title)
      ensures items == old(items) && searchTerm == old(searchTerm) && selectedType == old(selectedType)
      ensures selectedFileType == old(selectedFileType)
      ensures showAddModal == old(showAddModal) && showUploadModal == old(showUploadModal)
    {
      form := form.(title := title);
    }

    method EditType(itemType: ItemType)
      modifies this
      ensures form == old(form).(itemType := itemType)
      ensures items == old(items) && searchTerm == old(searchTerm) && selectedType == old(selectedType)
      ensures selectedFileType == old(selectedFileType)
      ensures showAddModal == old(showAddModal) && showUploadModal == old(showUploadModal)
    {
      form := form.(itemType := itemType);
    }

    method EditContent(content: string)
      modifies this
      ensures form == old(form).(content := content)
      ensures items == old(items) && searchTerm == old(searchTerm) && selectedType == old(selectedType)
      ensures selectedFileType == old(selectedFileType)
      ensures showAddModal == old(showAddModal) && showUploadModal == old(showUploadModal)
    {
      form := form.(content := content);
    }

    method EditFileType(fileType: FileType)
      modifies this
      ensures form == old(form).(fileType := fileType)
      ensures items == old(items) && searchTerm == old(searchTerm) && selectedType == old(selectedType)
      ensures selectedFileType == old(selectedFileType)
      ensures showAddModal == old(showAddModal) && showUploadModal == old(showUploadModal)
    {
      form := form.(fileType := fileType);
    }
  }
}
