# agent-frontend catalog engine, in Dafny

This project models the logic behind the agent-frontend web app, a catalog of
AI "employees" that a business owner can browse by industry and role, hire,
mark as wanted before launch, and chat with. It also covers the pages around
the catalog: the owner's hired team, the knowledge base, the pricing table
and the profile page.

Modules:

- `Catalog` (`catalog.dfy`) holds the 31 listings of `src/data/agents.ts`
  and their per-category counts.
- `Discover` (`discover.dfy`) holds the pure half of `src/App.tsx`:
  - the per-industry role table with its live counts;
  - the first role of an industry;
  - the three-stage filter (industry, role, search);
  - the "launched first" stable sort.
- `Interaction` (`interaction.dfy`) holds the stateful half of `src/App.tsx`:
  - the hire/want ledger, which is the `hired` and `wanted` id sets plus the
    two per-id count overlays;
  - the class `App`, whose methods are the handlers that update it.
- `Card` (`card.dfy`) models `src/components/AgentCard.tsx`: what a click
  emits, which button shows, the count line and the badge tint.
- `MyAgents` (`my_agents.dfy`) models `src/components/MyAgentsPage.tsx`: the
  hired view per industry and firing from its local copy.
- `Knowledge` (`knowledge.dfy`) models `src/components/KnowledgePage.tsx`:
  the item filter, the four stats, adding and deleting items, and the add
  form.
- `Pricing` (`pricing.dfy`) models `src/components/PricingPage.tsx`:
  - the four plans and how a price is written;
  - the yearly savings;
  - the colour scheme and the button label.
- `ProfileCenter` (`profile.dfy`) models `src/components/ProfilePage.tsx`:
  the edit/save/cancel cycle of the personal-info card and the settings menu.
- `Options`, `Seqs` and `Text` are support modules:
  - `Option` and map lookup;
  - `Array.prototype.filter`/`find` as `Filter`/`Find`, with their lemmas;
  - `toLowerCase`, `includes` and number-to-text.

Modelling conventions:

- The source mutates React state through setters. Each component whose state
  changes is a class whose fields are that state.
- Each setter or handler is a method. The method's postcondition states the
  whole new state, either directly or as a specification function of the
  old state (for example `Interaction.Hire`). The properties are proved as
  lemmas about those functions.
- Prices are integers. An agent's price is in fen, so the source's 0.08 is
  8. A plan price is in whole yuan.

## Model

| member | source | states |
|---|---|---|
| `Options.Lookup` | src/App.tsx:150 | An `obj[key]` lookup is defined exactly when the key is in the map, and then gives the stored value. |
| `Seqs.Filter` | src/App.tsx:101 | `Array.prototype.filter`: an element is kept exactly when it is in the input and passes the predicate, and the result is never longer than the input. |
| `Seqs.Find` | src/App.tsx:132 | `Array.prototype.find`: the result is the first element that passes the predicate. Nothing is found exactly when no element passes. |
| `Seqs.FilterIsSubsequence` | src/App.tsx:88-118 | A filter keeps the survivors in their original order. |
| `Seqs.FilterFilter` | src/App.tsx:100-115 | Two filters in a row are one filter by the conjunction. |
| `Seqs.PartitionedSplits` | src/App.tsx:121-129 | A sequence with every `p`-element before every non-`p` element is the `p` filter followed by the complement filter. |
| `Text.Lower` | src/App.tsx:112 | `toLowerCase` keeps the length and lowers each character. Lowering twice is lowering once (`Text.LowerIdempotent`). |
| `Text.Contains` | src/App.tsx:112-113 | `includes`: true exactly when the pattern occurs at some position. |
| `Text.NatToString` | src/components/KnowledgePage.tsx:114-120 | A number in decimal: a non-empty string of digits, with two or more digits exactly from 10 on. |
| `Text.NatToStringInjective` | src/components/KnowledgePage.tsx:114 | Different numbers are written differently, so `Date.now().toString()` ids from different instants differ. |
| `Text.ParseNatToString` | src/components/KnowledgePage.tsx:114 | Reading a written number back gives the number, so the decimal text of an id loses nothing. |
| `Catalog.IdsCountUp` | src/data/agents.ts:21-403 | The listings' ids are `"1"` to `"31"` in catalog order. |
| `Catalog.AgentIdsDistinct` | src/data/agents.ts:21-403 | No two listings share an id, so `find` by id identifies one listing. |
| `Catalog.CatalogWellFormed` | src/data/agents.ts:21-403 | Every listing carries one of the four category labels. Every prelaunch listing is free. No rating, count or price is negative. |
| `Catalog.FilterByLabel` | src/data/agents.ts:21-403 | Filtering the catalog by a label gives exactly that label's block of listings, in order. Any other string gives nothing. |
| `Catalog.CategoryCounts` | src/data/agents.ts:405-410 | The four category counts are 9, 9, 3 and 10. They agree with the catalog and add up to its 31 listings. |
| `Discover.IndustryOf` | src/App.tsx:20-26 | The industry-key map: a key maps to an industry only if it is that industry's key. `Discover.IndustryKeyRoundTrip` gives the converse. |
| `Discover.IndustryKeyRoundTrip` | src/App.tsx:20-26 | Each of the four industries is found again from its own key. |
| `Discover.ByIndustry` | src/App.tsx:27-29 | The industry stage keeps exactly the listings labelled for the key's industry. An unknown key keeps everything. |
| `Discover.CountForRole` | src/App.tsx:18-31 | `getCountForRole` over the catalog never exceeds the catalog's size. `Discover.CountForRoleCounts` says which listings it counts. |
| `Discover.Roles` | src/App.tsx:33-58 | Every industry's role table is non-empty. |
| `Discover.CountForRoleCounts` | src/App.tsx:18-31 | `getCountForRole` is the number of listings in the industry's category with that role. For an unknown key it counts the role across the whole catalog. |
| `Discover.TableIndustry` | src/App.tsx:60 | An unknown industry key selects the general role table. |
| `Discover.WithCounts` | src/App.tsx:34-57 | Each role entry keeps its id and name and gains its live count. The order and length are unchanged. |
| `Discover.GetRoleCategories` | src/App.tsx:16-61 | `getRoleCategories` returns the industry's role table, in order, with each count equal to `getCountForRole`. |
| `Discover.UnknownIndustryFallsBack` | src/App.tsx:60 | Any key that names no industry gets the general table, with the same counts. |
| `Discover.FirstRoleId` | src/App.tsx:75-78 | `getFirstRoleId` is the id of the first entry of the role table shown for that industry. |
| `Discover.RoleIdsDistinct` | src/App.tsx:33-58 | No industry's table lists a role twice. |
| `Discover.IndustryRunIsFiltered` | src/App.tsx:27-29 | The industry stage of the whole catalog is that industry's block of listings. |
| `Discover.IndustryRunIsTabled` | src/App.tsx:33-58 | Every listing of an industry has a role that the industry's table lists. |
| `Discover.RoleCountsCoverIndustry` | src/App.tsx:18-31 | The role counts of an industry's table add up to the size of its category, so no listing is missed or counted twice. |
| `Discover.RoleCategoriesCoverIndustry` | src/App.tsx:16-61 | The counts `getRoleCategories` shows for an industry add up to the category count of `src/data/agents.ts`. |
| `Discover.FilterStages` | src/App.tsx:88-118 | The three-stage pipeline keeps exactly the listings that match the industry, the role (when one is selected) and the search term (when one is typed). |
| `Discover.FilteredAgents` | src/App.tsx:88-118 | `filteredAgents` over the catalog keeps exactly the catalog listings that pass all three stages. |
| `Discover.StagesAreOneFilter` | src/App.tsx:88-118 | Running the three stages one after another equals one filter by their conjunction. |
| `Discover.FilteredIsOneFilter` | src/App.tsx:88-118 | `filteredAgents` is that single filter of the catalog and keeps catalog order. |
| `Discover.EmptySearchKeepsAll` | src/App.tsx:110-115 | An empty search term drops nothing. |
| `Discover.Compare` | src/App.tsx:122-128 | The comparator is positive exactly when only the first listing is prelaunch, and negative exactly when only the second is. Otherwise it is zero. |
| `Discover.SortedAgents` | src/App.tsx:121-129 | `sortedAgents` holds exactly the listings of its input. `Discover.SortedIsOrderedPermutation`, `Discover.SortedIsStable` and `Discover.SortedIsUnique` prove it is the stable sort by `Discover.Compare`. |
| `Discover.SortedIsOrderedPermutation` | src/App.tsx:121-129 | `sortedAgents` is a permutation of its input, and no pair of its elements is out of comparator order. |
| `Discover.SortedIsStable` | src/App.tsx:121-129 | The sort keeps the relative order of the launched listings and of the prelaunch listings. |
| `Discover.SortedIsUnique` | src/App.tsx:121-129 | Any comparator-ordered arrangement that keeps both groups' orders is exactly the sorted result, so the stable sort has one answer. |
| `Interaction.AgentsWellFormed` | src/data/agents.ts:21-403 | The catalog meets what the ledger relies on: distinct ids, prelaunch listings are free, and counts are non-negative. |
| `Interaction.FindAgent` | src/App.tsx:132-133 | A found listing is in the catalog and has the requested id. Nothing is found exactly when no listing has it. |
| `Interaction.FoundIsTheListing` | src/App.tsx:132 | With distinct ids, looking up a listing's id returns that very listing. |
| `Interaction.Max` | src/App.tsx:143 | `Math.max` is at least both arguments and equals one of them. |
| `Interaction.OrElse` | src/App.tsx:143 | `x \|\| fallback` on a count falls back both when the entry is missing and when it is zero. |
| `Interaction.Unwant` | src/App.tsx:138-144 | Un-wanting removes the id from `wanted` and leaves `hired`, the boss counts and every other want count alone. The new count never drops below the baseline. On a non-negative baseline, a count above the baseline goes down by exactly one. |
| `Interaction.Want` | src/App.tsx:145-151 | Wanting adds the id to `wanted` and raises its want count by one over the old entry, or over the baseline when there is none. Nothing else changes. |
| `Interaction.HireOne` | src/App.tsx:155-161 | Hiring adds the id to `hired` and raises its boss count by one over the old entry, or over the baseline when there is none. Nothing else changes. |
| `Interaction.Hire` | src/App.tsx:131-163 | One `handleHireAgent` step. An id with no listing changes nothing. `hired` only grows, and only by this id. `wanted` changes only in this id. `hired` changes only for a launched listing, and `wanted` only for a prelaunch one. |
| `Interaction.HireUnknownIsNoop` | src/App.tsx:131-133 | Hiring an id with no listing changes nothing. |
| `Interaction.WantToggles` | src/App.tsx:135-154 | On a prelaunch listing, a click flips its membership of `wanted` and leaves `hired` and the boss counts alone. |
| `Interaction.HireLaunched` | src/App.tsx:155-162 | Hiring a launched listing adds it to `hired` and raises its boss count by one. The `wanted` set and the want counts do not change. |
| `Interaction.HireTimesCounts` | src/App.tsx:155-162 | Hiring a launched listing `n` times from a given count adds exactly `n`, because the set only grows and the count is never capped. |
| `Interaction.EmptyLedgerValid` | src/App.tsx:67-72 | The initial empty sets and maps satisfy the ledger invariant. |
| `Interaction.WantPreservesValid` | src/App.tsx:135-154 | A want toggle keeps the invariant. Each want count is the baseline plus one exactly while wanted. Each boss count is above the baseline on a hired, launched listing. |
| `Interaction.UnwantPreservesValid` | src/App.tsx:138-144 | Un-wanting a wanted listing keeps the ledger invariant. |
| `Interaction.WantOnePreservesValid` | src/App.tsx:145-151 | Wanting a listing that is not wanted keeps the ledger invariant. |
| `Interaction.HireLaunchedPreservesValid` | src/App.tsx:155-162 | Hiring a launched listing keeps the ledger invariant. |
| `Interaction.HirePreservesValid` | src/App.tsx:131-163 | `handleHireAgent` on any id keeps the ledger invariant. |
| `Interaction.ShownWantCountTracksWanted` | src/App.tsx:141-151 | On a valid ledger the want count shown for a prelaunch listing is its baseline, plus one while it is wanted. |
| `Interaction.WantTwiceRestores` | src/App.tsx:135-154 | Two clicks on a prelaunch listing restore its `wanted` membership and its shown want count. |
| `Interaction.UnwantThenWant` | src/App.tsx:138-151 | Un-wanting then wanting a wanted listing restores the set and the shown count. |
| `Interaction.WantThenUnwant` | src/App.tsx:138-151 | Wanting then un-wanting a listing that is not wanted restores the set and the shown count. |
| `Interaction.OrElseAgreesWhenWanted` | src/App.tsx:143 | On a valid ledger the `\|\|` fallback in the un-want branch reads the same value as an `!== undefined` test would. |
| `Interaction.App.constructor` | src/App.tsx:63-72 | The initial state: the general industry, an empty role and search, an empty ledger and no chat partner. The ledger invariant holds. |
| `Interaction.App.Shown` | src/App.tsx:88-129 | The grid shows exactly those listings of the app's own catalog that pass the three filter stages, sorted launched-first. |
| `Interaction.App.SyncFirstRole` | src/App.tsx:81-83 | The mount effect selects the first role of the current industry and changes nothing else. |
| `Interaction.App.HireAgent` | src/App.tsx:131-163 | `handleHireAgent` leaves the ledger equal to `Hire` of the old one, keeps the ledger invariant and changes no other state. |
| `Interaction.App.UnwantStep` | src/App.tsx:138-144 | The un-want branch removes the id from `wanted` and writes `max(baseline, count − 1)`. |
| `Interaction.App.WantStep` | src/App.tsx:145-151 | The want branch adds the id to `wanted` and writes the old count (or the baseline) plus one. |
| `Interaction.App.HireStep` | src/App.tsx:155-161 | The launched branch adds the id to `hired` and writes the old boss count (or the baseline) plus one. |
| `Interaction.App.IndustryChange` | src/App.tsx:173-177 | Switching industry selects the new industry's first role. The search, the chat and the ledger are kept. |
| `Interaction.App.StartChat` | src/App.tsx:179-185 | A launched listing becomes the chat partner. A prelaunch listing changes nothing. |
| `Interaction.App.BackFromChat` | src/App.tsx:187-189 | Leaving the chat clears the partner and nothing else. |
| `Interaction.App.SetSearchTerm` | src/App.tsx:299 | The search box sets the term only. |
| `Interaction.App.SetActiveCategory` | src/App.tsx:304 | The role selector sets the role only. |
| `Card.HireClick` | src/components/AgentCard.tsx:29-33 | A hire intent for this listing is emitted exactly when there is a handler and the listing is not hired or is prelaunch. |
| `Card.ChatClick` | src/components/AgentCard.tsx:35-40 | A chat intent for this listing is emitted exactly when there is a handler and the listing is launched. |
| `Card.ButtonOf` | src/components/AgentCard.tsx:72-98 | A launched card shows 派活 exactly when hired and 聘用 otherwise. A prelaunch card shows 取消想要 exactly when wanted and 想要 otherwise. |
| `Card.Click` | src/components/AgentCard.tsx:72-98 | A click's hire intent always names this card's listing, needs a hire handler, and never comes from a hired, launched card. A chat intent names this listing and comes only from a hired, launched card with a chat handler. |
| `Card.ClickIntents` | src/components/AgentCard.tsx:29-98 | A click never re-hires a hired, launched listing and never opens a chat with a prelaunch one. A prelaunch click always reaches the hire handler, which toggles "want". |
| `Card.CountLine` | src/components/AgentCard.tsx:104-108 | The count line reads "wanted by" for a prelaunch card and "used by" for a launched one, each after the shown count. |
| `Card.ShownCount` | src/components/AgentCard.tsx:104-108 | A prelaunch card shows its want overlay and a launched card its boss overlay. Either falls back to the catalog baseline when undefined. |
| `Card.PropsFor` | src/components/AgentGrid.tsx:36-45 | The grid passes the listing, membership of `hired` and `wanted`, the two overlay entries exactly when they are defined, and both handlers. |
| `Card.ShownCountFollowsLedger` | src/components/AgentCard.tsx:104-108 | On a valid ledger a prelaunch card shows its baseline, plus one while wanted. A launched card shows more than its baseline exactly when hired. |
| `Card.CategoryColor` | src/components/AgentCard.tsx:17-27 | The badge is pink exactly when the category contains 美业. Otherwise it is blue exactly when it contains 教育, and otherwise green exactly when it contains 初创. |
| `Card.LabelTints` | src/components/AgentCard.tsx:17-27 | The four catalog labels get pink, blue, green and the default gray. |
| `MyAgents.IndustryAgents` | src/components/MyAgentsPage.tsx:30-49 | `getIndustryAgents` keeps exactly the hired, launched catalog listings of the industry's category. An unknown industry key shows nothing. |
| `MyAgents.IndustryAgentsInCatalogOrder` | src/components/MyAgentsPage.tsx:30-49 | The hired view keeps catalog order. |
| `MyAgents.PrelaunchTestIsRedundant` | src/components/MyAgentsPage.tsx:32-34 | On a valid ledger no hired id names a prelaunch listing, so the `!isPrelaunch` test drops nothing. |
| `MyAgents.EmptyViewIff` | src/components/MyAgentsPage.tsx:97-123 | The empty state shows exactly when no hired, launched listing belongs to the industry. |
| `MyAgents.FireRemovesFromView` | src/components/MyAgentsPage.tsx:21-27 | Firing an id takes exactly that id's listings out of the view and keeps the rest in order. |
| `MyAgents.ShownBossCountAfterHires` | src/components/MyAgentsPage.tsx:296 | A hired listing's printed count is above its baseline. A listing hired `n` times from scratch prints the baseline plus `n`. |
| `MyAgents.ShownBossCount` | src/components/MyAgentsPage.tsx:296 | The printed boss count is the overlay entry when there is one, and the catalog baseline otherwise. |
| `MyAgents.MyAgentsPage.constructor` | src/components/MyAgentsPage.tsx:19 | The local hired set starts equal to the prop. |
| `MyAgents.MyAgentsPage.ShowsEmptyState` | src/components/MyAgentsPage.tsx:97-123 | The empty state shows exactly when no hired, launched listing of the catalog carries the selected industry's label. |
| `MyAgents.MyAgentsPage.FireAgent` | src/components/MyAgentsPage.tsx:21-27 | `handleFireAgent` removes the id from the local set only, and the view loses exactly that id's listings. Firing an id that is not there changes nothing. |
| `Knowledge.FilteredItems` | src/components/KnowledgePage.tsx:103-109 | An item shows exactly when the search hits its title or content (ignoring case) and both selectors are `all` or match it. |
| `Knowledge.KnowledgePage.Visible` | src/components/KnowledgePage.tsx:103-109 | The rendered list holds exactly the page's items that pass the search and both selectors, in list order. |
| `Knowledge.FilteredInOrder` | src/components/KnowledgePage.tsx:103-109 | The filter keeps list order. |
| `Knowledge.NoFilterShowsAll` | src/components/KnowledgePage.tsx:103-109 | With no search term and both selectors on `all`, every item shows. |
| `Knowledge.StatsAddUp` | src/components/KnowledgePage.tsx:226-267 | The workflow, document and plugin counts add up to the fourth stat, which is the number of items. |
| `Knowledge.TypeCount` | src/components/KnowledgePage.tsx:226-252 | A per-type stat never exceeds the number of items. `Knowledge.StatsAddUp` relates the three stats. |
| `Knowledge.InitialStats` | src/components/KnowledgePage.tsx:33-78 | The initial list has 2 workflows, 1 document, 1 plugin and 4 items. |
| `Knowledge.GrayIffUnknownType` | src/components/KnowledgePage.tsx:94-101 | The type badge is gray exactly for a key that is not one of the three item types. |
| `Knowledge.TypeColor` | src/components/KnowledgePage.tsx:94-101 | `getTypeColor` gives blue for `workflow`, green for `knowledge`, purple for `plugin`, and gray for every other key. |
| `Knowledge.TypeColorsDistinct` | src/components/KnowledgePage.tsx:94-101 | Different item types get different badge colours. |
| `Knowledge.RoundedKB` | src/components/KnowledgePage.tsx:120 | `Math.round(length / 1024)` is the nearest whole number of KB, with halves rounded up. |
| `Knowledge.NewItem` | src/components/KnowledgePage.tsx:113-123 | A new item carries the form's fields, the instant as its id, today as its date, the rounded size in KB, the active status and the current user. |
| `Knowledge.AddedItemShowsFirst` | src/components/KnowledgePage.tsx:124 | A prepended item heads the filtered list when the filters pass it. Otherwise the filtered list is unchanged. |
| `Knowledge.AddRaisesOneStat` | src/components/KnowledgePage.tsx:124 | Adding an item raises its own type's count by one and leaves the other counts alone. |
| `Knowledge.DeleteItem` | src/components/KnowledgePage.tsx:130-132 | Deletion keeps exactly the items with another id. |
| `Knowledge.DeleteProperties` | src/components/KnowledgePage.tsx:130-132 | Deletion keeps order, changes nothing for an absent id, and deleting twice is deleting once. |
| `Knowledge.DeleteCommutesWithFilter` | src/components/KnowledgePage.tsx:103-132 | Deleting and then filtering equals filtering and then deleting. |
| `Knowledge.KnowledgePage.constructor` | src/components/KnowledgePage.tsx:21-78 | The initial items, an empty search, both selectors on `all`, the empty form and both dialogs closed. |
| `Knowledge.KnowledgePage.AddKnowledge` | src/components/KnowledgePage.tsx:111-128 | An incomplete form changes nothing. A complete form prepends the new item, resets the form and closes the dialog. The old items stay behind it either way. |
| `Knowledge.KnowledgePage.DeleteById` | src/components/KnowledgePage.tsx:130-132 | The items lose exactly the given id, and so does the visible list. Nothing else changes. |
| `Knowledge.KnowledgePage.SetSearchTerm` | src/components/KnowledgePage.tsx:179 | The search box sets the term only. |
| `Knowledge.KnowledgePage.SetSelectedFileType` | src/components/KnowledgePage.tsx:187 | The file-type selector sets its key only. |
| `Knowledge.KnowledgePage.SetSelectedType` | src/components/KnowledgePage.tsx:198 | The type selector sets its key only. |
| `Knowledge.KnowledgePage.SetUploadModal` | src/components/KnowledgePage.tsx:152 | Opening or closing the upload dialog changes nothing else. |
| `Knowledge.KnowledgePage.SetAddModal` | src/components/KnowledgePage.tsx:159 | Opening or closing the add dialog changes nothing else. |
| `Knowledge.KnowledgePage.EditTitle` | src/components/KnowledgePage.tsx:392 | The title editor writes the form's title only. |
| `Knowledge.KnowledgePage.EditType` | src/components/KnowledgePage.tsx:401 | The type editor writes the form's type only. |
| `Knowledge.KnowledgePage.EditFileType` | src/components/KnowledgePage.tsx:413 | The file-type editor writes the form's file type only. |
| `Knowledge.KnowledgePage.EditContent` | src/components/KnowledgePage.tsx:425 | The content editor writes the form's content only. |
| `Pricing.FormatPrice` | src/components/PricingPage.tsx:126-130 | `custom` is written 联系销售, zero is written 免费, and any other amount as ¥ and the number. |
| `Pricing.FormatPriceDistinguishes` | src/components/PricingPage.tsx:126-130 | Different non-negative amounts, zero and `custom` are all written differently. |
| `Pricing.CurrentPrice` | src/components/PricingPage.tsx:186 | The price shown is the monthly one on the monthly cycle and the yearly one on the yearly cycle. |
| `Pricing.PerMonthSuffix` | src/components/PricingPage.tsx:219-221 | The /月 suffix appears exactly after a positive numeric price. |
| `Pricing.Savings` | src/components/PricingPage.tsx:223-227 | The savings line appears exactly on the yearly cycle for a positive numeric price with a numeric monthly price. Its figure is twelve times the monthly difference. |
| `Pricing.SavingsLine` | src/components/PricingPage.tsx:223-227 | The savings line is non-empty exactly when `Pricing.Savings` has a figure, and then reads 年付节省 ¥ followed by that figure. |
| `Pricing.YearlyNeverDearer` | src/components/PricingPage.tsx:12-89 | Each plan's two prices are both numbers or both `custom`. A yearly price is never above the monthly one and saves at least the 10% the toggle badge promises. |
| `Pricing.SavingsOfPlans` | src/components/PricingPage.tsx:223-227 | Savings are never negative. They appear only for pro (120) and team (360) on the yearly cycle. |
| `Pricing.ColorClasses` | src/components/PricingPage.tsx:91-124 | `getColorClasses` gives the purple, blue and gold schemes exactly for their own keys, and the gray scheme for every other key. |
| `Pricing.ColorClassesFallback` | src/components/PricingPage.tsx:91-124 | An unknown colour key falls back to the gray scheme. The four plans use four known keys and get four different schemes. |
| `Pricing.CtaLabel` | src/components/PricingPage.tsx:256-257 | The button reads 立即开始 for `free`, 联系销售 for `enterprise` and 选择方案 otherwise. |
| `Pricing.CtaMatchesPrice` | src/components/PricingPage.tsx:218-257 | A `custom`-priced plan's button repeats its price text. A free plan gets 立即开始 and a priced plan 选择方案. |
| `Pricing.FeaturesGrow` | src/components/PricingPage.tsx:12-89 | The plans tick 4, 7, 8 and all 8 features, so each plan offers at least as much as the one before. |
| `ProfileCenter.WithField` | src/components/ProfilePage.tsx:117-182 | An editor writes its own field and never the join date. |
| `ProfileCenter.WithFieldReadBack` | src/components/ProfilePage.tsx:117-182 | A written field reads back as written and the other fields keep theirs. Writing back the old value changes nothing. |
| `ProfileCenter.MenuClick` | src/components/ProfilePage.tsx:31-35 | `handleMenuClick` navigates to the page exactly when a navigation handler was passed. |
| `ProfileCenter.ClickItem` | src/components/ProfilePage.tsx:219 | A click on a menu entry navigates exactly when the entry has an action and a handler was passed, and then to that action's page. |
| `ProfileCenter.OnlyPricingNavigates` | src/components/ProfilePage.tsx:37-49 | Only the first menu entry navigates, and it goes to the pricing page. |
| `ProfileCenter.ProfilePage.Displayed` | src/components/ProfilePage.tsx:117-187 | The card shows the edit buffer in edit mode and the saved values otherwise. The join date is always the saved one. |
| `ProfileCenter.ProfilePage.constructor` | src/components/ProfilePage.tsx:10-19 | Not editing, with the initial user both saved and in the buffer. |
| `ProfileCenter.ProfilePage.StartEditing` | src/components/ProfilePage.tsx:74 | The edit button enters edit mode without touching either copy. |
| `ProfileCenter.ProfilePage.Edit` | src/components/ProfilePage.tsx:117-182 | An editor, present only in edit mode, writes its field of the buffer. The saved copy is untouched. |
| `ProfileCenter.ProfilePage.Save` | src/components/ProfilePage.tsx:21-24 | The buffer becomes the saved information and edit mode ends. The join date is kept. |
| `ProfileCenter.ProfilePage.Cancel` | src/components/ProfilePage.tsx:26-29 | The buffer is reset to the saved information, which does not change, and edit mode ends. |

## Left out

- Rendering: JSX, CSS class strings, icons and avatars are not modelled.
  - Class strings become the enumerations `Card.Tint`, `Knowledge.Tone` and `Pricing.Scheme`.
  - The `featured` card prop only changes styling.
- React scheduling: each handler is one atomic step.
  - The state-setter call nested inside the `wanted` updater of `handleHireAgent` runs in the same step as that updater.
  - `useMemo` is a plain function of its dependencies.
- Page routing is not modelled: `currentPage`, `handlePageChange`, the page part of `handleBackToDiscover`, and the back and profile links of the header.
- `ChatPage`, `ComingSoonPage`, `ManagementModal` and the presentational components are not part of this model. They hold no catalog logic.
- `Date.now()` and `new Date()` become the parameters `now` and `today` of `Knowledge.KnowledgePage.AddKnowledge`.
- Lower-casing is modelled for ASCII letters only. Full Unicode case mapping is out of scope.
- String lengths count characters. JavaScript counts UTF-16 code units, which differ for characters outside the Basic Multilingual Plane. This matters only for the KB size of `Knowledge.NewItem`.
- Object-literal maps (`categoryMap`, `roleMap`, `typeMap`, `colorMap`) are looked up by their own keys only. JavaScript would also find inherited names such as `"constructor"` on the prototype; the model does not.
- `Knowledge.RoundedKB`: models `Math.round` of the exact quotient. Dividing by 1024 is exact in binary floating point, so the two agree for any realistic length.
- `Pricing.Savings`: returns no figure where the source would print `NaN`, which happens only with a numeric yearly price and a `custom` monthly one. `Pricing.YearlyNeverDearer` shows that no plan has that mix.
- `Pricing`: the monthly/yearly toggle is the `cycle` parameter and not a stateful class. Its only state is that one value.
- `Interaction.App.constructor`: takes the catalog as a parameter and requires it to be well formed. `Interaction.AgentsWellFormed` shows that the real catalog is.
- `Discover.FirstRoleId`: the source's `''` fallback for an empty table is not modelled. `Discover.Roles` shows that no table is empty.
- `MyAgents`: `getCategoryIcon`, `getCategoryColor` and `industryInfo` of the hired page are presentation only.
- `MyAgents`: the `agentBossCounts` prop is read by `MyAgents.ShownBossCount` and never changed.
- `Knowledge`: the upload dialog only opens and closes. The preview and edit buttons on an item have no handler.
- `Knowledge`: the `typeOptions` name lookup is presentation.
- `ProfileCenter`: the avatar button, the log-out button and the menu entries without an action do nothing in the source.
