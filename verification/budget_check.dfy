/** The budget-check handler of src/v1/routes/ai.js, after the month's budget
    has been fetched: categories are split into spending and debt
    categories, optionally filtered by a query, and totalled. */
module BudgetCheck {
  import opened Wrappers
  import opened Text
  import opened Aggregate

  datatype Category = Category(id: string, name: string, budgeted: int, spent: int, balance: int, hidden: bool)

  datatype Group = Group(name: string, isIncome: bool, categories: seq<Category>)

  datatype SpendingEntry = SpendingEntry(id: string, name: string, groupName: string,
                                         budgeted: int, spent: int, available: int)

  datatype DebtEntry = DebtEntry(id: string, name: string, groupName: string,
                                 paymentMade: int, remainingDebt: int)

  /** `group.name.toLowerCase().includes('debt')`. */
  predicate IsDebtGroup(g: Group) {
    Contains(Lower(g.name), "debt")
  }

  function SpendingOfCategory(c: Category, g: Group): SpendingEntry {
    SpendingEntry(c.id, c.name, g.name, c.budgeted, c.spent, c.balance)
  }

  /** A debt category reports its budgeted amount as the payment made and its
      balance as the debt remaining. */
  function DebtOfCategory(c: Category, g: Group): DebtEntry {
    DebtEntry(c.id, c.name, g.name, c.budgeted, c.balance)
  }

  // ---------------------------------------------------------------------------
  // The split, stated declaratively
  // ---------------------------------------------------------------------------

  /** The visible categories of `cats` (taken from group `g`) as entries. */
  function SpendingIn(cats: seq<Category>, g: Group): seq<SpendingEntry>
    decreases |cats|
  {
    if cats == [] then []
    else
      var c := cats[|cats| - 1];
      SpendingIn(cats[..|cats| - 1], g) + (if c.hidden then [] else [SpendingOfCategory(c, g)])
  }

  function DebtIn(cats: seq<Category>, g: Group): seq<DebtEntry>
    decreases |cats|
  {
    if cats == [] then []
    else
      var c := cats[|cats| - 1];
      DebtIn(cats[..|cats| - 1], g) + (if c.hidden then [] else [DebtOfCategory(c, g)])
  }

  /** The spending entries of `groups`, group by group, in order. */
  function SpendingOf(groups: seq<Group>): seq<SpendingEntry>
    decreases |groups|
  {
    if groups == [] then []
    else
      var g := groups[|groups| - 1];
      SpendingOf(groups[..|groups| - 1])
      + (if g.isIncome || IsDebtGroup(g) then [] else SpendingIn(g.categories, g))
  }

  function DebtOf(groups: seq<Group>): seq<DebtEntry>
    decreases |groups|
  {
    if groups == [] then []
    else
      var g := groups[|groups| - 1];
      DebtOf(groups[..|groups| - 1])
      + (if !g.isIncome && IsDebtGroup(g) then DebtIn(g.categories, g) else [])
  }

  // ---------------------------------------------------------------------------
  // The nested loops of the handler
  // ---------------------------------------------------------------------------

  /** The two loops that fill `spendingCategories` and `debtCategories`. */
  method SplitCategories(groups: seq<Group>) returns (spending: seq<SpendingEntry>, debt: seq<DebtEntry>)
    ensures spending == SpendingOf(groups)
    ensures debt == DebtOf(groups)
  {
    spending := [];
    debt := [];
    for gi := 0 to |groups|
      invariant spending == SpendingOf(groups[..gi])
      invariant debt == DebtOf(groups[..gi])
    {
      var group := groups[gi];
      SplitStep(groups, gi);
      if group.isIncome {
        continue;
      }
      var isDebtGroup := Contains(Lower(group.name), "debt");
      spending, debt := SplitGroup(group, isDebtGroup, spending, debt);
    }
    assert groups[..|groups|] == groups;
  }

  /** The inner loop over one group's categories: each visible category is
      appended to the debt list in a debt group and to the spending list
      otherwise. */
  method SplitGroup(group: Group, isDebtGroup: bool, spending0: seq<SpendingEntry>, debt0: seq<DebtEntry>)
    returns (spending: seq<SpendingEntry>, debt: seq<DebtEntry>)
    ensures spending == spending0 + (if isDebtGroup then [] else SpendingIn(group.categories, group))
    ensures debt == debt0 + (if isDebtGroup then DebtIn(group.categories, group) else [])
  {
    spending, debt := spending0, debt0;
    var cats := group.categories;
    for ci := 0 to |cats|
      invariant spending == spending0 + (if isDebtGroup then [] else SpendingIn(cats[..ci], group))
      invariant debt == debt0 + (if isDebtGroup then DebtIn(cats[..ci], group) else [])
    {
      var cat := cats[ci];
      InStep(cats, group, ci);
      if cat.hidden {
        continue;
      }
      if isDebtGroup {
        debt := debt + [DebtOfCategory(cat, group)];
      } else {
        spending := spending + [SpendingOfCategory(cat, group)];
      }
    }
    assert cats[..|cats|] == cats;
  }

  lemma SplitStep(groups: seq<Group>, gi: nat)
    requires gi < |groups|
    ensures var g := groups[gi];
            && SpendingOf(groups[..gi + 1])
               == SpendingOf(groups[..gi]) + (if g.isIncome || IsDebtGroup(g) then [] else SpendingIn(g.categories, g))
            && DebtOf(groups[..gi + 1])
               == DebtOf(groups[..gi]) + (if !g.isIncome && IsDebtGroup(g) then DebtIn(g.categories, g) else [])
  {
    assert groups[..gi + 1][..gi] == groups[..gi];
  }

  lemma InStep(cats: seq<Category>, g: Group, ci: nat)
    requires ci < |cats|
    ensures SpendingIn(cats[..ci + 1], g)
            == SpendingIn(cats[..ci], g) + (if cats[ci].hidden then [] else [SpendingOfCategory(cats[ci], g)])
    ensures DebtIn(cats[..ci + 1], g)
            == DebtIn(cats[..ci], g) + (if cats[ci].hidden then [] else [DebtOfCategory(cats[ci], g)])
  {
    assert cats[..ci + 1][..ci] == cats[..ci];
  }

  // ---------------------------------------------------------------------------
  // What the split contains
  // ---------------------------------------------------------------------------

  lemma {:induction false} SpendingInMembers(cats: seq<Category>, g: Group, e: SpendingEntry)
    ensures e in SpendingIn(cats, g) <==> exists c :: c in cats && !c.hidden && e == SpendingOfCategory(c, g)
    decreases |cats|
  {
    if cats != [] {
      var init := cats[..|cats| - 1];
      SpendingInMembers(init, g, e);
      assert cats == init + [cats[|cats| - 1]];
    }
  }

  lemma {:induction false} DebtInMembers(cats: seq<Category>, g: Group, e: DebtEntry)
    ensures e in DebtIn(cats, g) <==> exists c :: c in cats && !c.hidden && e == DebtOfCategory(c, g)
    decreases |cats|
  {
    if cats != [] {
      var init := cats[..|cats| - 1];
      DebtInMembers(init, g, e);
      assert cats == init + [cats[|cats| - 1]];
    }
  }

  /** A spending entry comes from exactly a visible category of a group that
      is neither an income group nor a debt group. */
  lemma {:induction false} SpendingMembers(groups: seq<Group>, e: SpendingEntry)
    ensures e in SpendingOf(groups) <==>
              exists g, c :: g in groups && !g.isIncome && !IsDebtGroup(g)
                             && c in g.categories && !c.hidden && e == SpendingOfCategory(c, g)
    decreases |groups|
  {
    if groups != [] {
      var init := groups[..|groups| - 1];
      var g := groups[|groups| - 1];
      SpendingMembers(init, e);
      SpendingInMembers(g.categories, g, e);
      assert groups == init + [g];
    }
  }

  /** A debt entry comes from exactly a visible category of a non-income group
      whose name mentions "debt" in any letter case. */
  lemma {:induction false} DebtMembers(groups: seq<Group>, e: DebtEntry)
    ensures e in DebtOf(groups) <==>
              exists g, c :: g in groups && !g.isIncome && IsDebtGroup(g)
                             && c in g.categories && !c.hidden && e == DebtOfCategory(c, g)
    decreases |groups|
  {
    if groups != [] {
      var init := groups[..|groups| - 1];
      var g := groups[|groups| - 1];
      DebtMembers(init, e);
      DebtInMembers(g.categories, g, e);
      assert groups == init + [g];
    }
  }

  function VisibleCount(cats: seq<Category>): nat
    decreases |cats|
  {
    if cats == [] then 0
    else VisibleCount(cats[..|cats| - 1]) + (if cats[|cats| - 1].hidden then 0 else 1)
  }

  /** The number of visible categories in groups other than income groups. */
  function ListedCount(groups: seq<Group>): nat
    decreases |groups|
  {
    if groups == [] then 0
    else
      var g := groups[|groups| - 1];
      ListedCount(groups[..|groups| - 1]) + (if g.isIncome then 0 else VisibleCount(g.categories))
  }

  lemma {:induction false} InCounts(cats: seq<Category>, g: Group)
    ensures |SpendingIn(cats, g)| == VisibleCount(cats) == |DebtIn(cats, g)|
    decreases |cats|
  {
    if cats != [] {
      InCounts(cats[..|cats| - 1], g);
    }
  }

  /** Every visible category of a non-income group is listed exactly once,
      either as a spending or as a debt category. */
  lemma {:induction false} SplitCounts(groups: seq<Group>)
    ensures |SpendingOf(groups)| + |DebtOf(groups)| == ListedCount(groups)
    decreases |groups|
  {
    if groups != [] {
      var g := groups[|groups| - 1];
      SplitCounts(groups[..|groups| - 1]);
      InCounts(g.categories, g);
    }
  }

  // ---------------------------------------------------------------------------
  // The category filter and the totals
  // ---------------------------------------------------------------------------

  /** `c.id === category || c.name.toLowerCase().includes(categoryLower)`. */
  predicate Matches(id: string, name: string, query: string) {
    id == query || Contains(Lower(name), Lower(query))
  }

  function SpendingMatcher(query: string): SpendingEntry -> bool {
    (e: SpendingEntry) => Matches(e.id, e.name, query)
  }

  function DebtMatcher(query: string): DebtEntry -> bool {
    (e: DebtEntry) => Matches(e.id, e.name, query)
  }

  /** The `category` query: only a non-empty one filters. */
  function FilterSpending(xs: seq<SpendingEntry>, category: Option<string>): (r: seq<SpendingEntry>)
    ensures forall e :: e in r <==> e in xs && (category.None? || category.value == "" || Matches(e.id, e.name, category.value))
  {
    if category.Some? && category.value != "" then
      Filter(xs, SpendingMatcher(category.value))
    else xs
  }

  function FilterDebt(xs: seq<DebtEntry>, category: Option<string>): (r: seq<DebtEntry>)
    ensures forall e :: e in r <==> e in xs && (category.None? || category.value == "" || Matches(e.id, e.name, category.value))
  {
    if category.Some? && category.value != "" then
      Filter(xs, DebtMatcher(category.value))
    else xs
  }

  /** A query matches an entry whose name contains it, whatever the case of
      either. */
  lemma MatchesByName(id: string, name: string, query: string, k: nat)
    requires k + |query| <= |name| && Lower(name[k..k + |query|]) == Lower(query)
    ensures Matches(id, name, query)
  {
    assert Lower(name)[k..k + |query|] == Lower(name[k..k + |query|]);
    ContainsAt(Lower(name), Lower(query), k);
  }

  datatype SpendingSummary = SpendingSummary(totalBudgeted: int, totalSpent: int, totalAvailable: int)

  datatype DebtSummary = DebtSummary(totalPaymentMade: int, totalRemainingDebt: int)

  /** The three `reduce` sums over the filtered spending categories. */
  function SummarizeSpending(xs: seq<SpendingEntry>): SpendingSummary {
    SpendingSummary(SumOf(xs, (e: SpendingEntry) => e.budgeted),
                    SumOf(xs, (e: SpendingEntry) => e.spent),
                    SumOf(xs, (e: SpendingEntry) => e.available))
  }

  function SummarizeDebt(xs: seq<DebtEntry>): DebtSummary {
    DebtSummary(SumOf(xs, (e: DebtEntry) => e.paymentMade),
                SumOf(xs, (e: DebtEntry) => e.remainingDebt))
  }

  /** The response of budget-check, before its display fields are added. */
  datatype Report = Report(spendingSummary: SpendingSummary, spending: seq<SpendingEntry>,
                           debtSummary: DebtSummary, debt: seq<DebtEntry>)

  /** The handler from the fetched groups to the report. */
  method CheckBudget(groups: seq<Group>, category: Option<string>) returns (r: Report)
    ensures r.spending == FilterSpending(SpendingOf(groups), category)
    ensures r.debt == FilterDebt(DebtOf(groups), category)
    ensures r.spendingSummary == SummarizeSpending(r.spending)
    ensures r.debtSummary == SummarizeDebt(r.debt)
  {
    var spending, debt := SplitCategories(groups);
    var filteredSpending := FilterSpending(spending, category);
    var filteredDebt := FilterDebt(debt, category);
    r := Report(SummarizeSpending(filteredSpending), filteredSpending,
                SummarizeDebt(filteredDebt), filteredDebt);
  }

  /** Without a query every total covers all categories; with one, the totals
      of the entries kept and of the entries dropped add up to those of all
      categories. */
  lemma SpendingTotalsSplit(xs: seq<SpendingEntry>, query: string)
    requires query != ""
    ensures var kept := FilterSpending(xs, Some(query));
            var dropped := Filter(xs, Not(SpendingMatcher(query)));
            && SummarizeSpending(xs).totalBudgeted == SummarizeSpending(kept).totalBudgeted + SummarizeSpending(dropped).totalBudgeted
            && SummarizeSpending(xs).totalSpent == SummarizeSpending(kept).totalSpent + SummarizeSpending(dropped).totalSpent
            && SummarizeSpending(xs).totalAvailable == SummarizeSpending(kept).totalAvailable + SummarizeSpending(dropped).totalAvailable
  {
    var p := SpendingMatcher(query);
    SumOfFilterSplit(xs, p, (e: SpendingEntry) => e.budgeted);
    SumOfFilterSplit(xs, p, (e: SpendingEntry) => e.spent);
    SumOfFilterSplit(xs, p, (e: SpendingEntry) => e.available);
  }
}
