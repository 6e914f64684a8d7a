/** The budget alert the transaction-creation handler of
    src/v1/routes/ai.js attaches to a new expense: the category's share of
    its budget already spent decides one of four statuses. */
module BudgetAlert {
  import opened Wrappers
  import opened Text
  import opened MoneyFormat
  import opened BillFormat
  import opened AmountValidation
  import opened BudgetCheck

  datatype AlertStatus = OverBudget | Critical | Warning | OnTrack

  datatype Alert = Alert(status: AlertStatus, icon: string, percentUsed: int, message: string,
                         available: int, availableDisplay: string)

  /** `Math.round((spent / budgeted) * 100)` with `spent` already made
      non-negative. */
  function PercentUsed(spent: nat, budgeted: int): (p: int)
    requires budgeted > 0
    ensures p >= 0
  {
    Round(spent as real / budgeted as real * 100.0)
  }

  /** The thresholds 100, 90 and 80 per cent, checked from the top. */
  function StatusOf(percent: int): (s: AlertStatus)
    ensures s == OverBudget <==> percent >= 100
    ensures s == Critical <==> 90 <= percent < 100
    ensures s == Warning <==> 80 <= percent < 90
    ensures s == OnTrack <==> percent < 80
  {
    if percent >= 100 then OverBudget
    else if percent >= 90 then Critical
    else if percent >= 80 then Warning
    else OnTrack
  }

  function Icon(s: AlertStatus): string {
    match s
    case OverBudget => "\U{1F534}"
    case Critical => "\U{1F7E0}"
    case Warning => "\U{26A0}\U{FE0F}"
    case OnTrack => "\U{2705}"
  }

  function Message(s: AlertStatus, available: int, symbol: string): string {
    match s
    case OverBudget => "Over by " + Signed(0 - Abs(available), symbol) + ". Pause spending."
    case Critical => "Only " + Signed(available, symbol) + " left!"
    case Warning => "Getting close - " + Signed(available, symbol) + " left"
    case OnTrack => "On track - " + Signed(available, symbol) + " left"
  }

  /** The alert for the matching category: none unless something is
      budgeted. */
  function AlertFor(c: Category, symbol: string): (r: Option<Alert>)
    ensures r.Some? <==> c.budgeted > 0
    ensures r.Some? ==> r.value.status == StatusOf(PercentUsed(Abs(c.spent), c.budgeted))
                        && r.value.available == c.balance
  {
    if c.budgeted > 0 then
      var percent := PercentUsed(Abs(c.spent), c.budgeted);
      var status := StatusOf(percent);
      Some(Alert(status, Icon(status), percent, Message(status, c.balance, symbol),
                 c.balance, Signed(c.balance, symbol)))
    else None
  }

  // ---------------------------------------------------------------------------
  // The search, stated declaratively
  // ---------------------------------------------------------------------------

  /** The first category of the group with the given id, where the inner loop
      breaks. */
  function FirstMatch(cats: seq<Category>, id: string): (r: Option<Category>)
    ensures r.Some? ==> r.value in cats && r.value.id == id
    ensures r.None? <==> forall c :: c in cats ==> c.id != id
  {
    if cats == [] then None
    else if cats[0].id == id then Some(cats[0])
    else FirstMatch(cats[1..], id)
  }

  /** `budgetAlert` after the groups `groups` have been searched: a later
      group that holds the category and has a budget replaces an earlier
      alert; one without a budget leaves it as it was. */
  function AlertIn(groups: seq<Group>, id: string, symbol: string): Option<Alert>
    decreases |groups|
  {
    if groups == [] then None
    else
      var prev := AlertIn(groups[..|groups| - 1], id, symbol);
      var g := groups[|groups| - 1];
      if g.isIncome || IsDebtGroup(g) then prev
      else match FirstMatch(g.categories, id)
        case None => prev
        case Some(c) => if c.budgeted > 0 then AlertFor(c, symbol) else prev
  }

  lemma FirstMatchAt(cats: seq<Category>, id: string, i: nat)
    requires i < |cats| && cats[i].id == id
    requires forall j :: 0 <= j < i ==> cats[j].id != id
    ensures FirstMatch(cats, id) == Some(cats[i])
    decreases i
  {
    if i > 0 {
      FirstMatchAt(cats[1..], id, i - 1);
    }
  }

  lemma AlertInStep(groups: seq<Group>, id: string, symbol: string, gi: nat)
    requires gi < |groups|
    ensures var prev := AlertIn(groups[..gi], id, symbol);
            var g := groups[gi];
            AlertIn(groups[..gi + 1], id, symbol)
            == if g.isIncome || IsDebtGroup(g) then prev
               else match FirstMatch(g.categories, id)
                 case None => prev
                 case Some(c) => if c.budgeted > 0 then AlertFor(c, symbol) else prev
  {
    assert groups[..gi + 1][..gi] == groups[..gi];
  }

  /** The nested loops, with the inner `break`. */
  method FindAlert(groups: seq<Group>, categoryId: string, symbol: string) returns (alert: Option<Alert>)
    ensures alert == AlertIn(groups, categoryId, symbol)
  {
    alert := None;
    for gi := 0 to |groups|
      invariant alert == AlertIn(groups[..gi], categoryId, symbol)
    {
      var group := groups[gi];
      AlertInStep(groups, categoryId, symbol, gi);
      if group.isIncome {
        continue;
      }
      var isDebtGroup := Contains(Lower(group.name), "debt");
      if isDebtGroup {
        continue;
      }
      var cats := group.categories;
      var ci := 0;
      ghost var found := false;
      while ci < |cats|
        invariant 0 <= ci <= |cats|
        invariant forall j :: 0 <= j < ci ==> cats[j].id != categoryId
        invariant !found ==> alert == AlertIn(groups[..gi], categoryId, symbol)
        invariant found ==> alert == AlertIn(groups[..gi + 1], categoryId, symbol)
        decreases if found then 0 else |cats| - ci + 1
      {
        var cat := cats[ci];
        if cat.id == categoryId {
          FirstMatchAt(cats, categoryId, ci);
          var a := AlertFor(cat, symbol);
          if a.Some? {
            alert := a;
          }
          found := true;
          break;
        }
        ci := ci + 1;
      }
      if !found {
        assert forall c :: c in cats ==> c.id != categoryId;
      }
    }
    assert groups[..|groups|] == groups;
  }

  /** The handler's guard: only an expense with a category gets an alert. */
  method BudgetAlertFor(categoryId: Option<string>, amount: int, groups: seq<Group>, symbol: string)
    returns (alert: Option<Alert>)
    ensures categoryId.None? || categoryId.value == "" || amount >= 0 ==> alert.None?
    ensures categoryId.Some? && categoryId.value != "" && amount < 0 ==>
              alert == AlertIn(groups, categoryId.value, symbol)
  {
    alert := None;
    if categoryId.Some? && categoryId.value != "" && amount < 0 {
      alert := FindAlert(groups, categoryId.value, symbol);
    }
  }

  // ---------------------------------------------------------------------------
  // Properties
  // ---------------------------------------------------------------------------

  /** An alert exists exactly when some non-income, non-debt group holds the
      category with a positive budget; it is then the alert for such a
      category. */
  lemma {:induction false} AlertSource(groups: seq<Group>, id: string, symbol: string)
    ensures AlertIn(groups, id, symbol).Some? <==>
              exists g :: g in groups && !g.isIncome && !IsDebtGroup(g)
                          && FirstMatch(g.categories, id).Some? && FirstMatch(g.categories, id).value.budgeted > 0
    ensures AlertIn(groups, id, symbol).Some? ==>
              exists g :: g in groups && !g.isIncome && !IsDebtGroup(g)
                          && FirstMatch(g.categories, id).Some?
                          && AlertIn(groups, id, symbol) == AlertFor(FirstMatch(g.categories, id).value, symbol)
    decreases |groups|
  {
    if groups != [] {
      var init := groups[..|groups| - 1];
      AlertSource(init, id, symbol);
      assert groups == init + [groups[|groups| - 1]];
    }
  }

  /** The share in per cent, scaled back by the budget, is the spending. */
  lemma PercentScale(spent: nat, budgeted: int)
    requires budgeted > 0
    ensures var x := spent as real / budgeted as real * 100.0;
            x * budgeted as real == spent as real * 100.0
  {
  }

  /** Spending the whole budget is always over budget; over budget means at
      least 99.5 per cent of the budget is spent. */
  lemma OverBudgetBounds(spent: nat, budgeted: int)
    requires budgeted > 0
    ensures spent >= budgeted ==> StatusOf(PercentUsed(spent, budgeted)) == OverBudget
    ensures StatusOf(PercentUsed(spent, budgeted)) == OverBudget ==> 200 * spent >= 199 * budgeted
  {
    var x := spent as real / budgeted as real * 100.0;
    var b := budgeted as real;
    PercentScale(spent, budgeted);
    if spent >= budgeted && x < 100.0 {
      ScaleMono(x, 100.0, b);
      assert false;
    }
    if PercentUsed(spent, budgeted) >= 100 {
      assert x >= 99.5;
      ScaleMono(99.5, x, b);
    }
  }

  /** Below 79.5 per cent of the budget spent the category is on track. */
  lemma OnTrackBound(spent: nat, budgeted: int)
    requires budgeted > 0
    requires 200 * spent < 159 * budgeted
    ensures StatusOf(PercentUsed(spent, budgeted)) == OnTrack
  {
    var x := spent as real / budgeted as real * 100.0;
    var b := budgeted as real;
    PercentScale(spent, budgeted);
    if x >= 79.5 {
      ScaleMono(79.5, x, b);
      assert false;
    }
  }

  /** An over-budget message names the overspent amount with a minus sign,
      and it reads back as minus the absolute balance. */
  lemma OverBudgetMessage(available: int, symbol: string)
    requires symbol == [] || symbol[0] != '-'
    ensures Message(OverBudget, available, symbol)
            == "Over by " + FormatSingleAmount(0 - Abs(available), symbol) + ". Pause spending."
    ensures ParseAmount(FormatSingleAmount(0 - Abs(available), symbol), symbol) == Some(0 - Abs(available))
  {
    var c := 0 - Abs(available);
    var t := FormatSingleAmount(c, symbol);
    assert Signed(c, symbol) == t by {
      TransactionAmountShared(c, symbol);
    }
    assert ParseAmount(t, symbol) == Some(c) by {
      FormatRoundTrip(c, symbol);
    }
  }
}
