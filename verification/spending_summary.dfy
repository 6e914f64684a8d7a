/** The spending-summary handler of src/v1/routes/ai.js, after accounts,
    categories, payees and transactions have been fetched: the month's
    transactions of the open accounts are gathered, deleted, split and
    transfer transactions are dropped, and the rest are totalled, grouped by
    category and by payee, and ranked. */
module SpendingSummary {
  import opened Wrappers
  import opened MoneyFormat
  import opened Aggregate
  import opened BillFormat
  import opened AmountValidation

  /** A transaction. `category`, `payee`, `importedPayee`, `notes` and
      `transferId` are "" when absent; `accountId` is the `_accountId` the
      handler attaches. */
  datatype Tx = Tx(id: string, date: string, amount: int, category: string, payee: string,
                   importedPayee: string, notes: string, tombstone: bool, isChild: bool,
                   transferId: string, accountId: string)

  datatype Account = Account(id: string, name: string, closed: bool, transactions: seq<Tx>)

  // ---------------------------------------------------------------------------
  // Lookup maps
  // ---------------------------------------------------------------------------

  /** Pair `i` is the last one whose id is `k`. */
  predicate LastFor(pairs: seq<(string, string)>, k: string, i: int) {
    0 <= i < |pairs| && pairs[i].0 == k && forall j :: i < j < |pairs| ==> pairs[j].0 != k
  }

  /** `Object.fromEntries(list.map(x => [x.id, x.name]))`: every id is a
      key, and it maps to the name of the last pair with that id. */
  function FromEntries(pairs: seq<(string, string)>): (m: map<string, string>)
    ensures forall i :: 0 <= i < |pairs| ==> pairs[i].0 in m
    ensures forall k :: k in m ==> exists i :: LastFor(pairs, k, i) && m[k] == pairs[i].1
    decreases |pairs|
  {
    if pairs == [] then map[]
    else
      var init := pairs[..|pairs| - 1];
      var m := FromEntries(init);
      FromEntriesStep(pairs, m);
      m[pairs[|pairs| - 1].0 := pairs[|pairs| - 1].1]
  }

  /** Adding one pair at the end keeps the last-pair-wins reading. */
  lemma FromEntriesStep(pairs: seq<(string, string)>, m: map<string, string>)
    requires pairs != []
    requires forall i :: 0 <= i < |pairs| - 1 ==> pairs[i].0 in m
    requires forall k :: k in m ==> exists i :: LastFor(pairs[..|pairs| - 1], k, i) && m[k] == pairs[i].1
    ensures var r := m[pairs[|pairs| - 1].0 := pairs[|pairs| - 1].1];
            && (forall i :: 0 <= i < |pairs| ==> pairs[i].0 in r)
            && (forall k :: k in r ==> exists i :: LastFor(pairs, k, i) && r[k] == pairs[i].1)
  {
    var n := |pairs| - 1;
    var r := m[pairs[n].0 := pairs[n].1];
    forall k | k in r
      ensures exists i :: LastFor(pairs, k, i) && r[k] == pairs[i].1
    {
      if k == pairs[n].0 {
        assert LastFor(pairs, k, n);
      } else {
        var i :| LastFor(pairs[..n], k, i) && m[k] == pairs[i].1;
        assert LastFor(pairs, k, i);
      }
    }
  }

  /** A repeated id keeps its later name. */
  lemma FromEntriesLastWins()
    ensures FromEntries([("a", "x"), ("a", "y"), ("b", "z")])["a"] == "y"
  {
    var pairs := [("a", "x"), ("a", "y"), ("b", "z")];
    var m := FromEntries(pairs);
    assert pairs[0].0 in m;
    var i :| LastFor(pairs, "a", i) && m["a"] == pairs[i].1;
    assert pairs[1].0 == "a" && pairs[2].0 != "a";
  }

  /** `map[key] || null`: a name is only used when it is present and not
      empty. */
  function Lookup(m: map<string, string>, key: string): (r: Option<string>)
    ensures r.Some? <==> key in m && m[key] != ""
    ensures r.Some? ==> r.value == m[key]
  {
    if key in m && m[key] != "" then Some(m[key]) else None
  }

  /** `categoryMap[tx.category] || 'Uncategorized'`. */
  function CategoryName(categoryMap: map<string, string>, tx: Tx): (r: string)
    ensures r != ""
    ensures r == "Uncategorized" || r in categoryMap.Values
  {
    match Lookup(categoryMap, tx.category)
    case Some(name) => name
    case None => "Uncategorized"
  }

  /** `payeeMap[tx.payee] || tx.imported_payee || 'Unknown'`. */
  function PayeeName(payeeMap: map<string, string>, tx: Tx): (r: string)
    ensures r != ""
    ensures r == "Unknown" || r == tx.importedPayee || r in payeeMap.Values
  {
    match Lookup(payeeMap, tx.payee)
    case Some(name) => name
    case None => if tx.importedPayee != "" then tx.importedPayee else "Unknown"
  }

  function CategoryNamer(categoryMap: map<string, string>): Tx -> string {
    tx => CategoryName(categoryMap, tx)
  }

  function PayeeNamer(payeeMap: map<string, string>): Tx -> string {
    tx => PayeeName(payeeMap, tx)
  }

  // ---------------------------------------------------------------------------
  // Gathering the month's transactions
  // ---------------------------------------------------------------------------

  predicate IsOpen(a: Account) {
    !a.closed
  }

  /** `transactions.map(tx => ({ ...tx, _accountId: id }))`. */
  function Tagged(txs: seq<Tx>, id: string): (r: seq<Tx>)
    ensures |r| == |txs|
    ensures forall i :: 0 <= i < |r| ==> r[i] == txs[i].(accountId := id)
  {
    seq(|txs|, i requires 0 <= i < |txs| => txs[i].(accountId := id))
  }

  /** `allTransactions` after the accounts `accs` have been visited. */
  function Gathered(accs: seq<Account>): seq<Tx>
    decreases |accs|
  {
    if accs == [] then []
    else
      var a := accs[|accs| - 1];
      Gathered(accs[..|accs| - 1]) + Tagged(a.transactions, a.id)
  }

  lemma GatheredStep(accs: seq<Account>, i: nat)
    requires i < |accs|
    ensures Gathered(accs[..i + 1]) == Gathered(accs[..i]) + Tagged(accs[i].transactions, accs[i].id)
  {
    assert accs[..i + 1][..i] == accs[..i];
  }

  /** The loop over `activeAccounts` that concatenates each account's
      transactions, tagged with the account's id. */
  method GatherTransactions(accounts: seq<Account>) returns (all: seq<Tx>)
    ensures all == Gathered(Filter(accounts, IsOpen))
  {
    var active := Filter(accounts, IsOpen);
    all := [];
    for i := 0 to |active|
      invariant all == Gathered(active[..i])
    {
      GatheredStep(active, i);
      all := all + Tagged(active[i].transactions, active[i].id);
    }
    assert active[..|active|] == active;
  }

  /** A gathered transaction is a transaction of one of the accounts, tagged
      with that account's id, and every such transaction is gathered. */
  lemma {:induction false} GatheredMembers(accs: seq<Account>, tx: Tx)
    ensures tx in Gathered(accs) <==>
              exists a, t :: a in accs && t in a.transactions && tx == t.(accountId := a.id)
    decreases |accs|
  {
    if accs != [] {
      var init := accs[..|accs| - 1];
      var a := accs[|accs| - 1];
      GatheredMembers(init, tx);
      TaggedMembers(a.transactions, a.id, tx);
      assert accs == init + [a];
    }
  }

  lemma TaggedMembers(txs: seq<Tx>, id: string, tx: Tx)
    ensures tx in Tagged(txs, id) <==> exists t :: t in txs && tx == t.(accountId := id)
  {
    var tagged := Tagged(txs, id);
    if tx in tagged {
      var i :| 0 <= i < |tagged| && tagged[i] == tx;
      assert txs[i] in txs;
    }
    if exists t :: t in txs && tx == t.(accountId := id) {
      var t :| t in txs && tx == t.(accountId := id);
      var i :| 0 <= i < |txs| && txs[i] == t;
      assert tagged[i] == tx;
    }
  }

  // ---------------------------------------------------------------------------
  // Totals
  // ---------------------------------------------------------------------------

  /** Not deleted, not the child of a split and not a transfer. */
  predicate Counted(tx: Tx) {
    !tx.tombstone && !tx.isChild && tx.transferId == ""
  }

  predicate IsExpense(tx: Tx) {
    tx.amount < 0
  }

  predicate IsIncome(tx: Tx) {
    tx.amount > 0
  }

  function AmountOf(tx: Tx): int {
    tx.amount
  }

  /** `Math.abs(tx.amount)`. */
  function Magnitude(tx: Tx): (m: int)
    ensures m >= 0
  {
    Abs(tx.amount)
  }

  /** Over expenses only, the magnitudes add up to minus the amounts. */
  lemma {:induction false} MagnitudeSum(xs: seq<Tx>)
    requires forall x :: x in xs ==> x.amount < 0
    ensures SumOf(xs, Magnitude) == 0 - SumOf(xs, AmountOf)
    decreases |xs|
  {
    if xs != [] {
      var init := xs[..|xs| - 1];
      var last := xs[|xs| - 1];
      assert last in xs;
      assert forall x :: x in init ==> x in xs;
      MagnitudeSum(init);
      assert SumOf(xs, Magnitude) == SumOf(init, Magnitude) + Magnitude(last);
      assert SumOf(xs, AmountOf) == SumOf(init, AmountOf) + AmountOf(last);
    }
  }

  /** The amounts of a list are the income plus the expenses; the zero
      amounts add nothing. */
  lemma {:induction false} IncomeAndExpenses(xs: seq<Tx>)
    ensures SumOf(xs, AmountOf) == SumOf(Filter(xs, IsIncome), AmountOf) + SumOf(Filter(xs, IsExpense), AmountOf)
    decreases |xs|
  {
    if xs != [] {
      var init := xs[..|xs| - 1];
      var last := xs[|xs| - 1];
      IncomeAndExpenses(init);
      SumOfAppend(Filter(init, IsIncome), if IsIncome(last) then [last] else [], AmountOf);
      SumOfAppend(Filter(init, IsExpense), if IsExpense(last) then [last] else [], AmountOf);
      SumOfOne(last, AmountOf);
    }
  }

  /** The totals of the response, displays included. */
  datatype Totals = Totals(totalSpent: int, totalSpentDisplay: string,
                           totalIncome: int, totalIncomeDisplay: string,
                           netFlow: int, netFlowDisplay: string,
                           transactionCount: int,
                           dailyAverage: int, dailyAverageDisplay: string)

  /** `daysElapsed > 0 ? Math.round(totalSpent / daysElapsed) : 0`. */
  function DailyAverage(totalSpent: nat, daysElapsed: int): (r: int)
    ensures daysElapsed <= 0 ==> r == 0
    ensures r >= 0
  {
    if daysElapsed > 0 then Round(totalSpent as real / daysElapsed as real) else 0
  }

  /** The daily average is the whole number nearest to the spending per
      day: times the days elapsed it is within half a day's average of the
      total. */
  lemma DailyAverageNearest(totalSpent: nat, daysElapsed: int)
    requires daysElapsed > 0
    ensures var r := DailyAverage(totalSpent, daysElapsed) as real;
            var d := daysElapsed as real;
            (r - 0.5) * d <= totalSpent as real < (r + 0.5) * d
  {
    var x := totalSpent as real / daysElapsed as real;
    var r := DailyAverage(totalSpent, daysElapsed) as real;
    var d := daysElapsed as real;
    assert r - 0.5 <= x < r + 0.5;
    assert x * d == totalSpent as real;
    assert (r - 0.5) * d <= totalSpent as real by {
      ScaleMono(r - 0.5, x, d);
      assert (r - 0.5) * d <= x * d;
    }
    assert totalSpent as real < (r + 0.5) * d by {
      ScaleMono(x, r + 0.5, d);
      assert x * d < (r + 0.5) * d;
    }
  }

  /** The totals over the counted transactions `valid` of the month. */
  function TotalsOf(valid: seq<Tx>, daysElapsed: int, symbol: string): (t: Totals)
    ensures t.totalSpent == SumOf(Filter(valid, IsExpense), Magnitude) >= 0
    ensures t.totalIncome == SumOf(Filter(valid, IsIncome), AmountOf) >= 0
    ensures t.netFlow == SumOf(valid, AmountOf)
    ensures t.transactionCount == |Filter(valid, IsExpense)|
    ensures t.dailyAverage == DailyAverage(t.totalSpent, daysElapsed)
  {
    var expenses := Filter(valid, IsExpense);
    var income := Filter(valid, IsIncome);
    var totalSpent := Abs(SumOf(expenses, AmountOf));
    var totalIncome := SumOf(income, AmountOf);
    var netFlow := totalIncome - totalSpent;
    var dailyAverage := DailyAverage(totalSpent, daysElapsed);
    MagnitudeSum(expenses);
    SumOfNonNegative(expenses, Magnitude);
    SumOfNonNegative(income, AmountOf);
    IncomeAndExpenses(valid);
    Totals(totalSpent, Signed(0 - totalSpent, symbol),
           totalIncome, Signed(totalIncome, symbol),
           netFlow, Signed(netFlow, symbol),
           |expenses|,
           dailyAverage, Signed(0 - dailyAverage, symbol))
  }

  // ---------------------------------------------------------------------------
  // Days of the month
  // ---------------------------------------------------------------------------

  datatype Period = Period(daysElapsed: int, daysRemaining: int)

  /** The days elapsed and remaining: `today` is today's day of the month
      and `lastDay` the number of days in the month; whether the month is
      the current one, or already over, is decided by the caller's clock. */
  function PeriodOf(isCurrentMonth: bool, monthOver: bool, today: int, lastDay: int): (p: Period)
    ensures p.daysElapsed + p.daysRemaining == lastDay
    ensures 0 <= today <= lastDay ==> 0 <= p.daysElapsed <= lastDay && 0 <= p.daysRemaining <= lastDay
    ensures !isCurrentMonth && monthOver ==> p.daysRemaining == 0
    ensures !isCurrentMonth && !monthOver ==> p.daysElapsed == 0
  {
    if isCurrentMonth then Period(today, lastDay - today)
    else if monthOver then Period(lastDay, 0)
    else Period(0, lastDay)
  }

  // ---------------------------------------------------------------------------
  // Totals by category and by payee
  // ---------------------------------------------------------------------------

  datatype Tally = Tally(spent: int, count: int)

  /** A dictionary of tallies: `order` holds its keys in insertion order,
      the order `Object.entries` lists them in. */
  datatype Dict = Dict(order: seq<string>, tallies: map<string, Tally>)

  ghost predicate WellFormed(d: Dict) {
    && (forall i, j :: 0 <= i < j < |d.order| ==> d.order[i] != d.order[j])
    && (forall k :: k in d.tallies <==> k in d.order)
  }

  /** One transaction added to the tally of `name`, which is created at the
      end of the dictionary if it is not there yet. */
  function Record(d: Dict, name: string, amount: int): Dict {
    var d1 := if name in d.tallies then d else Dict(d.order + [name], d.tallies[name := Tally(0, 0)]);
    var t := d1.tallies[name];
    Dict(d1.order, d1.tallies[name := Tally(t.spent + amount, t.count + 1)])
  }

  /** The dictionary after the expenses `txs` have been visited. */
  function Tallies(txs: seq<Tx>, nameOf: Tx -> string): Dict
    decreases |txs|
  {
    if txs == [] then Dict([], map[])
    else
      var last := txs[|txs| - 1];
      Record(Tallies(txs[..|txs| - 1], nameOf), nameOf(last), Magnitude(last))
  }

  lemma TalliesStep(txs: seq<Tx>, nameOf: Tx -> string, i: nat)
    requires i < |txs|
    ensures Tallies(txs[..i + 1], nameOf) == Record(Tallies(txs[..i], nameOf), nameOf(txs[i]), Magnitude(txs[i]))
  {
    assert txs[..i + 1][..i] == txs[..i];
  }

  /** The loop that fills `categoryTotals` (or `payeeTotals`): each expense
      adds its magnitude and one to the count of its name. */
  method Accumulate(expenses: seq<Tx>, nameOf: Tx -> string) returns (totals: Dict)
    ensures totals == Tallies(expenses, nameOf)
  {
    totals := Dict([], map[]);
    for i := 0 to |expenses|
      invariant totals == Tallies(expenses[..i], nameOf)
    {
      var tx := expenses[i];
      TalliesStep(expenses, nameOf, i);
      var name := nameOf(tx);
      if name !in totals.tallies {
        totals := Dict(totals.order + [name], totals.tallies[name := Tally(0, 0)]);
      }
      var t := totals.tallies[name];
      totals := totals.(tallies := totals.tallies[name := Tally(t.spent + Abs(tx.amount), t.count + 1)]);
    }
    assert expenses[..|expenses|] == expenses;
  }

  /** The expenses filed under `name`. */
  function HasName(nameOf: Tx -> string, name: string): Tx -> bool {
    tx => nameOf(tx) == name
  }

  /** Each name is listed once, and the dictionary holds exactly the names
      listed. */
  lemma {:induction false} TalliesWellFormed(txs: seq<Tx>, nameOf: Tx -> string)
    ensures WellFormed(Tallies(txs, nameOf))
    decreases |txs|
  {
    if txs != [] {
      TalliesWellFormed(txs[..|txs| - 1], nameOf);
    }
  }

  /** A name has a tally exactly when some expense is filed under it, and
      the tally holds the sum of the magnitudes and the number of those
      expenses. */
  lemma {:induction false} TallyOf(txs: seq<Tx>, nameOf: Tx -> string, name: string)
    ensures var d := Tallies(txs, nameOf);
            var mine := Filter(txs, HasName(nameOf, name));
            && (name in d.tallies <==> |mine| > 0)
            && (name in d.tallies ==> d.tallies[name] == Tally(SumOf(mine, Magnitude), |mine|))
    decreases |txs|
  {
    if txs != [] {
      var init := txs[..|txs| - 1];
      var last := txs[|txs| - 1];
      TallyOf(init, nameOf, name);
      var p := HasName(nameOf, name);
      var before := Filter(init, p);
      var d := Tallies(init, nameOf);
      assert Tallies(txs, nameOf) == Record(d, nameOf(last), Magnitude(last));
      if p(last) {
        assert Filter(txs, p) == before + [last];
        SumOfAppend(before, [last], Magnitude);
        SumOfOne(last, Magnitude);
        if name !in d.tallies {
          assert before == [];
          assert Record(d, name, Magnitude(last)).tallies[name] == Tally(Magnitude(last), 1);
        }
      } else {
        assert Filter(txs, p) == before;
      }
    }
  }

  /** The spent amount a dictionary gives a name, 0 for a name it lacks. */
  function SpentIn(m: map<string, Tally>): string -> int {
    name => if name in m then m[name].spent else 0
  }

  /** Tallies outside the names summed over do not change the sum. */
  lemma {:induction false} SumOfSpentFrame(names: seq<string>, m: map<string, Tally>, m': map<string, Tally>, k: string)
    requires k !in names
    requires forall n :: n != k ==> (n in m <==> n in m') && (n in m ==> m[n] == m'[n])
    ensures SumOf(names, SpentIn(m)) == SumOf(names, SpentIn(m'))
    decreases |names|
  {
    if names != [] {
      assert names[|names| - 1] in names;
      SumOfSpentFrame(names[..|names| - 1], m, m', k);
    }
  }

  /** Adding to the tally of a name listed once adds as much to the sum. */
  lemma {:induction false} SumOfSpentBump(names: seq<string>, m: map<string, Tally>, k: string, t: Tally)
    requires k in m
    requires forall i, j :: 0 <= i < j < |names| ==> names[i] != names[j]
    ensures SumOf(names, SpentIn(m[k := t])) == SumOf(names, SpentIn(m)) + (if k in names then t.spent - m[k].spent else 0)
    decreases |names|
  {
    if names != [] {
      var init := names[..|names| - 1];
      var last := names[|names| - 1];
      if last == k {
        assert k !in init;
        SumOfSpentFrame(init, m, m[k := t], k);
      } else {
        SumOfSpentBump(init, m, k, t);
        assert k in names <==> k in init;
      }
    }
  }

  /** Recording an amount adds it to the sum of the spent amounts. */
  lemma RecordTotal(d: Dict, name: string, amount: int)
    requires WellFormed(d)
    ensures var d' := Record(d, name, amount);
            SumOf(d'.order, SpentIn(d'.tallies)) == SumOf(d.order, SpentIn(d.tallies)) + amount
  {
    if name in d.tallies {
      var t := d.tallies[name];
      var t' := Tally(t.spent + amount, t.count + 1);
      assert Record(d, name, amount) == Dict(d.order, d.tallies[name := t']);
      SumOfSpentBump(d.order, d.tallies, name, t');
    } else {
      var m := d.tallies[name := Tally(amount, 1)];
      assert Record(d, name, amount) == Dict(d.order + [name], m);
      SumOfSpentFrame(d.order, d.tallies, m, name);
      assert (d.order + [name])[..|d.order|] == d.order;
      assert SumOf(d.order + [name], SpentIn(m)) == SumOf(d.order, SpentIn(m)) + SpentIn(m)(name);
    }
  }

  /** The tallies together account for every expense: their spent amounts
      add up to the magnitude of the total spending. */
  lemma {:induction false} TalliesTotal(txs: seq<Tx>, nameOf: Tx -> string)
    ensures var d := Tallies(txs, nameOf);
            SumOf(d.order, SpentIn(d.tallies)) == SumOf(txs, Magnitude)
    decreases |txs|
  {
    if txs != [] {
      var init := txs[..|txs| - 1];
      var last := txs[|txs| - 1];
      TalliesTotal(init, nameOf);
      TalliesWellFormed(init, nameOf);
      RecordTotal(Tallies(init, nameOf), nameOf(last), Magnitude(last));
    }
  }

  // ---------------------------------------------------------------------------
  // Ranked lists
  // ---------------------------------------------------------------------------

  /** An entry of `top_categories` or `top_payees`. */
  datatype Entry = Entry(name: string, spent: int, spentDisplay: string, percentOfTotal: int,
                         transactionCount: int)

  /** `totalSpent > 0 ? Math.round((spent / totalSpent) * 100) : 0`. */
  function Percent(spent: int, totalSpent: int): int {
    if totalSpent > 0 then Round(spent as real / totalSpent as real * 100.0) else 0
  }

  /** A share of the total is a whole percentage between 0 and 100, and all
      of it is 100. */
  lemma PercentBounds(spent: int, totalSpent: int)
    requires 0 <= spent <= totalSpent
    ensures 0 <= Percent(spent, totalSpent) <= 100
    ensures spent == totalSpent > 0 ==> Percent(spent, totalSpent) == 100
  {
    if totalSpent > 0 {
      var x := spent as real / totalSpent as real * 100.0;
      var b := totalSpent as real;
      assert x * b == spent as real * 100.0;
      if x > 100.0 {
        ScaleMono(100.0, x, b);
        assert false;
      }
      if spent == totalSpent {
        assert spent as real / totalSpent as real == 1.0;
      }
    }
  }

  /** The entries of `Object.entries(totals).map(...)`, in insertion order.
      In a well-formed dictionary every listed name has a tally. */
  function Entries(d: Dict, totalSpent: int, symbol: string): (r: seq<Entry>)
    ensures |r| == |d.order|
    ensures forall i :: 0 <= i < |r| ==> r[i].name == d.order[i]
    ensures forall i :: 0 <= i < |r| && d.order[i] in d.tallies ==>
              && r[i].spent == d.tallies[d.order[i]].spent
              && r[i].transactionCount == d.tallies[d.order[i]].count
              && r[i].percentOfTotal == Percent(r[i].spent, totalSpent)
  {
    seq(|d.order|, i requires 0 <= i < |d.order| =>
      var t := if d.order[i] in d.tallies then d.tallies[d.order[i]] else Tally(0, 0);
      Entry(d.order[i], t.spent, Signed(0 - t.spent, symbol), Percent(t.spent, totalSpent), t.count))
  }

  function SpentKey(e: Entry): int {
    0 - e.spent
  }

  /** `.sort((a, b) => b.spent - a.spent).slice(0, 10)`: the ten entries
      that spent the most, largest first; nothing left out spent more than
      an entry kept. */
  function Top(entries: seq<Entry>): (r: seq<Entry>)
    ensures |r| == Min(10, |entries|)
    ensures forall i, j :: 0 <= i < j < |r| ==> r[j].spent <= r[i].spent
    ensures forall e :: e in r ==> e in entries
    ensures forall e, i :: e in multiset(entries) - multiset(r) && 0 <= i < |r| ==> e.spent <= r[i].spent
  {
    var r := TakeSmallest(entries, SpentKey, 10);
    TakeSmallestLeftOut(entries, SpentKey, 10);
    forall e | e in r
      ensures e in entries
    {
      assert e in multiset(r);
    }
    r
  }

  /** Every ranked entry of the expenses `txs` grouped by `nameOf` stands for
      the expenses filed under its name: its spent amount is their total
      magnitude, its count their number, and its share a percentage. */
  lemma EntryFacts(txs: seq<Tx>, nameOf: Tx -> string, symbol: string, e: Entry)
    requires e in Entries(Tallies(txs, nameOf), SumOf(txs, Magnitude), symbol)
    ensures var mine := Filter(txs, HasName(nameOf, e.name));
            && e.spent == SumOf(mine, Magnitude)
            && e.transactionCount == |mine| > 0
            && 0 <= e.percentOfTotal <= 100
  {
    var d := Tallies(txs, nameOf);
    var total := SumOf(txs, Magnitude);
    var mine := Filter(txs, HasName(nameOf, e.name));
    assert e.name in d.tallies && e.spent == d.tallies[e.name].spent
           && e.transactionCount == d.tallies[e.name].count
           && e.percentOfTotal == Percent(e.spent, total) by {
      TalliesWellFormed(txs, nameOf);
      var entries := Entries(d, total, symbol);
      var i :| 0 <= i < |entries| && entries[i] == e;
      assert d.order[i] in d.tallies;
    }
    TallyOf(txs, nameOf, e.name);
    SumOfFilterAtMost(txs, HasName(nameOf, e.name), Magnitude);
    PercentBounds(e.spent, total);
  }

  // ---------------------------------------------------------------------------
  // Largest transactions
  // ---------------------------------------------------------------------------

  /** An entry of `largest_transactions`. */
  datatype LargeTx = LargeTx(id: string, date: string, amount: int, amountDisplay: string,
                             payeeName: Option<string>, categoryName: Option<string>,
                             accountName: Option<string>, notes: Option<string>)

  /** `payeeMap[tx.payee] || tx.imported_payee || null`. */
  function PayeeOrImported(payeeMap: map<string, string>, tx: Tx): Option<string> {
    match Lookup(payeeMap, tx.payee)
    case Some(name) => Some(name)
    case None => if tx.importedPayee != "" then Some(tx.importedPayee) else None
  }

  function Describe(tx: Tx, payeeMap: map<string, string>, categoryMap: map<string, string>,
                    accountMap: map<string, string>, symbol: string): LargeTx
  {
    LargeTx(tx.id, tx.date, tx.amount, Signed(tx.amount, symbol),
            PayeeOrImported(payeeMap, tx), Lookup(categoryMap, tx.category),
            Lookup(accountMap, tx.accountId), if tx.notes != "" then Some(tx.notes) else None)
  }

  /** `expenses.sort((a, b) => a.amount - b.amount).slice(0, 10).map(...)`:
      the ten most negative expenses, most negative first, each described
      with its names. */
  function Largest(expenses: seq<Tx>, payeeMap: map<string, string>, categoryMap: map<string, string>,
                   accountMap: map<string, string>, symbol: string): (r: seq<LargeTx>)
    ensures |r| == Min(10, |expenses|)
    ensures forall i, j :: 0 <= i < j < |r| ==> r[i].amount <= r[j].amount
  {
    var top := TakeSmallest(expenses, AmountOf, 10);
    seq(|top|, i requires 0 <= i < |top| => Describe(top[i], payeeMap, categoryMap, accountMap, symbol))
  }

  /** Each listed transaction is one of the expenses. */
  lemma LargestAreExpenses(expenses: seq<Tx>, payeeMap: map<string, string>, categoryMap: map<string, string>,
                           accountMap: map<string, string>, symbol: string, i: nat)
    requires i < |Largest(expenses, payeeMap, categoryMap, accountMap, symbol)|
    ensures exists tx :: tx in expenses
                         && Largest(expenses, payeeMap, categoryMap, accountMap, symbol)[i]
                            == Describe(tx, payeeMap, categoryMap, accountMap, symbol)
  {
    var top := TakeSmallest(expenses, AmountOf, 10);
    assert top[i] in multiset(top);
    assert top[i] in expenses;
  }

  /** An expense more negative than a listed one is listed too. */
  lemma LargestLeaveOutSmaller(expenses: seq<Tx>, payeeMap: map<string, string>, categoryMap: map<string, string>,
                               accountMap: map<string, string>, symbol: string, tx: Tx, i: nat)
    requires tx in expenses
    requires i < |Largest(expenses, payeeMap, categoryMap, accountMap, symbol)|
    requires tx.amount < Largest(expenses, payeeMap, categoryMap, accountMap, symbol)[i].amount
    ensures Describe(tx, payeeMap, categoryMap, accountMap, symbol)
            in Largest(expenses, payeeMap, categoryMap, accountMap, symbol)
  {
    var r := Largest(expenses, payeeMap, categoryMap, accountMap, symbol);
    var top := TakeSmallest(expenses, AmountOf, 10);
    assert tx in top by {
      assert r[i].amount == top[i].amount;
      SmallerIsTaken(expenses, AmountOf, 10, tx, i);
    }
    var j :| 0 <= j < |top| && top[j] == tx;
    assert r[j] == Describe(tx, payeeMap, categoryMap, accountMap, symbol);
  }

  // ---------------------------------------------------------------------------
  // The handler
  // ---------------------------------------------------------------------------

  datatype Summary = Summary(period: Period, totals: Totals, topCategories: seq<Entry>,
                             topPayees: seq<Entry>, largest: seq<LargeTx>)

  /** The counted expenses of a list of transactions. */
  function ExpensesOf(all: seq<Tx>): (r: seq<Tx>)
    ensures forall tx :: tx in r <==> tx in all && Counted(tx) && tx.amount < 0
  {
    Filter(Filter(all, Counted), IsExpense)
  }

  /** `accounts.map(a => [a.id, a.name])`. */
  function AccountPairs(accounts: seq<Account>): seq<(string, string)> {
    seq(|accounts|, i requires 0 <= i < |accounts| => (accounts[i].id, accounts[i].name))
  }

  /** The spending summary of a month. `categories` and `payees` are the
      fetched `[id, name]` pairs, from which the lookup maps are built as the
      handler builds them; the period comes from the caller's clock. The
      result is the period, the totals over the counted transactions, the
      top ten categories and payees of the expenses and the ten largest
      expenses. */
  method Summarize(accounts: seq<Account>, categories: seq<(string, string)>, payees: seq<(string, string)>,
                   isCurrentMonth: bool, monthOver: bool, today: int, lastDay: int, symbol: string)
    returns (s: Summary)
    ensures s.period == PeriodOf(isCurrentMonth, monthOver, today, lastDay)
    ensures s.period.daysElapsed + s.period.daysRemaining == lastDay
    ensures var valid := Filter(Gathered(Filter(accounts, IsOpen)), Counted);
            var expenses := Filter(valid, IsExpense);
            var categoryMap := FromEntries(categories);
            var payeeMap := FromEntries(payees);
            var accountMap := FromEntries(AccountPairs(accounts));
            && s.totals == TotalsOf(valid, s.period.daysElapsed, symbol)
            && s.totals.totalSpent == SumOf(expenses, Magnitude)
            && s.totals.totalIncome == SumOf(Filter(valid, IsIncome), AmountOf)
            && s.totals.netFlow == SumOf(valid, AmountOf)
            && s.totals.transactionCount == |expenses|
            && s.totals.dailyAverage == DailyAverage(s.totals.totalSpent, s.period.daysElapsed)
            && s.topCategories == Top(Entries(Tallies(expenses, CategoryNamer(categoryMap)), s.totals.totalSpent, symbol))
            && s.topPayees == Top(Entries(Tallies(expenses, PayeeNamer(payeeMap)), s.totals.totalSpent, symbol))
            && s.largest == Largest(expenses, payeeMap, categoryMap, accountMap, symbol)
    ensures |s.topCategories| <= 10 && |s.topPayees| <= 10 && |s.largest| <= 10
    ensures forall i, j :: 0 <= i < j < |s.topCategories| ==> s.topCategories[j].spent <= s.topCategories[i].spent
    ensures forall i, j :: 0 <= i < j < |s.topPayees| ==> s.topPayees[j].spent <= s.topPayees[i].spent
    ensures forall i, j :: 0 <= i < j < |s.largest| ==> s.largest[i].amount <= s.largest[j].amount
  {
    var period := PeriodOf(isCurrentMonth, monthOver, today, lastDay);
    var categoryMap := FromEntries(categories);
    var payeeMap := FromEntries(payees);
    var accountMap := FromEntries(AccountPairs(accounts));
    var all := GatherTransactions(accounts);
    var valid := Filter(all, Counted);
    var expenses := Filter(valid, IsExpense);
    var totals := TotalsOf(valid, period.daysElapsed, symbol);
    var byCategory := Accumulate(expenses, CategoryNamer(categoryMap));
    var topCategories := Top(Entries(byCategory, totals.totalSpent, symbol));
    var byPayee := Accumulate(expenses, PayeeNamer(payeeMap));
    var topPayees := Top(Entries(byPayee, totals.totalSpent, symbol));
    var largest := Largest(expenses, payeeMap, categoryMap, accountMap, symbol);
    s := Summary(period, totals, topCategories, topPayees, largest);
  }
}
