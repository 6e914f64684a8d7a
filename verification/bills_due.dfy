/** The bills-due handler of src/v1/routes/ai.js, after schedules, payees,
    accounts and transactions have been fetched: the transactions that pay a
    schedule are collected, every schedule is sorted into paid, upcoming or
    past due, and each list is sorted and totalled. */
module BillsDue {
  import opened Wrappers
  import opened MoneyFormat
  import opened Aggregate
  import opened BillFormat

  /** A transaction; `schedule` is "" when it pays no schedule, and `day` is
      its date as a day number (what `new Date(date)` orders by). */
  datatype Transaction = Transaction(id: string, schedule: string, date: string, day: int, amount: int)

  datatype Account = Account(id: string, name: string, closed: bool, transactions: seq<Transaction>)

  /** The entry of `paidScheduleTransactions` for a schedule. */
  datatype PaidInfo = PaidInfo(transactionId: string, paidDate: string, paidDay: int, paidAmount: int)

  /** `dateStr.substring(0, 7)`: the "YYYY-MM" part of a date. */
  function MonthOf(date: string): string {
    if |date| >= 7 then date[..7] else date
  }

  /** `isInTargetMonths(dateStr)`. */
  predicate InTargetMonths(date: string, months: seq<string>) {
    MonthOf(date) in months
  }

  /** The transaction pays a schedule within the target months. */
  predicate Pays(tx: Transaction, months: seq<string>) {
    tx.schedule != "" && InTargetMonths(tx.date, months)
  }

  function InfoOf(tx: Transaction): PaidInfo {
    PaidInfo(tx.id, tx.date, tx.day, tx.amount)
  }

  // ---------------------------------------------------------------------------
  // paidScheduleTransactions
  // ---------------------------------------------------------------------------

  /** The transactions of the open accounts, account by account. */
  function OpenTransactions(accounts: seq<Account>): seq<Transaction>
    decreases |accounts|
  {
    if accounts == [] then []
    else
      var a := accounts[|accounts| - 1];
      OpenTransactions(accounts[..|accounts| - 1]) + (if a.closed then [] else a.transactions)
  }

  /** The dictionary after the transactions `txs` have been visited: a
      schedule gets an entry from the first transaction that pays it. */
  function PaidMap(txs: seq<Transaction>, months: seq<string>): map<string, PaidInfo>
    decreases |txs|
  {
    if txs == [] then map[]
    else
      var m := PaidMap(txs[..|txs| - 1], months);
      var tx := txs[|txs| - 1];
      if Pays(tx, months) && tx.schedule !in m then m[tx.schedule := InfoOf(tx)] else m
  }

  lemma PaidMapStep(txs: seq<Transaction>, tx: Transaction, months: seq<string>)
    ensures var m := PaidMap(txs, months);
            PaidMap(txs + [tx], months)
            == if Pays(tx, months) && tx.schedule !in m then m[tx.schedule := InfoOf(tx)] else m
  {
    assert (txs + [tx])[..|txs|] == txs;
  }

  lemma OpenTransactionsStep(accounts: seq<Account>, ai: nat)
    requires ai < |accounts|
    ensures OpenTransactions(accounts[..ai + 1])
            == OpenTransactions(accounts[..ai]) + (if accounts[ai].closed then [] else accounts[ai].transactions)
  {
    assert accounts[..ai + 1][..ai] == accounts[..ai];
  }

  /** The two loops that fill `paidScheduleTransactions`. */
  method CollectPaid(accounts: seq<Account>, months: seq<string>) returns (paid: map<string, PaidInfo>)
    ensures paid == PaidMap(OpenTransactions(accounts), months)
  {
    paid := map[];
    for ai := 0 to |accounts|
      invariant paid == PaidMap(OpenTransactions(accounts[..ai]), months)
    {
      var account := accounts[ai];
      OpenTransactionsStep(accounts, ai);
      if account.closed {
        assert OpenTransactions(accounts[..ai]) + [] == OpenTransactions(accounts[..ai]);
        continue;
      }
      paid := CollectFromAccount(account.transactions, months, paid, OpenTransactions(accounts[..ai]));
    }
    assert accounts[..|accounts|] == accounts;
  }

  /** The inner loop over one open account's transactions; `before` are the
      transactions visited so far. */
  method CollectFromAccount(txs: seq<Transaction>, months: seq<string>, paid0: map<string, PaidInfo>,
                            ghost before: seq<Transaction>)
    returns (paid: map<string, PaidInfo>)
    requires paid0 == PaidMap(before, months)
    ensures paid == PaidMap(before + txs, months)
  {
    paid := paid0;
    assert before + txs[..0] == before;
    for ti := 0 to |txs|
      invariant paid == PaidMap(before + txs[..ti], months)
    {
      var tx := txs[ti];
      PaidMapStep(before + txs[..ti], tx, months);
      assert before + txs[..ti + 1] == (before + txs[..ti]) + [tx];
      if tx.schedule != "" && InTargetMonths(tx.date, months) && tx.schedule !in paid {
        paid := paid[tx.schedule := InfoOf(tx)];
      }
    }
    assert txs[..|txs|] == txs;
  }

  /** The position of the first transaction that pays schedule `k`, if any. */
  function FirstPayment(txs: seq<Transaction>, months: seq<string>, k: string): (r: Option<nat>)
    ensures r.Some? ==> r.value < |txs| && Pays(txs[r.value], months) && txs[r.value].schedule == k
    ensures r.Some? ==> forall j :: 0 <= j < r.value ==> !(Pays(txs[j], months) && txs[j].schedule == k)
    ensures r.None? ==> forall j :: 0 <= j < |txs| ==> !(Pays(txs[j], months) && txs[j].schedule == k)
    decreases |txs|
  {
    if txs == [] then None
    else
      var init := txs[..|txs| - 1];
      var tx := txs[|txs| - 1];
      match FirstPayment(init, months, k)
      case Some(i) => Some(i)
      case None => if Pays(tx, months) && tx.schedule == k then Some(|txs| - 1) else None
  }

  /** A schedule is paid exactly when some transaction pays it, and its entry
      is taken from the first such transaction. */
  lemma {:induction false} PaidMapFirst(txs: seq<Transaction>, months: seq<string>, k: string)
    ensures k in PaidMap(txs, months) <==> FirstPayment(txs, months, k).Some?
    ensures k in PaidMap(txs, months) ==>
              PaidMap(txs, months)[k] == InfoOf(txs[FirstPayment(txs, months, k).value])
    decreases |txs|
  {
    if txs != [] {
      var init := txs[..|txs| - 1];
      PaidMapFirst(init, months, k);
      if FirstPayment(init, months, k).Some? {
        assert init[FirstPayment(init, months, k).value] == txs[FirstPayment(init, months, k).value];
      }
    }
  }

  // ---------------------------------------------------------------------------
  // Sorting schedules into paid, upcoming and past due
  // ---------------------------------------------------------------------------

  /** A schedule; `daysDiff` is the whole number of days from today to its
      next date (negative when the date has passed). */
  datatype Schedule = Schedule(id: string, name: string, payee: string, account: string,
                               completed: bool, nextDate: string,
                               amountOp: Option<string>, amount: Option<Amount>, daysDiff: int)

  /** What the handler knows besides the schedules. */
  datatype Context = Context(paid: map<string, PaidInfo>, months: seq<string>, hasMonthFilter: bool,
                             payees: map<string, string>, accounts: map<string, string>, symbol: string)

  datatype Status =
    | Paid(paidDate: string, paidDay: int, paidAmount: int, paidAmountDisplay: string)
    | Upcoming(daysUntilDue: nat)
    | PastDue(daysOverdue: nat)

  datatype Bill = Bill(id: string, name: string, amount: BillAmount, payeeName: Option<string>,
                       accountName: Option<string>, nextDate: string, status: Status)

  datatype Place = Skip | ToPaid | ToUpcoming | ToPastDue

  /** Where the loop puts a schedule. */
  function Placement(s: Schedule, ctx: Context): (p: Place)
    ensures p == ToPaid <==> !s.completed && s.id in ctx.paid
    ensures p == ToUpcoming ==> s.daysDiff >= 0
    ensures p == ToPastDue ==> s.daysDiff < 0
    ensures (p == ToUpcoming || p == ToPastDue) ==>
              !s.completed && s.id !in ctx.paid && (ctx.hasMonthFilter ==> InTargetMonths(s.nextDate, ctx.months))
  {
    if s.completed then Skip
    else if s.id in ctx.paid then ToPaid
    else if ctx.hasMonthFilter && !InTargetMonths(s.nextDate, ctx.months) then Skip
    else if s.daysDiff >= 0 then ToUpcoming
    else ToPastDue
  }

  /** `map[key] || fallback` on a dictionary of names. */
  function NameIn(m: map<string, string>, key: string): Option<string> {
    if key in m && m[key] != "" then Some(m[key]) else None
  }

  /** `schedule.name || payeeMap[schedule.payee] || 'Unnamed'`. */
  function BillName(s: Schedule, payees: map<string, string>): (r: string)
    ensures r != ""
  {
    if s.name != "" then s.name
    else match NameIn(payees, s.payee)
      case Some(n) => n
      case None => "Unnamed"
  }

  /** `billInfo` with the fields the branch taken adds to it. */
  function BillFor(s: Schedule, ctx: Context): (b: Bill)
    requires Placement(s, ctx) != Skip
    ensures b.id == s.id
    ensures b.status.Paid? <==> Placement(s, ctx) == ToPaid
    ensures b.status.Upcoming? <==> Placement(s, ctx) == ToUpcoming
    ensures b.status.PastDue? ==> b.status.daysOverdue > 0
  {
    var status := match Placement(s, ctx)
      case ToPaid =>
        var info := ctx.paid[s.id];
        Paid(info.paidDate, info.paidDay, info.paidAmount, FormatBillAmount(Some(info.paidAmount), ctx.symbol))
      case ToUpcoming => Upcoming(s.daysDiff)
      case ToPastDue => PastDue(-s.daysDiff);
    Bill(s.id, BillName(s, ctx.payees), TransformAmount(s.amountOp, s.amount, ctx.symbol),
         NameIn(ctx.payees, s.payee), NameIn(ctx.accounts, s.account), s.nextDate, status)
  }

  /** The bills the loop pushes onto the list for `place`, in schedule order. */
  function Listed(schedules: seq<Schedule>, ctx: Context, place: Place): seq<Bill>
    requires place != Skip
    decreases |schedules|
  {
    if schedules == [] then []
    else
      var s := schedules[|schedules| - 1];
      Listed(schedules[..|schedules| - 1], ctx, place)
      + (if Placement(s, ctx) == place then [BillFor(s, ctx)] else [])
  }

  lemma ListedStep(schedules: seq<Schedule>, ctx: Context, place: Place, i: nat)
    requires place != Skip && i < |schedules|
    ensures Listed(schedules[..i + 1], ctx, place)
            == Listed(schedules[..i], ctx, place)
               + (if Placement(schedules[i], ctx) == place then [BillFor(schedules[i], ctx)] else [])
  {
    assert schedules[..i + 1][..i] == schedules[..i];
  }

  /** The loop over the schedules that fills `upcoming`, `pastDue` and `paid`. */
  method ClassifyBills(schedules: seq<Schedule>, ctx: Context) returns (upcoming: seq<Bill>, pastDue: seq<Bill>, paid: seq<Bill>)
    ensures upcoming == Listed(schedules, ctx, ToUpcoming)
    ensures pastDue == Listed(schedules, ctx, ToPastDue)
    ensures paid == Listed(schedules, ctx, ToPaid)
  {
    upcoming, pastDue, paid := [], [], [];
    for i := 0 to |schedules|
      invariant upcoming == Listed(schedules[..i], ctx, ToUpcoming)
      invariant pastDue == Listed(schedules[..i], ctx, ToPastDue)
      invariant paid == Listed(schedules[..i], ctx, ToPaid)
    {
      var schedule := schedules[i];
      ListedStep(schedules, ctx, ToUpcoming, i);
      ListedStep(schedules, ctx, ToPastDue, i);
      ListedStep(schedules, ctx, ToPaid, i);
      if schedule.completed {
        continue;
      }
      if schedule.id in ctx.paid {
        paid := paid + [BillFor(schedule, ctx)];
      } else {
        var isNextDateInRange := InTargetMonths(schedule.nextDate, ctx.months);
        if ctx.hasMonthFilter && !isNextDateInRange {
          continue;
        }
        if schedule.daysDiff >= 0 {
          upcoming := upcoming + [BillFor(schedule, ctx)];
        } else {
          pastDue := pastDue + [BillFor(schedule, ctx)];
        }
      }
    }
    assert schedules[..|schedules|] == schedules;
  }

  /** A bill is in a list exactly when some schedule is placed there. */
  lemma {:induction false} ListedMembers(schedules: seq<Schedule>, ctx: Context, place: Place, b: Bill)
    requires place != Skip
    ensures b in Listed(schedules, ctx, place) <==>
              exists s :: s in schedules && Placement(s, ctx) == place && b == BillFor(s, ctx)
    decreases |schedules|
  {
    if schedules != [] {
      var init := schedules[..|schedules| - 1];
      ListedMembers(init, ctx, place, b);
      assert schedules == init + [schedules[|schedules| - 1]];
    }
  }

  function SkippedCount(schedules: seq<Schedule>, ctx: Context): nat
    decreases |schedules|
  {
    if schedules == [] then 0
    else
      SkippedCount(schedules[..|schedules| - 1], ctx)
      + (if Placement(schedules[|schedules| - 1], ctx) == Skip then 1 else 0)
  }

  /** Every schedule lands in exactly one of the three lists or is skipped. */
  lemma {:induction false} ClassifyCounts(schedules: seq<Schedule>, ctx: Context)
    ensures |Listed(schedules, ctx, ToUpcoming)| + |Listed(schedules, ctx, ToPastDue)|
            + |Listed(schedules, ctx, ToPaid)| + SkippedCount(schedules, ctx) == |schedules|
    decreases |schedules|
  {
    if schedules != [] {
      ClassifyCounts(schedules[..|schedules| - 1], ctx);
    }
  }

  // ---------------------------------------------------------------------------
  // Sorting and totals
  // ---------------------------------------------------------------------------

  /** `a.days_until_due - b.days_until_due`: nearest first. */
  function UpcomingKey(b: Bill): int {
    if b.status.Upcoming? then b.status.daysUntilDue else 0
  }

  /** `b.days_overdue - a.days_overdue`: most overdue first. */
  function PastDueKey(b: Bill): int {
    if b.status.PastDue? then 0 - b.status.daysOverdue as int else 0
  }

  /** `new Date(b.paid_date) - new Date(a.paid_date)`: most recent first. */
  function PaidKey(b: Bill): int {
    if b.status.Paid? then -b.status.paidDay else 0
  }

  /** `getAmountValue(bill)`. */
  function BillValue(b: Bill): int {
    GetAmountValue(b.amount)
  }

  /** `bill.paid_amount || 0`. */
  function PaidValue(b: Bill): int {
    if b.status.Paid? then b.status.paidAmount else 0
  }

  datatype Summary = Summary(upcomingCount: nat, upcomingTotal: int, upcomingTotalDisplay: string,
                             pastDueCount: nat, pastDueTotal: int, pastDueTotalDisplay: string,
                             paidCount: nat, paidTotal: int, paidTotalDisplay: string)

  datatype Report = Report(upcoming: seq<Bill>, pastDue: seq<Bill>, paid: seq<Bill>, summary: Summary)

  /** The handler from the fetched data to the response. */
  method BillsDueReport(accounts: seq<Account>, schedules: seq<Schedule>, months: seq<string>,
                        hasMonthFilter: bool, payees: map<string, string>,
                        accountNames: map<string, string>, symbol: string) returns (r: Report)
    ensures var ctx := Context(PaidMap(OpenTransactions(accounts), months), months, hasMonthFilter,
                               payees, accountNames, symbol);
            && r.upcoming == SortBy(Listed(schedules, ctx, ToUpcoming), UpcomingKey)
            && r.pastDue == SortBy(Listed(schedules, ctx, ToPastDue), PastDueKey)
            && r.paid == SortBy(Listed(schedules, ctx, ToPaid), PaidKey)
            && r.summary.upcomingCount == |Listed(schedules, ctx, ToUpcoming)|
            && r.summary.pastDueCount == |Listed(schedules, ctx, ToPastDue)|
            && r.summary.paidCount == |Listed(schedules, ctx, ToPaid)|
            && r.summary.upcomingTotal == SumOf(Listed(schedules, ctx, ToUpcoming), BillValue)
            && r.summary.pastDueTotal == SumOf(Listed(schedules, ctx, ToPastDue), BillValue)
            && r.summary.paidTotal == SumOf(Listed(schedules, ctx, ToPaid), PaidValue)
            && r.summary.upcomingTotalDisplay == FormatBillAmount(Some(r.summary.upcomingTotal), symbol)
            && r.summary.pastDueTotalDisplay == FormatBillAmount(Some(r.summary.pastDueTotal), symbol)
            && r.summary.paidTotalDisplay == FormatBillAmount(Some(r.summary.paidTotal), symbol)
  {
    var paidMap := CollectPaid(accounts, months);
    var ctx := Context(paidMap, months, hasMonthFilter, payees, accountNames, symbol);
    var upcoming, pastDue, paid := ClassifyBills(schedules, ctx);
    var sortedUpcoming := SortBy(upcoming, UpcomingKey);
    var sortedPastDue := SortBy(pastDue, PastDueKey);
    var sortedPaid := SortBy(paid, PaidKey);
    var upcomingTotal := SumOf(sortedUpcoming, BillValue);
    var pastDueTotal := SumOf(sortedPastDue, BillValue);
    var paidTotal := SumOf(sortedPaid, PaidValue);
    SumOfPermutation(sortedUpcoming, upcoming, BillValue);
    SumOfPermutation(sortedPastDue, pastDue, BillValue);
    SumOfPermutation(sortedPaid, paid, PaidValue);
    r := Report(sortedUpcoming, sortedPastDue, sortedPaid,
                Summary(|sortedUpcoming|, upcomingTotal, FormatBillAmount(Some(upcomingTotal), symbol),
                        |sortedPastDue|, pastDueTotal, FormatBillAmount(Some(pastDueTotal), symbol),
                        |sortedPaid|, paidTotal, FormatBillAmount(Some(paidTotal), symbol)));
  }

  /** Each list holds only bills of its own kind. */
  lemma {:induction false} ListedStatus(schedules: seq<Schedule>, ctx: Context, place: Place)
    requires place != Skip
    ensures forall b :: b in Listed(schedules, ctx, place) ==>
              && (place == ToUpcoming ==> b.status.Upcoming?)
              && (place == ToPastDue ==> b.status.PastDue?)
              && (place == ToPaid ==> b.status.Paid?)
    decreases |schedules|
  {
    if schedules != [] {
      ListedStatus(schedules[..|schedules| - 1], ctx, place);
    }
  }

  /** Sorted, a list of upcoming bills runs from the nearest due date. */
  lemma SortedUpcoming(xs: seq<Bill>)
    requires forall b :: b in xs ==> b.status.Upcoming?
    ensures var up := SortBy(xs, UpcomingKey);
            forall i, j :: 0 <= i < j < |up| ==>
              up[i].status.Upcoming? && up[j].status.Upcoming?
              && up[i].status.daysUntilDue <= up[j].status.daysUntilDue
  {
    var up := SortBy(xs, UpcomingKey);
    assert forall b :: b in up ==> b.status.Upcoming? by {
      assert forall b :: b in up ==> b in multiset(xs);
    }
    UpcomingOrder(up);
  }

  lemma UpcomingOrder(up: seq<Bill>)
    requires SortedBy(up, UpcomingKey)
    requires forall b :: b in up ==> b.status.Upcoming?
    ensures forall i, j :: 0 <= i < j < |up| ==>
              up[i].status.Upcoming? && up[j].status.Upcoming?
              && up[i].status.daysUntilDue <= up[j].status.daysUntilDue
  {
    forall i, j | 0 <= i < j < |up|
      ensures up[i].status.daysUntilDue <= up[j].status.daysUntilDue
    {
      assert UpcomingKey(up[i]) <= UpcomingKey(up[j]);
    }
  }

  /** Sorted, a list of past-due bills runs from the most overdue. */
  lemma SortedPastDue(xs: seq<Bill>)
    requires forall b :: b in xs ==> b.status.PastDue?
    ensures var pd := SortBy(xs, PastDueKey);
            forall i, j :: 0 <= i < j < |pd| ==>
              pd[i].status.PastDue? && pd[j].status.PastDue?
              && pd[i].status.daysOverdue >= pd[j].status.daysOverdue
  {
    var pd := SortBy(xs, PastDueKey);
    assert forall b :: b in pd ==> b.status.PastDue? by {
      assert forall b :: b in pd ==> b in multiset(xs);
    }
    PastDueOrder(pd);
  }

  lemma PastDueOrder(pd: seq<Bill>)
    requires SortedBy(pd, PastDueKey)
    requires forall b :: b in pd ==> b.status.PastDue?
    ensures forall i, j :: 0 <= i < j < |pd| ==>
              pd[i].status.PastDue? && pd[j].status.PastDue?
              && pd[i].status.daysOverdue >= pd[j].status.daysOverdue
  {
    forall i, j | 0 <= i < j < |pd|
      ensures pd[i].status.daysOverdue >= pd[j].status.daysOverdue
    {
      assert PastDueKey(pd[i]) <= PastDueKey(pd[j]);
    }
  }

  /** Sorted, a list of paid bills runs from the most recent payment. */
  lemma SortedPaid(xs: seq<Bill>)
    requires forall b :: b in xs ==> b.status.Paid?
    ensures var pd := SortBy(xs, PaidKey);
            forall i, j :: 0 <= i < j < |pd| ==>
              pd[i].status.Paid? && pd[j].status.Paid?
              && pd[i].status.paidDay >= pd[j].status.paidDay
  {
    var pd := SortBy(xs, PaidKey);
    assert forall b :: b in pd ==> b.status.Paid? by {
      assert forall b :: b in pd ==> b in multiset(xs);
    }
    PaidOrder(pd);
  }

  lemma PaidOrder(pd: seq<Bill>)
    requires SortedBy(pd, PaidKey)
    requires forall b :: b in pd ==> b.status.Paid?
    ensures forall i, j :: 0 <= i < j < |pd| ==>
              pd[i].status.Paid? && pd[j].status.Paid?
              && pd[i].status.paidDay >= pd[j].status.paidDay
  {
    forall i, j | 0 <= i < j < |pd|
      ensures pd[i].status.paidDay >= pd[j].status.paidDay
    {
      assert PaidKey(pd[i]) <= PaidKey(pd[j]);
    }
  }
}
