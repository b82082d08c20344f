/** What the widget (MMM-Sbanken.js) shows, as pure functions of its
    configuration and its state. The DOM is abstracted to a sequence of
    lines; `toFixed` formatting and translations are left out, so a line
    carries the amount itself and a fixed tag for a translated text.
    These functions are the specification of the methods of
    `Widget.Widget`, which compute the same lines with the source's loops
    and in-place updates. */
module Display {
  import opened JsText
  import opened TransactionText
  import opened BankApi

  /** Milliseconds in a day; timestamps are milliseconds. */
  const DayMs: int := 86400000
  const CreditCardType: string := "Creditcard account"
  const DirectDebitType: string := "Avtalegiro"
  const ArchiveSource: string := "Archive"
  const TooManyRequests: int := 429

  /** The options the core reads. An option that is either falsy or an array
      is an Option: None stands for a falsy value. Aliases are keyed by the
      property name a number converts to. */
  datatype Config = Config(
    header: string,
    displayOnlyAccounts: Option<seq<int>>,
    aliasForAccountLabels: map<string, string>,
    sumAccountsLabel: string,
    sumAccounts: Option<seq<int>>,
    salaryAccounts: Option<seq<int>>,
    salaryNotificationMinimumAmount: real,
    showFutureAccountBalance: bool,
    showTransactionsToday: bool,
    showOnlyExpensesInTransactions: bool,
    todayTransactionsHeader: string,
    noTransactionsLabel: string,
    payDay: int,
    payDayBufferDays: int)

  /** The module's defaults. */
  function Defaults(): Config
  {
    Config("Bankinfo", Some([]), map[], "Sum", Some([]), Some([]), 10000.0,
           true, true, true, "Dagens utgifter:", "Ingen utgifter i dag", 15, 4)
  }

  /** One rendered element, in document order. */
  datatype Line =
    | Loading                              // the "loading..." text
    | Header(text: string)                 // the header element
    | Notice(text: string)                 // an info line
    | AccountLine(text: string, amount: real)
    | Rule                                 // an <hr>
    | NeedsRefill(accountName: string)     // the translated "needs refill" label beside the name
    | AllInBalance                         // the translated "all accounts are in balance"
    | SalaryReceived(accounts: seq<string>) // the translated "salary received" with the joined labels
    | NoTransactions(text: string)         // the placeholder

  // ---------------------------------------------------------------------------
  // Account lookup

  /** `parseInt(account.accountNumber)`; None is NaN. */
  function AccountKey(a: Account): Option<int>
  {
    ParseInt(a.accountNumber)
  }

  /** `array.includes(n)` on an array of integers: NaN is never included. */
  predicate Includes(list: seq<int>, n: Option<int>)
  {
    n.Some? && n.value in list
  }

  /** `map[key] ? map[key] : fallback`: an alias is used when it is a
      non-empty string. */
  function AliasOr(aliases: map<string, string>, key: string, fallback: string): string
  {
    if key in aliases && aliases[key] != "" then aliases[key] else fallback
  }

  /** An account is shown when the allow-list is falsy or includes it. */
  predicate Shown(config: Config, a: Account)
  {
    config.displayOnlyAccounts.None? || Includes(config.displayOnlyAccounts.value, AccountKey(a))
  }

  /** An account is summed when the sum list is an array that includes it. */
  predicate Summed(config: Config, a: Account)
  {
    config.sumAccounts.Some? && Includes(config.sumAccounts.value, AccountKey(a))
  }

  function AccountLabel(config: Config, a: Account): string
  {
    AliasOr(config.aliasForAccountLabels, NumberKey(AccountKey(a)), a.name)
  }

  // ---------------------------------------------------------------------------
  // Accounts and subtotal

  /** The line an account contributes: one when it is shown. */
  function AccountLineOf(config: Config, a: Account): seq<Line>
  {
    if Shown(config, a) then [AccountLine(AccountLabel(config, a), a.balance)] else []
  }

  /** The account lines, in account order. */
  function AccountLines(config: Config, items: seq<Account>): seq<Line>
  {
    if items == [] then []
    else
      var a := items[|items| - 1];
      AccountLines(config, items[..|items| - 1]) + AccountLineOf(config, a)
  }

  /** The sum of the balances of the summed accounts. */
  function SubtotalSum(config: Config, items: seq<Account>): real
  {
    if items == [] then 0.0
    else
      var a := items[|items| - 1];
      SubtotalSum(config, items[..|items| - 1]) + if Summed(config, a) then a.balance else 0.0
  }

  /** The rule and subtotal line, present only for a nonzero sum. */
  function SubtotalLines(config: Config, items: seq<Account>): (r: seq<Line>)
    ensures r != [] <==> SubtotalSum(config, items) != 0.0
    ensures r != [] ==> r == [Rule, AccountLine(config.sumAccountsLabel, SubtotalSum(config, items))]
  {
    var sum := SubtotalSum(config, items);
    if sum != 0.0 then [Rule, AccountLine(config.sumAccountsLabel, sum)] else []
  }

  /** Every account line comes from a shown account, labelled with its
      alias or its name and carrying its balance. */
  lemma {:induction false} AccountLineSource(config: Config, items: seq<Account>, line: Line)
    requires line in AccountLines(config, items)
    ensures exists k :: 0 <= k < |items| && Shown(config, items[k]) &&
                        line == AccountLine(AccountLabel(config, items[k]), items[k].balance)
  {
    var init := items[..|items| - 1];
    var a := items[|items| - 1];
    assert AccountLines(config, items) == AccountLines(config, init) + AccountLineOf(config, a);
    if line in AccountLines(config, init) {
      AccountLineSource(config, init, line);
      var k :| 0 <= k < |init| && Shown(config, init[k]) &&
               line == AccountLine(AccountLabel(config, init[k]), init[k].balance);
      assert items[k] == init[k];
    } else {
      assert Shown(config, items[|items| - 1]);
    }
  }

  /** Every shown account has its line. */
  lemma {:induction false} ShownAccountHasLine(config: Config, items: seq<Account>, k: int)
    requires 0 <= k < |items| && Shown(config, items[k])
    ensures AccountLine(AccountLabel(config, items[k]), items[k].balance) in AccountLines(config, items)
  {
    var init := items[..|items| - 1];
    var a := items[|items| - 1];
    assert AccountLines(config, items) == AccountLines(config, init) + AccountLineOf(config, a);
    if k < |init| {
      assert init[k] == items[k];
      ShownAccountHasLine(config, init, k);
    } else {
      assert AccountLineOf(config, a) == [AccountLine(AccountLabel(config, a), a.balance)];
    }
  }

  /** An account line is produced exactly for each shown account. */
  lemma AccountLineIff(config: Config, items: seq<Account>, line: Line)
    ensures line in AccountLines(config, items) <==>
            exists k :: 0 <= k < |items| && Shown(config, items[k]) &&
                        line == AccountLine(AccountLabel(config, items[k]), items[k].balance)
  {
    if line in AccountLines(config, items) {
      AccountLineSource(config, items, line);
    }
    if exists k :: 0 <= k < |items| && Shown(config, items[k]) &&
                   line == AccountLine(AccountLabel(config, items[k]), items[k].balance) {
      var k :| 0 <= k < |items| && Shown(config, items[k]) &&
               line == AccountLine(AccountLabel(config, items[k]), items[k].balance);
      ShownAccountHasLine(config, items, k);
    }
  }

  /** A falsy allow-list gives one line per account. */
  lemma {:induction false} FalsyAllowListLineCount(config: Config, items: seq<Account>)
    requires config.displayOnlyAccounts.None?
    ensures |AccountLines(config, items)| == |items|
  {
    if items != [] {
      FalsyAllowListLineCount(config, items[..|items| - 1]);
    }
  }

  /** Under a falsy allow-list, line `k` belongs to account `k`. */
  lemma {:induction false} FalsyAllowListLineAt(config: Config, items: seq<Account>, k: int)
    requires config.displayOnlyAccounts.None?
    requires 0 <= k < |items|
    ensures |AccountLines(config, items)| == |items|
    ensures AccountLines(config, items)[k] == AccountLine(AccountLabel(config, items[k]), items[k].balance)
  {
    var init := items[..|items| - 1];
    FalsyAllowListLineCount(config, init);
    if k < |init| {
      FalsyAllowListLineAt(config, init, k);
      assert items[k] == init[k];
    }
  }

  /** A falsy allow-list shows every account, in order, each with its label
      and balance. */
  lemma {:induction false} FalsyAllowListShowsAll(config: Config, items: seq<Account>)
    requires config.displayOnlyAccounts.None?
    ensures |AccountLines(config, items)| == |items|
    ensures forall k :: 0 <= k < |items| ==>
              AccountLines(config, items)[k] == AccountLine(AccountLabel(config, items[k]), items[k].balance)
  {
    FalsyAllowListLineCount(config, items);
    forall k | 0 <= k < |items|
      ensures AccountLines(config, items)[k] == AccountLine(AccountLabel(config, items[k]), items[k].balance)
    {
      FalsyAllowListLineAt(config, items, k);
    }
  }

  /** An empty allow-list is an array, so it shows no account at all. */
  lemma {:induction false} EmptyAllowListShowsNothing(config: Config, items: seq<Account>)
    requires config.displayOnlyAccounts == Some([])
    ensures AccountLines(config, items) == []
  {
    if items != [] {
      EmptyAllowListShowsNothing(config, items[..|items| - 1]);
    }
  }

  /** With no summed account the sum is 0, so no subtotal is shown. */
  lemma {:induction false} NothingSummedNoSubtotal(config: Config, items: seq<Account>)
    requires forall k :: 0 <= k < |items| ==> !Summed(config, items[k])
    ensures SubtotalSum(config, items) == 0.0
    ensures SubtotalLines(config, items) == []
  {
    if items != [] {
      NothingSummedNoSubtotal(config, items[..|items| - 1]);
    }
  }

  /** The defaults show no account and no subtotal, whatever the bank sends. */
  lemma DefaultsShowNoAccounts(items: seq<Account>)
    ensures AccountLines(Defaults(), items) == []
    ensures SubtotalLines(Defaults(), items) == []
  {
    EmptyAllowListShowsNothing(Defaults(), items);
    NothingSummedNoSubtotal(Defaults(), items);
  }

  // ---------------------------------------------------------------------------
  // Projected balance

  /** The sum of the payments due strictly before the projection instant. */
  function DueSum(payments: seq<Payment>, projection: int): real
  {
    if payments == [] then 0.0
    else
      var p := payments[|payments| - 1];
      DueSum(payments[..|payments| - 1], projection) + if p.dueDate < projection then p.amount else 0.0
  }

  /** `payments[accountNumber].items` can be read for an account the pass
      visits; credit-card accounts are skipped. */
  predicate Covered(a: Account, payments: Emission<Payment>)
  {
    a.accountType == CreditCardType ||
    (EntryFor(payments, NumberKey(AccountKey(a))).Some? &&
     EntryFor(payments, NumberKey(AccountKey(a))).value.items.Some?)
  }

  predicate AllCovered(items: seq<Account>, payments: Emission<Payment>)
  {
    forall k :: 0 <= k < |items| ==> Covered(items[k], payments)
  }

  /** `payments[accountNumber].items`; the pass only reads it for a
      covered account, so the empty fallback is never used there. */
  function PaymentsOf(a: Account, payments: Emission<Payment>): seq<Payment>
  {
    var e := EntryFor(payments, NumberKey(AccountKey(a)));
    if e.Some? && e.value.items.Some? then e.value.items.value else []
  }

  /** One account after the pass. */
  function ProjectAccount(a: Account, payments: Emission<Payment>, projection: int): Account
  {
    if a.accountType == CreditCardType then a
    else a.(balance := a.balance - DueSum(PaymentsOf(a, payments), projection))
  }

  /** The accounts after the pass. */
  function Projected(items: seq<Account>, payments: Emission<Payment>, projection: int): (r: seq<Account>)
    ensures |r| == |items|
  {
    seq(|items|, k requires 0 <= k < |items| => ProjectAccount(items[k], payments, projection))
  }

  /** The pass changes nothing but the balances of the accounts that are not
      credit cards, and lowers each of those by the payments due before the
      projection instant. */
  lemma ProjectedAt(items: seq<Account>, payments: Emission<Payment>, projection: int, k: int)
    requires 0 <= k < |items|
    ensures Projected(items, payments, projection)[k].(balance := items[k].balance) == items[k]
    ensures items[k].accountType == CreditCardType ==> Projected(items, payments, projection)[k] == items[k]
    ensures items[k].accountType != CreditCardType ==>
              Projected(items, payments, projection)[k].balance ==
                items[k].balance - DueSum(PaymentsOf(items[k], payments), projection)
  {
  }

  /** The pass keeps every account covered, so it can run again. */
  lemma ProjectedStaysCovered(items: seq<Account>, payments: Emission<Payment>, projection: int)
    requires AllCovered(items, payments)
    ensures AllCovered(Projected(items, payments, projection), payments)
  {
    var r := Projected(items, payments, projection);
    forall k | 0 <= k < |r| ensures Covered(r[k], payments) {
      ProjectedAt(items, payments, projection, k);
      assert r[k].accountNumber == items[k].accountNumber;
    }
  }

  /** Since the pass works on the stored accounts, running it twice
      subtracts the due payments twice. */
  lemma ProjectedTwice(items: seq<Account>, payments: Emission<Payment>, projection: int, k: int)
    requires 0 <= k < |items| && items[k].accountType != CreditCardType
    ensures Projected(Projected(items, payments, projection), payments, projection)[k].balance ==
              items[k].balance - 2.0 * DueSum(PaymentsOf(items[k], payments), projection)
  {
    var once := Projected(items, payments, projection);
    ProjectedAt(items, payments, projection, k);
    ProjectedAt(once, payments, projection, k);
    assert once[k].accountNumber == items[k].accountNumber;
    assert PaymentsOf(once[k], payments) == PaymentsOf(items[k], payments);
  }

  /** One more payment through the pass. */
  lemma DueSumStep(payments: seq<Payment>, projection: int, m: int)
    requires 0 <= m < |payments|
    ensures DueSum(payments[..m + 1], projection) ==
            DueSum(payments[..m], projection) + if payments[m].dueDate < projection then payments[m].amount else 0.0
  {
    assert payments[..m + 1][..m] == payments[..m];
  }

  /** Payments due at or after the projection instant are not subtracted. */
  lemma {:induction false} NothingDueSubtractsNothing(payments: seq<Payment>, projection: int)
    requires forall m :: 0 <= m < |payments| ==> payments[m].dueDate >= projection
    ensures DueSum(payments, projection) == 0.0
  {
    if payments != [] {
      NothingDueSubtractsNothing(payments[..|payments| - 1], projection);
    }
  }

  /** The account needs a refill: not a credit card, and the projected
      balance is not positive. */
  predicate NeedsRefillAfter(a: Account)
  {
    a.accountType != CreditCardType && a.balance <= 0.0
  }

  function RefillLines(projected: seq<Account>): seq<Line>
  {
    if projected == [] then []
    else
      var a := projected[|projected| - 1];
      RefillLines(projected[..|projected| - 1]) + if NeedsRefillAfter(a) then [NeedsRefill(a.name)] else []
  }

  /** One more account checked for a refill. */
  lemma RefillStep(projected: seq<Account>, j: int)
    requires 0 <= j < |projected|
    ensures RefillLines(projected[..j + 1]) ==
            RefillLines(projected[..j]) + if NeedsRefillAfter(projected[j]) then [NeedsRefill(projected[j].name)] else []
  {
    assert projected[..j + 1][..j] == projected[..j];
  }

  /** The projected-balance section. */
  function FutureLines(projected: seq<Account>): seq<Line>
  {
    var refills := RefillLines(projected);
    [Rule] + refills + if refills == [] then [AllInBalance] else []
  }

  lemma {:induction false} RefillLinesAreRefills(projected: seq<Account>)
    ensures forall line :: line in RefillLines(projected) ==> line.NeedsRefill?
  {
    if projected != [] {
      RefillLinesAreRefills(projected[..|projected| - 1]);
    }
  }

  /** A "needs refill" line names exactly the accounts that need a refill. */
  lemma {:induction false} NeedsRefillIff(projected: seq<Account>, name: string)
    ensures NeedsRefill(name) in RefillLines(projected) <==>
            exists k :: 0 <= k < |projected| && NeedsRefillAfter(projected[k]) && projected[k].name == name
  {
    if projected != [] {
      var init := projected[..|projected| - 1];
      NeedsRefillIff(init, name);
      if NeedsRefill(name) in RefillLines(init) {
        var k :| 0 <= k < |init| && NeedsRefillAfter(init[k]) && init[k].name == name;
        assert projected[k] == init[k];
      }
      if exists k :: 0 <= k < |projected| && NeedsRefillAfter(projected[k]) && projected[k].name == name {
        var k :| 0 <= k < |projected| && NeedsRefillAfter(projected[k]) && projected[k].name == name;
        if k < |init| {
          assert init[k] == projected[k];
        }
      }
    }
  }

  lemma {:induction false} RefillLinesEmptyIff(projected: seq<Account>)
    ensures RefillLines(projected) == [] <==> forall k :: 0 <= k < |projected| ==> !NeedsRefillAfter(projected[k])
  {
    if projected != [] {
      var init := projected[..|projected| - 1];
      RefillLinesEmptyIff(init);
      if RefillLines(projected) == [] {
        forall k | 0 <= k < |projected| ensures !NeedsRefillAfter(projected[k]) {
          if k < |init| {
            assert init[k] == projected[k];
          }
        }
      }
    }
  }

  /** The "all accounts in balance" line appears iff no account needs a
      refill. */
  lemma AllInBalanceIff(projected: seq<Account>)
    ensures AllInBalance in FutureLines(projected) <==>
            forall k :: 0 <= k < |projected| ==> !NeedsRefillAfter(projected[k])
  {
    RefillLinesAreRefills(projected);
    RefillLinesEmptyIff(projected);
  }

  // ---------------------------------------------------------------------------
  // Dates

  /** The wall clock, abstracted: the first instant of the current month, the
      day of the month and the time since midnight. Days are taken to be
      `DayMs` long. */
  datatype Clock = Clock(monthStart: int, dayOfMonth: int, timeOfDay: int)

  predicate ValidClock(c: Clock)
  {
    1 <= c.dayOfMonth && 0 <= c.timeOfDay < DayMs
  }

  /** `moment().startOf('day')`. */
  function Today(c: Clock): int
  {
    c.monthStart + (c.dayOfMonth - 1) * DayMs
  }

  /** Now with the day of the month set to payDay + payDayBufferDays; a day
      past the end of the month runs on into the next, as `setDate` does. */
  function Projection(config: Config, c: Clock): int
  {
    c.monthStart + (config.payDay + config.payDayBufferDays - 1) * DayMs + c.timeOfDay
  }

  /** A payment due at midnight of day `d` of the month is subtracted iff `d`
      is before payDay + payDayBufferDays, or is that day and the clock is
      past midnight: the projection keeps the current time of day. */
  lemma MidnightPaymentDueIff(config: Config, c: Clock, d: int)
    requires ValidClock(c)
    ensures var due := c.monthStart + (d - 1) * DayMs;
            var day := config.payDay + config.payDayBufferDays;
            due < Projection(config, c) <==> d < day || (d == day && c.timeOfDay > 0)
  {
    var day := config.payDay + config.payDayBufferDays;
    var lhs := (d - 1) * DayMs;
    var rhs := (day - 1) * DayMs;
    assert lhs - rhs == (d - day) * DayMs;
    if d < day {
      assert (d - day) * DayMs <= -DayMs;
    } else if d > day {
      assert (d - day) * DayMs >= DayMs;
    }
  }

  // ---------------------------------------------------------------------------
  // Transactions and salary

  /** The transaction is dated today and is not archived. */
  predicate IsToday(t: Transaction, today: int)
  {
    t.interestDate == today && t.source != ArchiveSource
  }

  /** A transaction of today becomes a line: every one, or only expenses. */
  predicate Listed(config: Config, t: Transaction)
  {
    !config.showOnlyExpensesInTransactions || t.amount < 0.0
  }

  /** The transaction counts as salary: the account is a salary account and
      the amount exceeds the threshold. */
  predicate IsSalary(config: Config, a: Account, t: Transaction)
  {
    IsSalaryAccount(config, a) && t.amount > config.salaryNotificationMinimumAmount
  }

  /** The salary list is an array that includes the account. */
  predicate IsSalaryAccount(config: Config, a: Account)
  {
    config.salaryAccounts.Some? && Includes(config.salaryAccounts.value, AccountKey(a))
  }

  /** The cleaned text, with the account name for a direct debit. */
  function TransactionLabel(t: Transaction, a: Account): string
  {
    if t.transactionType == DirectDebitType then CleanText(t.text) + " (" + a.name + ")" else CleanText(t.text)
  }

  /** `transactions[accountNumber].items` when both are truthy, else none. */
  function TransactionsOf(a: Account, transactions: Emission<Transaction>): seq<Transaction>
  {
    var e := EntryFor(transactions, NumberKey(AccountKey(a)));
    if e.Some? && e.value.items.Some? then e.value.items.value else []
  }

  /** The label `setSalaryReceived` records for a parsed account number:
      its alias, or the number itself. */
  function SalaryLabel(config: Config, n: int): string
  {
    AliasOr(config.aliasForAccountLabels, NumberKey(Some(n)), NumberKey(Some(n)))
  }

  /** The line a transaction contributes: one when it is of today and
      listed. */
  function TransactionLineOf(config: Config, a: Account, t: Transaction, today: int): seq<Line>
  {
    if IsToday(t, today) && Listed(config, t) then [AccountLine(TransactionLabel(t, a), t.amount)] else []
  }

  /** The transaction lines of one account. */
  function AccountTransactionLines(config: Config, a: Account, ts: seq<Transaction>, today: int): seq<Line>
  {
    if ts == [] then []
    else
      var t := ts[|ts| - 1];
      AccountTransactionLines(config, a, ts[..|ts| - 1], today) + TransactionLineOf(config, a, t, today)
  }

  /** The label a salary transaction of today contributes. */
  function SalaryLabelOf(config: Config, a: Account, t: Transaction, today: int): seq<string>
  {
    if IsToday(t, today) && IsSalary(config, a, t) then [SalaryLabel(config, AccountKey(a).value)] else []
  }

  /** The salary labels one account contributes: one per salary transaction. */
  function AccountSalaryLabels(config: Config, a: Account, ts: seq<Transaction>, today: int): seq<string>
  {
    if ts == [] then []
    else
      var t := ts[|ts| - 1];
      AccountSalaryLabels(config, a, ts[..|ts| - 1], today) + SalaryLabelOf(config, a, t, today)
  }

  function TransactionLines(config: Config, items: seq<Account>, transactions: Emission<Transaction>, today: int): seq<Line>
  {
    if items == [] then []
    else
      var a := items[|items| - 1];
      TransactionLines(config, items[..|items| - 1], transactions, today) +
        AccountTransactionLines(config, a, TransactionsOf(a, transactions), today)
  }

  function SalaryLabels(config: Config, items: seq<Account>, transactions: Emission<Transaction>, today: int): seq<string>
  {
    if items == [] then []
    else
      var a := items[|items| - 1];
      SalaryLabels(config, items[..|items| - 1], transactions, today) +
        AccountSalaryLabels(config, a, TransactionsOf(a, transactions), today)
  }

  /** One more transaction of an account. */
  lemma TransactionStep(config: Config, a: Account, ts: seq<Transaction>, today: int, m: int)
    requires 0 <= m < |ts|
    ensures AccountTransactionLines(config, a, ts[..m + 1], today) ==
            AccountTransactionLines(config, a, ts[..m], today) + TransactionLineOf(config, a, ts[m], today)
    ensures AccountSalaryLabels(config, a, ts[..m + 1], today) ==
            AccountSalaryLabels(config, a, ts[..m], today) + SalaryLabelOf(config, a, ts[m], today)
  {
    assert ts[..m + 1][..m] == ts[..m];
  }

  /** One more account's transactions. */
  lemma AccountsStep(config: Config, items: seq<Account>, transactions: Emission<Transaction>, today: int, j: int)
    requires 0 <= j < |items|
    ensures TransactionLines(config, items[..j + 1], transactions, today) ==
            TransactionLines(config, items[..j], transactions, today) +
            AccountTransactionLines(config, items[j], TransactionsOf(items[j], transactions), today)
    ensures SalaryLabels(config, items[..j + 1], transactions, today) ==
            SalaryLabels(config, items[..j], transactions, today) +
            AccountSalaryLabels(config, items[j], TransactionsOf(items[j], transactions), today)
  {
    assert items[..j + 1][..j] == items[..j];
  }

  /** The salary banner and the transaction section. */
  function SalaryAndTransactionLines(config: Config, salaryReceived: bool, salaryLabels: seq<string>, lines: seq<Line>): seq<Line>
  {
    var banner := if salaryReceived then [SalaryReceived(salaryLabels)] else [];
    if !config.showTransactionsToday then banner
    else if lines == [] then banner + [NoTransactions(config.noTransactionsLabel)]
    else
      var ruled := banner + [Rule];
      (if config.todayTransactionsHeader != "" then ruled + [Notice(config.todayTransactionsHeader)] else ruled) + lines
  }


  lemma {:induction false} TransactionLineSource(config: Config, a: Account, ts: seq<Transaction>, today: int, line: Line)
    requires line in AccountTransactionLines(config, a, ts, today)
    ensures exists m :: 0 <= m < |ts| && IsToday(ts[m], today) && Listed(config, ts[m]) &&
                        line == AccountLine(TransactionLabel(ts[m], a), ts[m].amount)
  {
    var init := ts[..|ts| - 1];
    var t := ts[|ts| - 1];
    assert AccountTransactionLines(config, a, ts, today) ==
           AccountTransactionLines(config, a, init, today) + TransactionLineOf(config, a, t, today);
    if line in AccountTransactionLines(config, a, init, today) {
      TransactionLineSource(config, a, init, today, line);
      var m :| 0 <= m < |init| && IsToday(init[m], today) && Listed(config, init[m]) &&
               line == AccountLine(TransactionLabel(init[m], a), init[m].amount);
      assert ts[m] == init[m];
    } else {
      assert IsToday(ts[|ts| - 1], today);
    }
  }

  lemma {:induction false} ListedTransactionHasLine(config: Config, a: Account, ts: seq<Transaction>, today: int, m: int)
    requires 0 <= m < |ts| && IsToday(ts[m], today) && Listed(config, ts[m])
    ensures AccountLine(TransactionLabel(ts[m], a), ts[m].amount) in AccountTransactionLines(config, a, ts, today)
  {
    var init := ts[..|ts| - 1];
    var t := ts[|ts| - 1];
    assert AccountTransactionLines(config, a, ts, today) ==
           AccountTransactionLines(config, a, init, today) + TransactionLineOf(config, a, t, today);
    if m < |init| {
      assert init[m] == ts[m];
      ListedTransactionHasLine(config, a, init, today, m);
    }
  }

  /** A transaction line of an account is exactly a listed transaction of
      today, with its cleaned label and its amount. */
  lemma AccountTransactionLineIff(config: Config, a: Account, ts: seq<Transaction>, today: int, line: Line)
    ensures line in AccountTransactionLines(config, a, ts, today) <==>
            exists m :: 0 <= m < |ts| && IsToday(ts[m], today) && Listed(config, ts[m]) &&
                        line == AccountLine(TransactionLabel(ts[m], a), ts[m].amount)
  {
    if line in AccountTransactionLines(config, a, ts, today) {
      TransactionLineSource(config, a, ts, today, line);
    }
    if exists m :: 0 <= m < |ts| && IsToday(ts[m], today) && Listed(config, ts[m]) &&
                   line == AccountLine(TransactionLabel(ts[m], a), ts[m].amount) {
      var m :| 0 <= m < |ts| && IsToday(ts[m], today) && Listed(config, ts[m]) &&
               line == AccountLine(TransactionLabel(ts[m], a), ts[m].amount);
      ListedTransactionHasLine(config, a, ts, today, m);
    }
  }

  lemma {:induction false} TransactionLineAccount(config: Config, items: seq<Account>, transactions: Emission<Transaction>, today: int, line: Line)
    requires line in TransactionLines(config, items, transactions, today)
    ensures exists k :: 0 <= k < |items| &&
                        line in AccountTransactionLines(config, items[k], TransactionsOf(items[k], transactions), today)
  {
    var init := items[..|items| - 1];
    var a := items[|items| - 1];
    if line in TransactionLines(config, init, transactions, today) {
      TransactionLineAccount(config, init, transactions, today, line);
      var k :| 0 <= k < |init| &&
               line in AccountTransactionLines(config, init[k], TransactionsOf(init[k], transactions), today);
      assert items[k] == init[k];
    } else {
      assert line in AccountTransactionLines(config, items[|items| - 1], TransactionsOf(a, transactions), today);
    }
  }

  lemma {:induction false} AccountTransactionLinesIncluded(config: Config, items: seq<Account>, transactions: Emission<Transaction>, today: int, k: int, line: Line)
    requires 0 <= k < |items|
    requires line in AccountTransactionLines(config, items[k], TransactionsOf(items[k], transactions), today)
    ensures line in TransactionLines(config, items, transactions, today)
  {
    var init := items[..|items| - 1];
    if k < |init| {
      assert init[k] == items[k];
      AccountTransactionLinesIncluded(config, init, transactions, today, k, line);
    }
  }

  /** The transaction lines are exactly those of the accounts. */
  lemma TransactionLineIff(config: Config, items: seq<Account>, transactions: Emission<Transaction>, today: int, line: Line)
    ensures line in TransactionLines(config, items, transactions, today) <==>
            exists k :: 0 <= k < |items| &&
                        line in AccountTransactionLines(config, items[k], TransactionsOf(items[k], transactions), today)
  {
    if line in TransactionLines(config, items, transactions, today) {
      TransactionLineAccount(config, items, transactions, today, line);
    }
    if exists k :: 0 <= k < |items| &&
                   line in AccountTransactionLines(config, items[k], TransactionsOf(items[k], transactions), today) {
      var k :| 0 <= k < |items| &&
               line in AccountTransactionLines(config, items[k], TransactionsOf(items[k], transactions), today);
      AccountTransactionLinesIncluded(config, items, transactions, today, k, line);
    }
  }

  /** An account contributes no line iff none of its transactions of today
      is listed. */
  lemma {:induction false} AccountTransactionLinesEmptyIff(config: Config, a: Account, ts: seq<Transaction>, today: int)
    ensures AccountTransactionLines(config, a, ts, today) == [] <==>
            forall m :: 0 <= m < |ts| ==> !(IsToday(ts[m], today) && Listed(config, ts[m]))
  {
    if ts != [] {
      var init := ts[..|ts| - 1];
      AccountTransactionLinesEmptyIff(config, a, init, today);
      if AccountTransactionLines(config, a, ts, today) == [] {
        forall m | 0 <= m < |ts| ensures !(IsToday(ts[m], today) && Listed(config, ts[m])) {
          if m < |init| {
            assert init[m] == ts[m];
          }
        }
      }
    }
  }

  /** The placeholder is shown iff the section is on and no transaction of
      today, on any account, is listed. */
  lemma {:induction false} PlaceholderIff(config: Config, salaryReceived: bool, salaryLabels: seq<string>,
                                          items: seq<Account>, transactions: Emission<Transaction>, today: int)
    ensures var lines := TransactionLines(config, items, transactions, today);
            NoTransactions(config.noTransactionsLabel) in SalaryAndTransactionLines(config, salaryReceived, salaryLabels, lines) <==>
              config.showTransactionsToday &&
              forall k :: 0 <= k < |items| ==>
                AccountTransactionLines(config, items[k], TransactionsOf(items[k], transactions), today) == []
  {
    var lines := TransactionLines(config, items, transactions, today);
    TransactionLinesEmptyIff(config, items, transactions, today);
    TransactionLinesHaveNoPlaceholder(config, items, transactions, today);
    if lines != [] {
      assert NoTransactions(config.noTransactionsLabel) !in lines;
    }
  }

  lemma TransactionLinesEmptyIff(config: Config, items: seq<Account>, transactions: Emission<Transaction>, today: int)
    ensures TransactionLines(config, items, transactions, today) == [] <==>
            forall k :: 0 <= k < |items| ==>
              AccountTransactionLines(config, items[k], TransactionsOf(items[k], transactions), today) == []
  {
    var lines := TransactionLines(config, items, transactions, today);
    if lines != [] {
      TransactionLineAccount(config, items, transactions, today, lines[0]);
    }
    if exists k :: 0 <= k < |items| &&
                   AccountTransactionLines(config, items[k], TransactionsOf(items[k], transactions), today) != [] {
      var k :| 0 <= k < |items| &&
               AccountTransactionLines(config, items[k], TransactionsOf(items[k], transactions), today) != [];
      var line := AccountTransactionLines(config, items[k], TransactionsOf(items[k], transactions), today)[0];
      AccountTransactionLinesIncluded(config, items, transactions, today, k, line);
    }
  }

  lemma {:induction false} AccountTransactionLinesAreEntries(config: Config, a: Account, ts: seq<Transaction>, today: int)
    ensures forall line :: line in AccountTransactionLines(config, a, ts, today) ==> line.AccountLine?
  {
    if ts != [] {
      AccountTransactionLinesAreEntries(config, a, ts[..|ts| - 1], today);
    }
  }

  lemma {:induction false} TransactionLinesHaveNoPlaceholder(config: Config, items: seq<Account>, transactions: Emission<Transaction>, today: int)
    ensures forall line :: line in TransactionLines(config, items, transactions, today) ==> line.AccountLine?
  {
    if items != [] {
      var a := items[|items| - 1];
      TransactionLinesHaveNoPlaceholder(config, items[..|items| - 1], transactions, today);
      AccountTransactionLinesAreEntries(config, a, TransactionsOf(a, transactions), today);
    }
  }

  /** The positions of the transactions of today above the threshold. */
  function LargeTodayIndices(ts: seq<Transaction>, today: int, min: real): set<int>
  {
    set m | 0 <= m < |ts| && IsToday(ts[m], today) && ts[m].amount > min
  }

  lemma LargeTodayIndicesStep(ts: seq<Transaction>, today: int, min: real)
    requires ts != []
    ensures var t := ts[|ts| - 1];
            |LargeTodayIndices(ts, today, min)| ==
              |LargeTodayIndices(ts[..|ts| - 1], today, min)| + if IsToday(t, today) && t.amount > min then 1 else 0
  {
    var init := ts[..|ts| - 1];
    var t := ts[|ts| - 1];
    var before := LargeTodayIndices(init, today, min);
    var after := LargeTodayIndices(ts, today, min);
    var added := if IsToday(t, today) && t.amount > min then {|ts| - 1} else {};
    forall m | m in after ensures m in before + added {
      if m < |init| {
        assert init[m] == ts[m];
      }
    }
    forall m | m in before + added ensures m in after {
      if m < |init| {
        assert init[m] == ts[m];
      }
    }
    assert after == before + added;
  }

  /** An account contributes one salary label per salary transaction of
      today: the count is not capped, so labels repeat. */
  lemma {:induction false} AccountSalaryLabelCount(config: Config, a: Account, ts: seq<Transaction>, today: int)
    ensures |AccountSalaryLabels(config, a, ts, today)| ==
            if IsSalaryAccount(config, a)
            then |LargeTodayIndices(ts, today, config.salaryNotificationMinimumAmount)|
            else 0
  {
    if ts != [] {
      var init := ts[..|ts| - 1];
      var t := ts[|ts| - 1];
      AccountSalaryLabelCount(config, a, init, today);
      LargeTodayIndicesStep(ts, today, config.salaryNotificationMinimumAmount);
      assert |AccountSalaryLabels(config, a, ts, today)| ==
             |AccountSalaryLabels(config, a, init, today)| + |SalaryLabelOf(config, a, t, today)|;
    }
  }

  /** Every salary label of an account is that account's alias or number. */
  lemma {:induction false} AccountSalaryLabelsName(config: Config, a: Account, ts: seq<Transaction>, today: int)
    ensures forall l :: l in AccountSalaryLabels(config, a, ts, today) ==>
              AccountKey(a).Some? && l == SalaryLabel(config, AccountKey(a).value)
  {
    if ts != [] {
      AccountSalaryLabelsName(config, a, ts[..|ts| - 1], today);
    }
  }

  /** Two salary transactions of today on one account give its label twice. */
  lemma SalaryLabelsNotDeduplicated(config: Config, a: Account, t1: Transaction, t2: Transaction, today: int)
    requires IsToday(t1, today) && IsSalary(config, a, t1)
    requires IsToday(t2, today) && IsSalary(config, a, t2)
    ensures var l := SalaryLabel(config, AccountKey(a).value);
            AccountSalaryLabels(config, a, [t1, t2], today) == [l, l]
  {
    var l := SalaryLabel(config, AccountKey(a).value);
    assert [t1, t2][..1] == [t1];
    assert [t1][..0] == [];
    assert AccountSalaryLabels(config, a, [t1], today) == [] + SalaryLabelOf(config, a, t1, today) == [l];
    assert AccountSalaryLabels(config, a, [t1, t2], today) == [l] + SalaryLabelOf(config, a, t2, today);
  }

  /** A salary label names an account that received a salary transaction
      today. */
  lemma {:induction false} SalaryLabelSource(config: Config, items: seq<Account>, transactions: Emission<Transaction>, today: int, l: string)
    requires l in SalaryLabels(config, items, transactions, today)
    ensures exists k :: 0 <= k < |items| && l in AccountSalaryLabels(config, items[k], TransactionsOf(items[k], transactions), today)
  {
    var init := items[..|items| - 1];
    var a := items[|items| - 1];
    if l in SalaryLabels(config, init, transactions, today) {
      SalaryLabelSource(config, init, transactions, today, l);
      var k :| 0 <= k < |init| && l in AccountSalaryLabels(config, init[k], TransactionsOf(init[k], transactions), today);
      assert items[k] == init[k];
    } else {
      assert l in AccountSalaryLabels(config, a, TransactionsOf(a, transactions), today);
    }
  }
}
