/** The widget object of MMM-Sbanken.js: its fields, the notification
    handler that drives the refresh pipeline, and `getDom` with the three
    section builders it calls. Requests to the helper are appended to an
    outbox; the DOM is the sequence of lines of module Display, whose
    functions specify every method here. */
module Widget {
  import opened JsText
  import opened BankApi
  import opened TransactionText
  import opened Display
  import NodeHelper

  /** A request to the helper; the configuration it also carries is
      constant and left implicit. */
  datatype Request =
    | GetToken
    | GetBankAccounts(token: Payload<Token>)
    | GetPayments(token: Payload<Token>, bankAccounts: Payload<Listing<Account>>)
    | GetTransactions(token: Payload<Token>, bankAccounts: Payload<Listing<Account>>)

  /** A notification from the helper. */
  datatype Notification =
    | TokenArrived(token: Payload<Token>)
    | BankAccountsArrived(bankAccounts: Payload<Listing<Account>>)
    | PaymentsArrived(payments: Emission<Payment>)
    | TransactionsArrived(transactions: Emission<Transaction>)
    | Other(name: string)

  /** The widget's fields, as a value. */
  datatype State = State(
    tokenInfo: Payload<Token>,
    bankAccounts: Payload<Listing<Account>>,
    payments: Emission<Payment>,
    transactions: Emission<Transaction>,
    loaded: bool,
    salaryReceived: bool,
    salaryReceivedOnAccounts: seq<string>,
    outbox: seq<Request>)

  /** The state `start` leaves: empty containers, nothing loaded, and the
      token requested. The `[]` assigned to `bankAccounts` has no `items`
      and no `error`. */
  function Initial(): State
  {
    State(Body(Token(None)), Body(Listing(None)), EmptyArray, EmptyArray, false, false, [], [GetToken])
  }

  /** `socketNotificationReceived`: each reply stores its payload and asks
      for the next stage; the account list also marks the widget loaded. */
  function Receive(s: State, n: Notification): State
  {
    match n
    case TokenArrived(t) => s.(tokenInfo := t, outbox := s.outbox + [GetBankAccounts(t)])
    case BankAccountsArrived(b) =>
      s.(bankAccounts := b, outbox := s.outbox + [GetPayments(s.tokenInfo, b)], loaded := true)
    case PaymentsArrived(p) =>
      s.(payments := p, outbox := s.outbox + [GetTransactions(s.tokenInfo, s.bankAccounts)])
    case TransactionsArrived(t) => s.(transactions := t)
    case Other(_) => s
  }

  /** The message shown when the account list could not be fetched. */
  function ErrorText(code: int): string
  {
    (if code == TooManyRequests then "Too many requests" else "An error occured (" + NumberKey(Some(code)) + ")") +
    ". Retry in 20 seconds"
  }

  /** What rendering reads without throwing: once loaded with an account
      list, `items` is present, and so is every payment list the projection
      visits. */
  predicate Renderable(config: Config, s: State)
  {
    s.loaded && s.bankAccounts.Body? ==>
      s.bankAccounts.body.items.Some? &&
      (config.showFutureAccountBalance ==> AllCovered(s.bankAccounts.body.items.value, s.payments))
  }

  /** The lines, whether a retry of the token request is scheduled, and the
      state afterwards. */
  datatype Rendered = Rendered(lines: seq<Line>, retry: bool, after: State)

  function HeaderLines(config: Config): seq<Line>
  {
    if config.header != "" then [Header(config.header)] else []
  }

  /** `getDom`. */
  function Render(config: Config, s: State, clock: Clock): Rendered
    requires Renderable(config, s)
  {
    if !s.loaded then Rendered([Loading], false, s)
    else if s.bankAccounts.Error? then
      Rendered(HeaderLines(config) + [Notice(ErrorText(s.bankAccounts.responseCode))], true, s)
    else
      var items := s.bankAccounts.body.items.value;
      var projected := if config.showFutureAccountBalance then Projected(items, s.payments, Projection(config, clock)) else items;
      var future := if config.showFutureAccountBalance then FutureLines(projected) else [];
      var today := Today(clock);
      var salaries := SalaryLabels(config, projected, s.transactions, today);
      var received := s.salaryReceived || salaries != [];
      var transactions := TransactionLines(config, projected, s.transactions, today);
      Rendered(
        HeaderLines(config) + AccountLines(config, items) + SubtotalLines(config, items) + future +
          SalaryAndTransactionLines(config, received, salaries, transactions),
        false,
        s.(bankAccounts := Body(Listing(Some(projected))), salaryReceived := received, salaryReceivedOnAccounts := salaries))
  }

  /** The rendering of a loaded account list, section by section. */
  lemma RenderSections(config: Config, s: State, clock: Clock, projected: seq<Account>, salaries: seq<string>)
    requires Renderable(config, s) && s.loaded && s.bankAccounts.Body?
    requires projected == if config.showFutureAccountBalance
                          then Projected(s.bankAccounts.body.items.value, s.payments, Projection(config, clock))
                          else s.bankAccounts.body.items.value
    requires salaries == SalaryLabels(config, projected, s.transactions, Today(clock))
    ensures var items := s.bankAccounts.body.items.value;
            var received := s.salaryReceived || salaries != [];
            Render(config, s, clock) ==
              Rendered(HeaderLines(config) + AccountLines(config, items) + SubtotalLines(config, items) +
                         (if config.showFutureAccountBalance then FutureLines(projected) else []) +
                         SalaryAndTransactionLines(config, received, salaries,
                                                   TransactionLines(config, projected, s.transactions, Today(clock))),
                       false,
                       s.(bankAccounts := Body(Listing(Some(projected))), salaryReceived := received,
                          salaryReceivedOnAccounts := salaries))
  {
  }

  lemma AppendAssociates<T>(a: seq<T>, b: seq<T>, c: seq<T>)
    ensures a + b + c == a + (b + c)
  {
  }

  class Widget {
    const config: Config
    var tokenInfo: Payload<Token>
    var bankAccounts: Payload<Listing<Account>>
    var payments: Emission<Payment>
    var transactions: Emission<Transaction>
    var loaded: bool
    var salaryReceived: bool
    var salaryReceivedOnAccounts: seq<string>
    var outbox: seq<Request>

    function Snapshot(): State
      reads this
    {
      State(tokenInfo, bankAccounts, payments, transactions, loaded, salaryReceived, salaryReceivedOnAccounts, outbox)
    }

    /** `start`. */
    constructor (config: Config)
      ensures this.config == config
      ensures Snapshot() == Initial()
    {
      this.config := config;
      tokenInfo := Body(Token(None));
      bankAccounts := Body(Listing(None));
      payments := EmptyArray;
      transactions := EmptyArray;
      loaded := false;
      salaryReceived := false;
      salaryReceivedOnAccounts := [];
      outbox := [GetToken];
    }

    /** `socketNotificationReceived`; `redraw` is the call to `updateDom`. */
    method SocketNotificationReceived(n: Notification) returns (redraw: bool)
      modifies this
      ensures Snapshot() == Receive(old(Snapshot()), n)
      ensures redraw <==> n.TransactionsArrived?
    {
      redraw := false;
      match n {
        case TokenArrived(t) =>
          tokenInfo := t;
          outbox := outbox + [GetBankAccounts(tokenInfo)];
        case BankAccountsArrived(b) =>
          bankAccounts := b;
          outbox := outbox + [GetPayments(tokenInfo, bankAccounts)];
          loaded := true;
        case PaymentsArrived(p) =>
          payments := p;
          outbox := outbox + [GetTransactions(tokenInfo, bankAccounts)];
        case TransactionsArrived(t) =>
          transactions := t;
          redraw := true;
        case Other(_) =>
      }
    }

    /** `setSalaryReceived`: raise the flag and record the account's alias
        or number. */
    method SetSalaryReceived(account: int)
      modifies this`salaryReceived, this`salaryReceivedOnAccounts
      ensures salaryReceived
      ensures salaryReceivedOnAccounts == old(salaryReceivedOnAccounts) + [SalaryLabel(config, account)]
    {
      salaryReceived := true;
      var key := NumberKey(Some(account));
      var text := if key in config.aliasForAccountLabels && config.aliasForAccountLabels[key] != ""
                   then config.aliasForAccountLabels[key] else key;
      salaryReceivedOnAccounts := salaryReceivedOnAccounts + [text];
    }

    /** `displayAndSumAccounts`: the lines of the shown accounts and the sum
        over the summed ones. The sum starts from the first summed balance
        met while it is still 0, which gives the plain sum. */
    method DisplayAndSumAccounts() returns (lines: seq<Line>, diffSum: real)
      requires bankAccounts.Body? && bankAccounts.body.items.Some?
      ensures lines == AccountLines(config, bankAccounts.body.items.value)
      ensures diffSum == SubtotalSum(config, bankAccounts.body.items.value)
    {
      var items := bankAccounts.body.items.value;
      lines := [];
      diffSum := 0.0;
      for j := 0 to |items|
        invariant lines == AccountLines(config, items[..j])
        invariant diffSum == SubtotalSum(config, items[..j])
      {
        assert items[..j + 1][..j] == items[..j];
        var account := items[j];
        var accountNumber := ParseInt(account.accountNumber);
        if config.sumAccounts.Some? && Includes(config.sumAccounts.value, accountNumber) {
          if diffSum == 0.0 {
            diffSum := account.balance;
          } else {
            diffSum := diffSum + account.balance;
          }
        }
        if config.displayOnlyAccounts.None? || Includes(config.displayOnlyAccounts.value, accountNumber) {
          var text := AliasOr(config.aliasForAccountLabels, NumberKey(accountNumber), account.name);
          lines := lines + [AccountLine(text, account.balance)];
        }
      }
      assert items[..|items|] == items;
    }

    /** `displayFutureAccountBalance`: lower each stored balance by the
        payments due before the projection instant, then report the
        accounts that need a refill. */
    method DisplayFutureAccountBalance(projection: int) returns (lines: seq<Line>)
      requires bankAccounts.Body? && bankAccounts.body.items.Some?
      requires AllCovered(bankAccounts.body.items.value, payments)
      modifies this`bankAccounts
      ensures var projected := Projected(old(bankAccounts.body.items.value), payments, projection);
              && bankAccounts == Body(Listing(Some(projected)))
              && lines == FutureLines(projected)
    {
      var items := bankAccounts.body.items.value;
      ghost var original := items;
      ghost var projected := Projected(original, payments, projection);
      lines := [Rule];
      var allInBalance := true;
      ghost var refills: seq<Line> := [];
      for j := 0 to |items|
        modifies {}
        invariant |items| == |original|
        invariant forall i :: 0 <= i < j ==> items[i] == projected[i]
        invariant forall i :: j <= i < |items| ==> items[i] == original[i]
        invariant refills == RefillLines(projected[..j])
        invariant lines == [Rule] + refills
        invariant allInBalance <==> refills == []
      {
        RefillStep(projected, j);
        var account, needsRefill := ProjectOneAccount(items[j], projection);
        assert account == projected[j];
        items := items[j := account];
        if needsRefill {
          allInBalance := false;
          lines := lines + [NeedsRefill(account.name)];
          refills := refills + [NeedsRefill(account.name)];
        }
      }
      assert items == projected;
      assert projected[..|items|] == projected;
      bankAccounts := Body(Listing(Some(items)));
      if allInBalance {
        lines := lines + [AllInBalance];
      }
    }

    /** The callback `displayFutureAccountBalance` runs for one account:
        unless it is a credit card, subtract each payment due before the
        projection instant from its balance, and tell whether it needs a
        refill. The source changes the account object in place; here the
        changed account is returned and stored back by the caller. */
    method ProjectOneAccount(account: Account, projection: int) returns (projected: Account, needsRefill: bool)
      requires Covered(account, payments)
      ensures projected == ProjectAccount(account, payments, projection)
      ensures needsRefill <==> NeedsRefillAfter(projected)
    {
      projected := account;
      needsRefill := false;
      if account.accountType != CreditCardType {
        var accountNumber := ParseInt(account.accountNumber);
        var due := EntryFor(payments, NumberKey(accountNumber)).value.items.value;
        assert due == PaymentsOf(account, payments);
        for m := 0 to |due|
          invariant projected == account.(balance := account.balance - DueSum(due[..m], projection))
        {
          DueSumStep(due, projection, m);
          if due[m].dueDate < projection {
            projected := projected.(balance := projected.balance - due[m].amount);
          }
        }
        assert due[..|due|] == due;
        needsRefill := projected.balance <= 0.0;
      }
    }

    /** `displaySalaryAndTransactions`: collect today's lines and salary
        labels over every account, then lay out the salary banner and the
        transaction section. */
    method DisplaySalaryAndTransactions(today: int) returns (lines: seq<Line>)
      requires bankAccounts.Body? && bankAccounts.body.items.Some?
      modifies this`salaryReceived, this`salaryReceivedOnAccounts
      ensures var items := bankAccounts.body.items.value;
              var labels := SalaryLabels(config, items, transactions, today);
              && salaryReceivedOnAccounts == labels
              && salaryReceived == (old(salaryReceived) || labels != [])
              && lines == SalaryAndTransactionLines(config, salaryReceived, labels,
                                                    TransactionLines(config, items, transactions, today))
    {
      var items := bankAccounts.body.items.value;
      var noExpenses := true;
      var transactionLines: seq<Line> := [];
      salaryReceivedOnAccounts := [];
      for j := 0 to |items|
        invariant transactionLines == TransactionLines(config, items[..j], transactions, today)
        invariant noExpenses <==> transactionLines == []
        invariant salaryReceivedOnAccounts == SalaryLabels(config, items[..j], transactions, today)
        invariant salaryReceived == (old(salaryReceived) || salaryReceivedOnAccounts != [])
      {
        AccountsStep(config, items, transactions, today, j);
        transactionLines, noExpenses := ScanAccount(items[j], today, transactionLines, noExpenses);
      }
      assert items[..|items|] == items;
      lines := [];
      if salaryReceived {
        lines := [SalaryReceived(salaryReceivedOnAccounts)];
      }
      if config.showTransactionsToday {
        if noExpenses {
          lines := lines + [NoTransactions(config.noTransactionsLabel)];
        } else {
          lines := lines + [Rule];
          if config.todayTransactionsHeader != "" {
            lines := lines + [Notice(config.todayTransactionsHeader)];
          }
          lines := lines + transactionLines;
        }
      }
    }

    /** The callback `displaySalaryAndTransactions` runs for one account:
        when the helper delivered its transactions, scan each of them. The
        closure's `transactionLines` and `noExpenses` are passed in and
        returned. */
    method ScanAccount(account: Account, today: int, linesIn: seq<Line>, noExpensesIn: bool)
      returns (linesOut: seq<Line>, noExpensesOut: bool)
      requires noExpensesIn <==> linesIn == []
      modifies this`salaryReceived, this`salaryReceivedOnAccounts
      ensures var ts := TransactionsOf(account, transactions);
              && linesOut == linesIn + AccountTransactionLines(config, account, ts, today)
              && (noExpensesOut <==> linesOut == [])
              && salaryReceivedOnAccounts == old(salaryReceivedOnAccounts) + AccountSalaryLabels(config, account, ts, today)
              && salaryReceived == (old(salaryReceived) || AccountSalaryLabels(config, account, ts, today) != [])
    {
      var accountNumber := ParseInt(account.accountNumber);
      var entry := EntryFor(transactions, NumberKey(accountNumber));
      if entry.Some? && entry.value.items.Some? {
        linesOut, noExpensesOut := ScanTransactions(account, accountNumber, entry.value.items.value, today, linesIn, noExpensesIn);
      } else {
        linesOut, noExpensesOut := linesIn, noExpensesIn;
      }
    }

    /** The `forEach` over the delivered transactions of one account. */
    method ScanTransactions(account: Account, accountNumber: Option<int>, ts: seq<Transaction>, today: int,
                            linesIn: seq<Line>, noExpensesIn: bool)
      returns (linesOut: seq<Line>, noExpensesOut: bool)
      requires accountNumber == AccountKey(account)
      requires noExpensesIn <==> linesIn == []
      modifies this`salaryReceived, this`salaryReceivedOnAccounts
      ensures linesOut == linesIn + AccountTransactionLines(config, account, ts, today)
      ensures noExpensesOut <==> linesOut == []
      ensures salaryReceivedOnAccounts == old(salaryReceivedOnAccounts) + AccountSalaryLabels(config, account, ts, today)
      ensures salaryReceived == (old(salaryReceived) || AccountSalaryLabels(config, account, ts, today) != [])
    {
      linesOut, noExpensesOut := linesIn, noExpensesIn;
      for m := 0 to |ts|
        invariant linesOut == linesIn + AccountTransactionLines(config, account, ts[..m], today)
        invariant noExpensesOut <==> linesOut == []
        invariant salaryReceivedOnAccounts == old(salaryReceivedOnAccounts) + AccountSalaryLabels(config, account, ts[..m], today)
        invariant salaryReceived == (old(salaryReceived) || AccountSalaryLabels(config, account, ts[..m], today) != [])
      {
        TransactionStep(config, account, ts, today, m);
        AppendAssociates(linesIn, AccountTransactionLines(config, account, ts[..m], today),
                         TransactionLineOf(config, account, ts[m], today));
        AppendAssociates(old(salaryReceivedOnAccounts), AccountSalaryLabels(config, account, ts[..m], today),
                         SalaryLabelOf(config, account, ts[m], today));
        linesOut, noExpensesOut := ScanTransaction(account, accountNumber, ts[m], today, linesOut, noExpensesOut);
      }
      assert ts[..|ts|] == ts;
    }

    /** The callback run for one transaction of an account: a transaction
        of today that is not archived becomes a line (every one, or only
        expenses) and, on a salary account above the threshold, marks the
        salary as received. */
    method ScanTransaction(account: Account, accountNumber: Option<int>, transaction: Transaction, today: int,
                           linesIn: seq<Line>, noExpensesIn: bool)
      returns (linesOut: seq<Line>, noExpensesOut: bool)
      requires accountNumber == AccountKey(account)
      requires noExpensesIn <==> linesIn == []
      modifies this`salaryReceived, this`salaryReceivedOnAccounts
      ensures linesOut == linesIn + TransactionLineOf(config, account, transaction, today)
      ensures noExpensesOut <==> linesOut == []
      ensures salaryReceivedOnAccounts ==
              old(salaryReceivedOnAccounts) + SalaryLabelOf(config, account, transaction, today)
      ensures salaryReceived == (old(salaryReceived) || SalaryLabelOf(config, account, transaction, today) != [])
    {
      linesOut, noExpensesOut := linesIn, noExpensesIn;
      if transaction.interestDate == today && transaction.source != ArchiveSource {
        var text := CleanText(transaction.text);
        if transaction.transactionType == DirectDebitType {
          text := text + " (" + account.name + ")";
        }
        if config.showOnlyExpensesInTransactions {
          if transaction.amount < 0.0 {
            noExpensesOut := false;
            linesOut := linesOut + [AccountLine(text, transaction.amount)];
          }
        } else {
          noExpensesOut := false;
          linesOut := linesOut + [AccountLine(text, transaction.amount)];
        }
        if config.salaryAccounts.Some? && Includes(config.salaryAccounts.value, accountNumber) &&
           transaction.amount > config.salaryNotificationMinimumAmount {
          SetSalaryReceived(accountNumber.value);
        }
      }
    }

    /** `getDom`: the loading line, the error branch, or the account,
        subtotal, projection and transaction sections in that order. */
    method GetDom(clock: Clock) returns (lines: seq<Line>, retry: bool)
      requires Renderable(config, Snapshot())
      modifies this`bankAccounts, this`salaryReceived, this`salaryReceivedOnAccounts
      ensures var r := Render(config, old(Snapshot()), clock);
              && lines == r.lines && retry == r.retry
              && bankAccounts == r.after.bankAccounts
              && salaryReceived == r.after.salaryReceived
              && salaryReceivedOnAccounts == r.after.salaryReceivedOnAccounts
    {
      ghost var before := Snapshot();
      if !loaded {
        return [Loading], false;
      }
      lines := [];
      if config.header != "" {
        lines := [Header(config.header)];
      }
      if bankAccounts.Error? {
        lines := lines + [Notice(ErrorText(bankAccounts.responseCode))];
        return lines, true;
      }
      retry := false;
      assert before.loaded && before.bankAccounts.Body?;
      ghost var items := bankAccounts.body.items.value;
      var accountLines, diffSum := DisplayAndSumAccounts();
      lines := lines + accountLines;
      if diffSum != 0.0 {
        lines := lines + [Rule, AccountLine(config.sumAccountsLabel, diffSum)];
      }
      assert lines == HeaderLines(config) + AccountLines(config, items) + SubtotalLines(config, items);
      ghost var projected := items;
      if config.showFutureAccountBalance {
        projected := Projected(items, payments, Projection(config, clock));
        var future := DisplayFutureAccountBalance(Projection(config, clock));
        lines := lines + future;
      }
      assert bankAccounts == Body(Listing(Some(projected)));
      assert lines == HeaderLines(config) + AccountLines(config, items) + SubtotalLines(config, items) +
                      (if config.showFutureAccountBalance then FutureLines(projected) else []);
      assert transactions == before.transactions && salaryReceived == before.salaryReceived;
      ghost var shown := lines;
      var rest := DisplaySalaryAndTransactions(Today(clock));
      lines := lines + rest;
      ghost var received := before.salaryReceived || salaryReceivedOnAccounts != [];
      assert rest == SalaryAndTransactionLines(config, received, salaryReceivedOnAccounts,
                                               TransactionLines(config, projected, before.transactions, Today(clock)));
      RenderSections(config, before, clock, projected, salaryReceivedOnAccounts);
    }
  }
}
