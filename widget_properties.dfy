/** Properties of the widget across notifications and renders, and of the
    widget and the helper together. */
module WidgetProperties {
  import opened JsText
  import opened BankApi
  import opened Display
  import opened Widget
  import opened NodeHelper

  // ---------------------------------------------------------------------------
  // Refresh state

  /** One refresh cycle: each reply asks for the next stage with the token
      just received and the account list just stored; afterwards the widget
      holds all four payloads and is loaded. The salary fields are not
      touched. */
  lemma RefreshCycle(s: State, t: Payload<Token>, b: Payload<Listing<Account>>,
                     p: Emission<Payment>, tr: Emission<Transaction>)
    ensures var after := Receive(Receive(Receive(Receive(s, TokenArrived(t)), BankAccountsArrived(b)),
                                         PaymentsArrived(p)), TransactionsArrived(tr));
            && after.outbox == s.outbox + [GetBankAccounts(t), GetPayments(t, b), GetTransactions(t, b)]
            && after.tokenInfo == t && after.bankAccounts == b
            && after.payments == p && after.transactions == tr
            && after.loaded
            && after.salaryReceived == s.salaryReceived
            && after.salaryReceivedOnAccounts == s.salaryReceivedOnAccounts
  {
    var s1 := Receive(s, TokenArrived(t));
    var s2 := Receive(s1, BankAccountsArrived(b));
    var s3 := Receive(s2, PaymentsArrived(p));
    assert s3.outbox == s.outbox + [GetBankAccounts(t)] + [GetPayments(t, b)] + [GetTransactions(t, b)];
  }

  /** `loaded` and `salaryReceived` are never reset: no notification and no
      render clears them. */
  lemma FlagsNeverReset(config: Config, s: State, n: Notification, clock: Clock)
    requires Renderable(config, s)
    ensures s.loaded ==> Receive(s, n).loaded
    ensures Receive(s, n).loaded <==> s.loaded || n.BankAccountsArrived?
    ensures Receive(s, n).salaryReceived == s.salaryReceived
    ensures Render(config, s, clock).after.loaded == s.loaded
    ensures s.salaryReceived ==> Render(config, s, clock).after.salaryReceived
  {
  }

  // ---------------------------------------------------------------------------
  // Loading and error branches

  /** Before the account list arrives, rendering shows only the loading
      line and changes nothing. */
  lemma RenderWhileLoading(config: Config, s: State, clock: Clock)
    requires !s.loaded
    ensures Render(config, s, clock) == Rendered([Loading], false, s)
  {
  }

  /** When the account list is an error object, rendering shows the header
      and one notice, no account line of any kind, schedules a retry and
      changes nothing. */
  lemma RenderError(config: Config, s: State, clock: Clock)
    requires s.loaded && s.bankAccounts.Error?
    ensures var r := Render(config, s, clock);
            && r.lines == HeaderLines(config) + [Notice(ErrorText(s.bankAccounts.responseCode))]
            && r.retry
            && r.after == s
            && forall k :: 0 <= k < |r.lines| ==> !r.lines[k].AccountLine?
  {
  }

  /** The error notice tells the status codes apart: two codes give the same
      text only when they are equal. */
  lemma ErrorTextIdentifiesCode(a: int, b: int)
    ensures ErrorText(a) == ErrorText(b) <==> a == b
  {
    if ErrorText(a) == ErrorText(b) {
      var tail := ". Retry in 20 seconds";
      var lead := "An error occured (";
      if a == TooManyRequests || b == TooManyRequests {
        // "Too many requests" and "An error occured" differ at once
        assert ErrorText(a)[0] == ErrorText(b)[0];
      } else {
        var ka, kb := NumberKey(Some(a)), NumberKey(Some(b));
        assert ErrorText(a) == lead + ka + ")" + tail;
        assert ErrorText(b) == lead + kb + ")" + tail;
        assert |ka| == |kb|;
        assert ka == ErrorText(a)[|lead|..|lead| + |ka|];
        assert kb == ErrorText(b)[|lead|..|lead| + |kb|];
        NumberKeyParsesBack(a);
        NumberKeyParsesBack(b);
      }
    }
  }

  // ---------------------------------------------------------------------------
  // Renders that follow each other

  /** A render leaves a state that can be rendered again: the projection
      keeps every account it visits covered by its payment list. */
  lemma RenderKeepsRenderable(config: Config, s: State, clock: Clock)
    requires Renderable(config, s)
    ensures Renderable(config, Render(config, s, clock).after)
  {
    if s.loaded && s.bankAccounts.Body? && config.showFutureAccountBalance {
      ProjectedStaysCovered(s.bankAccounts.body.items.value, s.payments, Projection(config, clock));
    }
  }

  /** Because the projection lowers the stored balances, a second render
      at the same instant subtracts the due payments a second time. */
  lemma RenderTwiceProjectsTwice(config: Config, s: State, clock: Clock, k: int)
    requires Renderable(config, s) && s.loaded && s.bankAccounts.Body? && config.showFutureAccountBalance
    requires 0 <= k < |s.bankAccounts.body.items.value|
    requires s.bankAccounts.body.items.value[k].accountType != CreditCardType
    ensures Renderable(config, Render(config, s, clock).after)
    ensures var items := s.bankAccounts.body.items.value;
            var twice := Render(config, Render(config, s, clock).after, clock).after;
            && twice.bankAccounts.Body? && twice.bankAccounts.body.items.Some?
            && |twice.bankAccounts.body.items.value| == |items|
            && twice.bankAccounts.body.items.value[k].balance ==
                 items[k].balance - 2.0 * DueSum(PaymentsOf(items[k], s.payments), Projection(config, clock))
  {
    RenderKeepsRenderable(config, s, clock);
    ProjectedTwice(s.bankAccounts.body.items.value, s.payments, Projection(config, clock), k);
  }

  /** Once a salary was seen, every later render shows the banner, even
      when no salary arrived today: the banner then lists the labels found
      in this render, which may be none. */
  lemma SalaryBannerStays(config: Config, s: State, clock: Clock)
    requires Renderable(config, s) && s.loaded && s.bankAccounts.Body? && s.salaryReceived
    ensures var r := Render(config, s, clock);
            && r.after.salaryReceived
            && SalaryReceived(r.after.salaryReceivedOnAccounts) in r.lines
  {
    var items := s.bankAccounts.body.items.value;
    var projected := if config.showFutureAccountBalance then Projected(items, s.payments, Projection(config, clock)) else items;
    var salaries := SalaryLabels(config, projected, s.transactions, Today(clock));
    RenderSections(config, s, clock, projected, salaries);
    var front := HeaderLines(config) + AccountLines(config, items) + SubtotalLines(config, items) +
                 (if config.showFutureAccountBalance then FutureLines(projected) else []);
    var rest := SalaryAndTransactionLines(config, true, salaries,
                                          TransactionLines(config, projected, s.transactions, Today(clock)));
    assert rest[0] == SalaryReceived(salaries);
    assert (front + rest)[|front|] == SalaryReceived(salaries);
  }

  // ---------------------------------------------------------------------------
  // A worked example

  /** The example state: account 1001 holds 5000, and a payment of 2000 is
      due at midnight of the 18th. */
  function ExampleAccount(): Account
  {
    Account("a1", "1001", "Brukskonto", "Standard account", 5000.0)
  }

  function ExampleState(): State
  {
    var due := Payment(17 * DayMs, 2000.0);
    State(Body(Token(Some("t"))), Body(Listing(Some([ExampleAccount()]))),
          Entries(map["1001" := Listing(Some([due]))]), EmptyArray, true, false, [], [])
  }

  /** The widget finds the payment list of account 1001 under "1001". */
  lemma ExampleKey()
    ensures NumberKey(AccountKey(ExampleAccount())) == "1001"
    ensures PaymentsOf(ExampleAccount(), ExampleState().payments) == [Payment(17 * DayMs, 2000.0)]
    ensures AllCovered([ExampleAccount()], ExampleState().payments)
  {
    assert IsCanonicalDecimal("1001");
    CanonicalKeyRoundTrip("1001");
    assert AccountKey(ExampleAccount()) == ParseInt("1001");
  }

  /** On the 10th, the instant of the 19th: the 2000 due on the 18th is
      subtracted and 3000 is left, so the account is in balance. */
  lemma ExampleProjected()
    ensures Projection(Defaults(), Clock(0, 10, 0)) == 18 * DayMs
    ensures Projected([ExampleAccount()], ExampleState().payments, 18 * DayMs) == [ExampleAccount().(balance := 3000.0)]
    ensures FutureLines([ExampleAccount().(balance := 3000.0)]) == [Rule, AllInBalance]
  {
    var a := ExampleAccount();
    ExampleKey();
    var due := PaymentsOf(a, ExampleState().payments);
    assert due[..0] == [];
    assert DueSum(due, 18 * DayMs) == 2000.0;
    var projected := [a.(balance := 3000.0)];
    assert projected[..0] == [];
    assert RefillLines(projected) == [];
  }

  /** With the default options, no account line, no subtotal, no
      transaction line and no salary label. */
  lemma ExampleQuiet()
    ensures AccountLines(Defaults(), [ExampleAccount()]) == []
    ensures SubtotalLines(Defaults(), [ExampleAccount()]) == []
    ensures TransactionLines(Defaults(), [ExampleAccount().(balance := 3000.0)], EmptyArray, 9 * DayMs) == []
    ensures SalaryLabels(Defaults(), [ExampleAccount().(balance := 3000.0)], EmptyArray, 9 * DayMs) == []
  {
    var items := [ExampleAccount()];
    var projected := [ExampleAccount().(balance := 3000.0)];
    assert items[..0] == [];
    assert projected[..0] == [];
    assert TransactionsOf(projected[0], EmptyArray) == [];
  }

  /** A render where only the projection has something to say: no account
      line, no subtotal, no transaction and no salary. */
  lemma ProjectionOnlyRender(config: Config, s: State, clock: Clock, projected: seq<Account>)
    requires Renderable(config, s) && s.loaded && s.bankAccounts.Body?
    requires config.showFutureAccountBalance && config.showTransactionsToday && !s.salaryReceived
    requires projected == Projected(s.bankAccounts.body.items.value, s.payments, Projection(config, clock))
    requires AccountLines(config, s.bankAccounts.body.items.value) == []
    requires SubtotalLines(config, s.bankAccounts.body.items.value) == []
    requires TransactionLines(config, projected, s.transactions, Today(clock)) == []
    requires SalaryLabels(config, projected, s.transactions, Today(clock)) == []
    ensures Render(config, s, clock).lines ==
              HeaderLines(config) + FutureLines(projected) + [NoTransactions(config.noTransactionsLabel)]
    ensures Render(config, s, clock).after.bankAccounts == Body(Listing(Some(projected)))
  {
    var items := s.bankAccounts.body.items.value;
    RenderSections(config, s, clock, projected, []);
    var rest := SalaryAndTransactionLines(config, false, [], TransactionLines(config, projected, s.transactions, Today(clock)));
    assert rest == [NoTransactions(config.noTransactionsLabel)];
    var front := HeaderLines(config) + AccountLines(config, items) + SubtotalLines(config, items);
    assert front == HeaderLines(config);
  }

  /** With the default options (payday 15 plus 4 buffer days) on the 10th
      of a month starting at instant 0, the payment due on the 18th falls
      before the projection instant: the account is projected to 3000 and
      is in balance. The default empty `displayOnlyAccounts` shows no
      account line and the empty `sumAccounts` no subtotal. */
  lemma ProjectionExample(config: Config, s: State, clock: Clock)
    requires config == Defaults() && s == ExampleState() && clock == Clock(0, 10, 0)
    ensures Renderable(config, s)
    ensures var r := Render(config, s, clock);
            && r.lines == [Header("Bankinfo"), Rule, AllInBalance, NoTransactions("Ingen utgifter i dag")]
            && r.after.bankAccounts == Body(Listing(Some([ExampleAccount().(balance := 3000.0)])))
  {
    var items := [ExampleAccount()];
    var projected := [ExampleAccount().(balance := 3000.0)];
    assert s.bankAccounts.body.items.value == items && s.transactions == EmptyArray && !s.salaryReceived;
    ExampleKey();
    ExampleProjected();
    assert Projected(items, s.payments, Projection(config, clock)) == projected;
    ExampleQuiet();
    assert Today(clock) == 9 * DayMs;
    ProjectionOnlyRender(config, s, clock, projected);
    assert HeaderLines(config) == [Header("Bankinfo")];
  }

  // ---------------------------------------------------------------------------
  // The helper and the widget together

  /** Every entry of the result object is the body of a fulfilled request. */
  lemma {:induction false} CollectedFromFulfilled<T>(accounts: seq<Account>, events: seq<Settlement<T>>, key: string)
    requires forall k :: 0 <= k < |events| ==> events[k].index < |accounts|
    requires key in Collected(accounts, events)
    ensures exists k :: 0 <= k < |events| && Succeeded(events[k].reply) &&
                        Collected(accounts, events)[key] == events[k].reply.body
  {
    var init := events[..|events| - 1];
    var last := events[|events| - 1];
    if Succeeded(last.reply) && key == accounts[last.index].accountNumber {
      assert Collected(accounts, events)[key] == events[|events| - 1].reply.body;
    } else {
      CollectedFromFulfilled(accounts, init, key);
      var k :| 0 <= k < |init| && Succeeded(init[k].reply) && Collected(accounts, init)[key] == init[k].reply.body;
      assert events[k] == init[k];
    }
  }

  /** When every request settled, every account's request settled. */
  lemma EverySettled<T>(events: seq<Settlement<T>>, n: nat, j: nat)
    requires ValidSettlements(events, n) && |events| == n && j < n
    ensures exists k :: 0 <= k < |events| && events[k].index == j
  {
    IndexSetSize(events);
    BelowSize(n);
    var s, b := IndexSet(events), Below(n);
    assert s <= b;
    assert b == s + (b - s);
    assert j in b;
  }

  /** The PAYMENTS notification the helper sends when every request is
      fulfilled with an `items` array covers every account for the
      projection, provided the account numbers are in the form `String`
      gives back: the helper keys the entries by `accountNumber`, and the
      widget looks them up by `parseInt(accountNumber)`. */
  lemma FulfilledPaymentsCoverAccounts(enabled: bool, bankAccounts: Payload<Listing<Account>>, events: seq<Settlement<Payment>>)
    requires RequestsMade(enabled, bankAccounts)
    requires ValidSettlements(events, RequestCount(enabled, bankAccounts))
    requires |events| == AccountCount(bankAccounts) > 0
    requires forall k :: 0 <= k < |events| ==> Succeeded(events[k].reply) && events[k].reply.body.items.Some?
    requires forall k :: 0 <= k < |Accounts(bankAccounts)| ==> IsCanonicalDecimal(Accounts(bankAccounts)[k].accountNumber)
    ensures |Sent(enabled, bankAccounts, events)| == 1
    ensures AllCovered(Accounts(bankAccounts), Sent(enabled, bankAccounts, events)[0])
  {
    var accounts := Accounts(bankAccounts);
    SentIffLastFulfilled(enabled, bankAccounts, events);
    var sent := Sent(enabled, bankAccounts, events)[0];
    var collected := Collected(accounts, events);
    assert sent == Entries(collected);
    forall j | 0 <= j < |accounts| ensures Covered(accounts[j], sent) {
      EverySettled(events, |accounts|, j);
      var k :| 0 <= k < |events| && events[k].index == j;
      CollectedKeys(accounts, events);
      var key := accounts[j].accountNumber;
      assert key in collected;
      CanonicalKeyRoundTrip(key);
      CollectedFromFulfilled(accounts, events, key);
    }
  }
}
