/** The backend helper (node_helper.js). It answers the widget's requests:
    one request each for the token and the account list, and one request
    per account for payments and for transactions, gathered into one
    notification by a counter.

    The HTTP call itself is a parameter: a request is represented by the
    Reply it settles with, and the per-account requests by the order in
    which they settle. JavaScript runs the settle handlers one at a time,
    so a sequence of settlements is exact. */
module NodeHelper {
  import opened JsText
  import opened BankApi

  /** `getError`: the object sent in place of a body. */
  function GetError<T>(responseCode: int): (p: Payload<T>)
    ensures p.Error? && p.responseCode == responseCode
  {
    Error(responseCode)
  }

  /** The request succeeded: no transport error and status 200. */
  predicate Succeeded<T>(reply: Reply<T>)
  {
    !reply.transportError && reply.statusCode == 200
  }

  /** The GET_TOKEN and GET_BANK_ACCOUNTS callbacks: the parsed body on
      success, `getError(statusCode)` otherwise. */
  function ReplyPayload<T>(reply: Reply<T>): (p: Payload<T>)
    ensures p.Body? <==> Succeeded(reply)
    ensures p.Body? ==> p.body == reply.body
    ensures p.Error? ==> p.responseCode == reply.statusCode
  {
    if Succeeded(reply) then Body(reply.body) else GetError(reply.statusCode)
  }

  // ---------------------------------------------------------------------------
  // GET_PAYMENTS and GET_TRANSACTIONS

  /** The accounts the widget passed along; none when `items` is absent. */
  function Accounts(bankAccounts: Payload<Listing<Account>>): seq<Account>
  {
    if bankAccounts.Body? && bankAccounts.body.items.Some? then bankAccounts.body.items.value else []
  }

  /** `accountCount`: the length of `items`, or 0 when `items` is absent. */
  function AccountCount(bankAccounts: Payload<Listing<Account>>): (n: nat)
    ensures bankAccounts.Body? && bankAccounts.body.items.Some? ==> n == |bankAccounts.body.items.value|
    ensures !(bankAccounts.Body? && bankAccounts.body.items.Some?) ==> n == 0
  {
    if bankAccounts.Body? && bankAccounts.body.items.Some? then |bankAccounts.body.items.value| else 0
  }

  /** The per-account requests are made when the feature's option is on and
      `items` is present. An empty array is present: it is truthy. */
  predicate RequestsMade(enabled: bool, bankAccounts: Payload<Listing<Account>>)
  {
    enabled && bankAccounts.Body? && bankAccounts.body.items.Some?
  }

  /** How many requests are made. */
  function RequestCount(enabled: bool, bankAccounts: Payload<Listing<Account>>): nat
  {
    if RequestsMade(enabled, bankAccounts) then AccountCount(bankAccounts) else 0
  }

  function AccountIds(accounts: seq<Account>): (ids: seq<string>)
    ensures |ids| == |accounts|
    ensures forall k :: 0 <= k < |accounts| ==> ids[k] == accounts[k].accountId
  {
    seq(|accounts|, k requires 0 <= k < |accounts| => accounts[k].accountId)
  }

  /** The request for account `index` settled with `reply`. */
  datatype Settlement<T> = Settlement(index: nat, reply: Reply<Listing<T>>)

  /** Only requests that were made settle, and each settles at most once. */
  predicate ValidSettlements<T>(events: seq<Settlement<T>>, n: nat)
  {
    && (forall k :: 0 <= k < |events| ==> events[k].index < n)
    && (forall j, k :: 0 <= j < k < |events| ==> events[j].index != events[k].index)
  }

  /** The result object after the given settlements: every fulfilled request
      stores its body under its account's `accountNumber`. */
  function Collected<T>(accounts: seq<Account>, events: seq<Settlement<T>>): map<string, Listing<T>>
    requires forall k :: 0 <= k < |events| ==> events[k].index < |accounts|
  {
    if events == [] then map[]
    else
      var last := events[|events| - 1];
      var before := Collected(accounts, events[..|events| - 1]);
      if Succeeded(last.reply) then before[accounts[last.index].accountNumber := last.reply.body] else before
  }

  /** The account ids logged by the rejection handler, in settlement order. */
  function FailedIds<T>(accounts: seq<Account>, events: seq<Settlement<T>>): seq<string>
    requires forall k :: 0 <= k < |events| ==> events[k].index < |accounts|
  {
    if events == [] then []
    else
      var last := events[|events| - 1];
      var before := FailedIds(accounts, events[..|events| - 1]);
      if Succeeded(last.reply) then before else before + [accounts[last.index].accountId]
  }

  /** The notifications the handler sends, as written: `[]` at once when no
      request is made; otherwise the result object, but only from the
      fulfilment handler that brings the counter to `accountCount`. */
  function Sent<T>(enabled: bool, bankAccounts: Payload<Listing<Account>>, events: seq<Settlement<T>>): seq<Emission<T>>
    requires ValidSettlements(events, RequestCount(enabled, bankAccounts))
  {
    if !RequestsMade(enabled, bankAccounts) then [EmptyArray]
    else
      var n := AccountCount(bankAccounts);
      if 0 < n <= |events| && Succeeded(events[n - 1].reply) then
        [Entries(Collected(Accounts(bankAccounts), events[..n]))]
      else
        []
  }

  /** The GET_PAYMENTS / GET_TRANSACTIONS handler (`enabled` is
      `showFutureAccountBalance` or `showTransactionsToday`), run against
      the settlements that happen. Returns the account ids requested, the
      final counter, the ids logged as failed and the notifications sent. */
  method HandleFanIn<T>(enabled: bool, bankAccounts: Payload<Listing<Account>>, events: seq<Settlement<T>>)
    returns (requested: seq<string>, settled: nat, logged: seq<string>, sent: seq<Emission<T>>)
    requires ValidSettlements(events, RequestCount(enabled, bankAccounts))
    ensures requested == if RequestsMade(enabled, bankAccounts) then AccountIds(Accounts(bankAccounts)) else []
    ensures settled == |events|
    ensures logged == FailedIds(Accounts(bankAccounts), events)
    ensures sent == Sent(enabled, bankAccounts, events)
  {
    var accounts := Accounts(bankAccounts);
    var count := AccountCount(bankAccounts);
    if !RequestsMade(enabled, bankAccounts) {
      SettlementsBounded(events, 0);
      return [], 0, [], [EmptyArray];
    }
    requested := AccountIds(accounts);
    assert forall j :: 0 <= j < |events| ==> events[j].index < |accounts|;
    // The counter and the result object the settle callbacks share.
    var i := 0;
    var results: map<string, Listing<T>> := map[];
    logged, sent := [], [];
    for k := 0 to |events|
      invariant i == k
      invariant results == Collected(accounts, events[..k])
      invariant logged == FailedIds(accounts, events[..k])
      invariant sent == SentSoFar(accounts, events, k)
    {
      var e := events[k];
      SettleStep(accounts, events, k);
      if Succeeded(e.reply) {
        // the fulfilment callback
        i := i + 1;
        results := results[accounts[e.index].accountNumber := e.reply.body];
        if i == count {
          sent := sent + [Entries(results)];
        }
      } else {
        // the rejection callback: count and log the account id
        i := i + 1;
        logged := logged + [accounts[e.index].accountId];
      }
    }
    assert events[..|events|] == events;
    settled := i;
  }

  /** What has been sent after the first `k` settlements. */
  function SentSoFar<T>(accounts: seq<Account>, events: seq<Settlement<T>>, k: nat): seq<Emission<T>>
    requires k <= |events|
    requires forall j :: 0 <= j < |events| ==> events[j].index < |accounts|
  {
    var n := |accounts|;
    if 0 < n <= k && Succeeded(events[n - 1].reply) then [Entries(Collected(accounts, events[..n]))] else []
  }

  /** One more settlement, as the handlers see it: the result object, the
      log and what has been sent. */
  lemma SettleStep<T>(accounts: seq<Account>, events: seq<Settlement<T>>, k: nat)
    requires k < |events|
    requires forall j :: 0 <= j < |events| ==> events[j].index < |accounts|
    ensures var e := events[k];
            var key := accounts[e.index].accountNumber;
            Collected(accounts, events[..k + 1]) ==
              if Succeeded(e.reply) then Collected(accounts, events[..k])[key := e.reply.body]
              else Collected(accounts, events[..k])
    ensures FailedIds(accounts, events[..k + 1]) ==
              if Succeeded(events[k].reply) then FailedIds(accounts, events[..k])
              else FailedIds(accounts, events[..k]) + [accounts[events[k].index].accountId]
    ensures SentSoFar(accounts, events, k + 1) ==
              SentSoFar(accounts, events, k) +
              if Succeeded(events[k].reply) && k + 1 == |accounts|
              then [Entries(Collected(accounts, events[..k + 1]))] else []
  {
    CollectedStep(accounts, events, k);
    FailedStep(accounts, events, k);
  }

  lemma CollectedStep<T>(accounts: seq<Account>, events: seq<Settlement<T>>, k: nat)
    requires k < |events|
    requires forall j :: 0 <= j < |events| ==> events[j].index < |accounts|
    ensures var e := events[k];
            var key := accounts[e.index].accountNumber;
            Collected(accounts, events[..k + 1]) ==
              if Succeeded(e.reply) then Collected(accounts, events[..k])[key := e.reply.body]
              else Collected(accounts, events[..k])
  {
    assert events[..k + 1][..k] == events[..k];
  }

  lemma FailedStep<T>(accounts: seq<Account>, events: seq<Settlement<T>>, k: nat)
    requires k < |events|
    requires forall j :: 0 <= j < |events| ==> events[j].index < |accounts|
    ensures FailedIds(accounts, events[..k + 1]) ==
              if Succeeded(events[k].reply) then FailedIds(accounts, events[..k])
              else FailedIds(accounts, events[..k]) + [accounts[events[k].index].accountId]
  {
    assert events[..k + 1][..k] == events[..k];
  }

  // ---------------------------------------------------------------------------
  // Properties of the fan-in

  function IndexSet<T>(events: seq<Settlement<T>>): set<nat>
  {
    set k | 0 <= k < |events| :: events[k].index
  }

  /** The indices below `n`. */
  function Below(n: nat): set<nat>
  {
    if n == 0 then {} else Below(n - 1) + {n - 1}
  }

  lemma {:induction false} BelowSize(n: nat)
    ensures |Below(n)| == n
    ensures forall x: nat :: x in Below(n) <==> x < n
  {
    if n > 0 {
      BelowSize(n - 1);
    }
  }

  lemma {:induction false} IndexSetSize<T>(events: seq<Settlement<T>>)
    requires forall j, k :: 0 <= j < k < |events| ==> events[j].index != events[k].index
    ensures |IndexSet(events)| == |events|
  {
    if events != [] {
      var init := events[..|events| - 1];
      IndexSetSize(init);
      assert IndexSet(events) == IndexSet(init) + {events[|events| - 1].index};
    }
  }

  /** Since each request settles at most once, no more settlements happen
      than requests were made. */
  lemma SettlementsBounded<T>(events: seq<Settlement<T>>, n: nat)
    requires ValidSettlements(events, n)
    ensures |events| <= n
  {
    IndexSetSize(events);
    BelowSize(n);
    var s, b := IndexSet(events), Below(n);
    assert s <= b;
    assert b == s + (b - s);
  }

  /** The result object is sent at most once, and exactly when every request
      has settled and the last one to settle was fulfilled. */
  lemma SentIffLastFulfilled<T>(enabled: bool, bankAccounts: Payload<Listing<Account>>, events: seq<Settlement<T>>)
    requires RequestsMade(enabled, bankAccounts)
    requires ValidSettlements(events, RequestCount(enabled, bankAccounts))
    ensures |Sent(enabled, bankAccounts, events)| <= 1
    ensures var n := AccountCount(bankAccounts);
            Sent(enabled, bankAccounts, events) != [] <==>
              0 < n == |events| && Succeeded(events[|events| - 1].reply)
    ensures Sent(enabled, bankAccounts, events) != [] ==>
              Sent(enabled, bankAccounts, events) == [Entries(Collected(Accounts(bankAccounts), events))]
  {
    SettlementsBounded(events, AccountCount(bankAccounts));
    assert events[..|events|] == events;
  }

  /** When the option is off or `items` is absent, `[]` is sent at once and
      nothing is requested. */
  lemma ShortcutSendsEmptyArray<T>(enabled: bool, bankAccounts: Payload<Listing<Account>>, events: seq<Settlement<T>>)
    requires !RequestsMade(enabled, bankAccounts)
    requires ValidSettlements(events, RequestCount(enabled, bankAccounts))
    ensures events == []
    ensures Sent(enabled, bankAccounts, events) == [EmptyArray]
  {
    SettlementsBounded(events, 0);
  }

  /** The result object has an entry for exactly the accounts whose request
      was fulfilled, under their account numbers. */
  lemma {:induction false} CollectedKeys<T>(accounts: seq<Account>, events: seq<Settlement<T>>)
    requires forall k :: 0 <= k < |events| ==> events[k].index < |accounts|
    ensures Collected(accounts, events).Keys ==
            set k | 0 <= k < |events| && Succeeded(events[k].reply) :: accounts[events[k].index].accountNumber
  {
    if events != [] {
      var init := events[..|events| - 1];
      CollectedKeys(accounts, init);
      var last := events[|events| - 1];
      var keys := set k | 0 <= k < |events| && Succeeded(events[k].reply) :: accounts[events[k].index].accountNumber;
      var initKeys := set k | 0 <= k < |init| && Succeeded(init[k].reply) :: accounts[init[k].index].accountNumber;
      if Succeeded(last.reply) {
        assert keys == initKeys + {accounts[last.index].accountNumber};
      } else {
        assert keys == initKeys;
      }
    }
  }

  /** With distinct account numbers, each fulfilled request's body is the
      entry under its account's number, whatever the settlement order. */
  lemma {:induction false} CollectedValue<T>(accounts: seq<Account>, events: seq<Settlement<T>>, k: nat)
    requires ValidSettlements(events, |accounts|)
    requires forall a, b :: 0 <= a < b < |accounts| ==> accounts[a].accountNumber != accounts[b].accountNumber
    requires k < |events| && Succeeded(events[k].reply)
    ensures accounts[events[k].index].accountNumber in Collected(accounts, events)
    ensures Collected(accounts, events)[accounts[events[k].index].accountNumber] == events[k].reply.body
  {
    var init := events[..|events| - 1];
    var last := events[|events| - 1];
    if k == |events| - 1 {
    } else {
      assert ValidSettlements(init, |accounts|);
      assert init[k] == events[k];
      CollectedValue(accounts, init, k);
      assert last.index != events[k].index;
    }
  }

  // ---------------------------------------------------------------------------
  // As written against as intended

  /** The completion is lost when the last request to settle fails: every
      request settled, and nothing is sent. */
  lemma LastFailureSendsNothing<T>(enabled: bool, bankAccounts: Payload<Listing<Account>>, events: seq<Settlement<T>>)
    requires RequestsMade(enabled, bankAccounts)
    requires ValidSettlements(events, RequestCount(enabled, bankAccounts))
    requires |events| == AccountCount(bankAccounts) > 0
    requires !Succeeded(events[|events| - 1].reply)
    ensures Sent(enabled, bankAccounts, events) == []
  {
  }

  /** An account list with `items: []` and the option on: no request is
      made and nothing is ever sent, so the widget waits forever. */
  lemma EmptyItemsSendNothing<T>(enabled: bool)
    requires enabled
    ensures Sent<T>(enabled, Body(Listing(Some([]))), []) == []
  {
  }

  /** The intended fan-in: `[]` when there is nothing to request, and the
      result object as soon as every request has settled, fulfilled or
      not. */
  function SentAsIntended<T>(enabled: bool, bankAccounts: Payload<Listing<Account>>, events: seq<Settlement<T>>): seq<Emission<T>>
    requires ValidSettlements(events, RequestCount(enabled, bankAccounts))
  {
    var n := AccountCount(bankAccounts);
    if !RequestsMade(enabled, bankAccounts) || n == 0 then [EmptyArray]
    else if n <= |events| then [Entries(Collected(Accounts(bankAccounts), events[..n]))]
    else []
  }

  /** What the intended fan-in has sent after the first `k` settlements. */
  function IntendedSoFar<T>(accounts: seq<Account>, events: seq<Settlement<T>>, k: nat): seq<Emission<T>>
    requires k <= |events|
    requires forall j :: 0 <= j < |events| ==> events[j].index < |accounts|
  {
    var n := |accounts|;
    if 0 < n <= k then [Entries(Collected(accounts, events[..n]))] else []
  }

  /** The handler with both callbacks checking the counter, and `[]` sent at
      once when there is no account to ask about. */
  method HandleFanInAsIntended<T>(enabled: bool, bankAccounts: Payload<Listing<Account>>, events: seq<Settlement<T>>)
    returns (settled: nat, logged: seq<string>, sent: seq<Emission<T>>)
    requires ValidSettlements(events, RequestCount(enabled, bankAccounts))
    ensures settled == |events|
    ensures logged == FailedIds(Accounts(bankAccounts), events)
    ensures sent == SentAsIntended(enabled, bankAccounts, events)
  {
    var accounts := Accounts(bankAccounts);
    var count := AccountCount(bankAccounts);
    if !RequestsMade(enabled, bankAccounts) || count == 0 {
      SettlementsBounded(events, RequestCount(enabled, bankAccounts));
      return 0, [], [EmptyArray];
    }
    assert forall j :: 0 <= j < |events| ==> events[j].index < |accounts|;
    var i := 0;
    var results: map<string, Listing<T>> := map[];
    logged, sent := [], [];
    for k := 0 to |events|
      invariant i == k
      invariant results == Collected(accounts, events[..k])
      invariant logged == FailedIds(accounts, events[..k])
      invariant sent == IntendedSoFar(accounts, events, k)
    {
      var e := events[k];
      CollectedStep(accounts, events, k);
      FailedStep(accounts, events, k);
      i := i + 1;
      if Succeeded(e.reply) {
        results := results[accounts[e.index].accountNumber := e.reply.body];
      } else {
        logged := logged + [accounts[e.index].accountId];
      }
      if i == count {
        sent := sent + [Entries(results)];
      }
    }
    assert events[..|events|] == events;
    settled := i;
  }

  /** Once every request has settled, the intended fan-in has sent exactly
      one notification, holding the fulfilled accounts and no others. */
  lemma AsIntendedCompletesOnce<T>(enabled: bool, bankAccounts: Payload<Listing<Account>>, events: seq<Settlement<T>>)
    requires ValidSettlements(events, RequestCount(enabled, bankAccounts))
    requires |events| == RequestCount(enabled, bankAccounts)
    ensures |SentAsIntended(enabled, bankAccounts, events)| == 1
    ensures SentAsIntended(enabled, bankAccounts, events)[0].Entries? ==>
              SentAsIntended(enabled, bankAccounts, events)[0].entries.Keys ==
                set k | 0 <= k < |events| && Succeeded(events[k].reply) :: Accounts(bankAccounts)[events[k].index].accountNumber
  {
    if RequestsMade(enabled, bankAccounts) && AccountCount(bankAccounts) > 0 {
      assert events[..|events|] == events;
      CollectedKeys(Accounts(bankAccounts), events);
    }
  }

  /** The intended fan-in differs from the code only where the code loses the
      completion: when the last settlement is fulfilled they agree. */
  lemma AsIntendedAgreesOnFulfilledLast<T>(enabled: bool, bankAccounts: Payload<Listing<Account>>, events: seq<Settlement<T>>)
    requires RequestsMade(enabled, bankAccounts)
    requires ValidSettlements(events, RequestCount(enabled, bankAccounts))
    requires |events| == AccountCount(bankAccounts) > 0
    requires Succeeded(events[|events| - 1].reply)
    ensures SentAsIntended(enabled, bankAccounts, events) == Sent(enabled, bankAccounts, events)
  {
  }
}
