/** The ledger step of the billing API: `create_transaction_interaction`
    resolves the cost of a billed event, appends a transaction whose credit
    amount is the negated cost, debits the account by the cost, re-reads the
    account and, when low-credit notification is enabled, checks whether a
    notification level was crossed. The whole step runs as one database
    transaction: any error rolls every write back. */
module Ledger {

  import opened Options
  import opened NotificationLevels
  import opened LowCredit
  import opened CostRules

  type AccountNumber = string

  /** A row of the account table. */
  datatype Account = Account(creditBalance: real, lastTopupBalance: Option<real>)

  /** A row of the transaction table (its identity and timestamps, assigned
      by the database, are left out). */
  datatype Transaction = Transaction(
    accountNumber: AccountNumber,
    messageId: string,
    transactionType: Option<string>,
    tagPoolName: string,
    tagName: string,
    provider: Option<string>,
    messageDirection: string,
    messageCost: real,
    storageCost: real,
    sessionCreated: bool,
    sessionCost: real,
    markupPercent: real,
    messageCredits: real,
    storageCredits: real,
    sessionCredits: real,
    creditFactor: real,
    creditAmount: real,
    status: string)

  /** The credit calculations of `MessageCost`, whose formulas are not part of
      this model: `creditCost(messageCost, storageCost, markupPercent,
      sessionCost, sessionCreated)` and the three per-component credits. */
  datatype MessageCost = MessageCost(
    creditCost: (real, real, real, real, bool) -> real,
    messageCreditCost: (real, real) -> real,
    storageCreditCost: (real, real) -> real,
    sessionCreditCost: (real, real) -> real)

  /** Charging a message never credits an account. */
  ghost predicate NonNegativeCreditCost(costs: MessageCost) {
    forall m, s, k, c, b :: costs.creditCost(m, s, k, c, b) >= 0.0
  }

  /** The settings the step reads: `ENABLE_LOW_CREDIT_NOTIFICATION`,
      `CREDIT_CONVERSION_FACTOR` and the cost calculations. */
  datatype Settings = Settings(enableLowCreditNotification: bool, creditConversionFactor: real, costs: MessageCost)

  /** The arguments of one billed event. */
  datatype BillingEvent = BillingEvent(
    accountNumber: AccountNumber,
    messageId: string,
    tagPoolName: string,
    tagName: string,
    provider: Option<string>,
    messageDirection: string,
    sessionCreated: bool,
    transactionType: Option<string>)

  /** The request handed to the asynchronous low-credit notification task. */
  datatype Notification = Notification(accountNumber: AccountNumber, level: real, creditBalance: real)

  /** Why a step fails: the first two are the source's `BillingError`s, the
      last is the `TypeError` of dividing an undefined level by 100. */
  datatype StepError =
    | NoCostRule(messageDirection: string, accountNumber: AccountNumber, tagPoolName: string)
    | AccountNotFound(accountNumber: AccountNumber, messageDirection: string, tagPoolName: string)
    | UndefinedNotificationLevel

  datatype Outcome =
    | Recorded(transaction: Transaction, notification: Option<Notification>)
    | Failed(error: StepError)

  /** The two tables the step writes. */
  datatype Tables = Tables(accounts: map<AccountNumber, Account>, transactions: seq<Transaction>)

  /** The sum of the signed credit amounts the ledger holds for one account. */
  function Credits(ledger: seq<Transaction>, account: AccountNumber): real {
    if ledger == [] then 0.0
    else
      var last := ledger[|ledger| - 1];
      Credits(ledger[..|ledger| - 1], account) + (if last.accountNumber == account then last.creditAmount else 0.0)
  }

  /** Appending a transaction adds its amount to its own account's sum only. */
  lemma CreditsAppend(ledger: seq<Transaction>, t: Transaction, account: AccountNumber)
    ensures Credits(ledger + [t], account) ==
      Credits(ledger, account) + (if t.accountNumber == account then t.creditAmount else 0.0)
  {
    assert (ledger + [t])[..|ledger|] == ledger;
  }

  /** The ledger explains the balances: every balance is its opening balance
      plus the signed amounts of its transactions, and every transaction
      belongs to a known account. */
  ghost predicate Conserved(openingBalances: map<AccountNumber, real>, tables: Tables) {
    && tables.accounts.Keys == openingBalances.Keys
    && (forall a :: a in tables.accounts ==>
          tables.accounts[a].creditBalance == openingBalances[a] + Credits(tables.transactions, a))
    && (forall i :: 0 <= i < |tables.transactions| ==> tables.transactions[i].accountNumber in tables.accounts)
  }

  /** The credit cost `get_cost` attaches to a resolved rule. */
  function CreditCost(costs: MessageCost, rule: CostRule, sessionCreated: bool): real {
    costs.creditCost(rule.messageCost, rule.storageCost, rule.markupPercent, rule.sessionCost, sessionCreated)
  }

  /** The row the step inserts for a resolved rule and its cost. The session
      credits are computed from the rule's session cost whether or not a
      session was created, as the source does. */
  function NewTransaction(rule: CostRule, settings: Settings, cost: real, e: BillingEvent): Transaction {
    var costs := settings.costs;
    Transaction(
      e.accountNumber, e.messageId, e.transactionType, e.tagPoolName, e.tagName, e.provider,
      e.messageDirection, rule.messageCost, rule.storageCost, e.sessionCreated, rule.sessionCost,
      rule.markupPercent,
      costs.messageCreditCost(rule.messageCost, rule.markupPercent),
      costs.storageCreditCost(rule.storageCost, rule.markupPercent),
      costs.sessionCreditCost(rule.sessionCost, rule.markupPercent),
      settings.creditConversionFactor, -cost, "Completed")
  }

  /** The effect of one committed-or-rolled-back step on the tables, and its
      outcome: the specification `create_transaction_interaction` is proved
      against. */
  function Interaction(rules: seq<CostRule>, settings: Settings, mapping: seq<int>,
                       tables: Tables, e: BillingEvent): (Outcome, Tables)
    requires Dense(mapping)
  {
    match GetCost(rules, e.accountNumber, e.tagPoolName, e.provider, e.messageDirection)
    case None => (Failed(NoCostRule(e.messageDirection, e.accountNumber, e.tagPoolName)), tables)
    case Some(rule) => Charge(rule, settings, mapping, tables, e)
  }

  /** The step once a rule is resolved: debit the account by the rule's cost
      and check the thresholds, or fail and leave the tables as they were. */
  function Charge(rule: CostRule, settings: Settings, mapping: seq<int>,
                  tables: Tables, e: BillingEvent): (Outcome, Tables)
    requires Dense(mapping)
  {
    var cost := CreditCost(settings.costs, rule, e.sessionCreated);
    if e.accountNumber !in tables.accounts then
      (Failed(AccountNotFound(e.accountNumber, e.messageDirection, e.tagPoolName)), tables)
    else
      var account := tables.accounts[e.accountNumber];
      var balance := account.creditBalance - cost;
      var check :=
        if settings.enableLowCreditNotification
        then CheckAllLowCreditThresholds(mapping, balance, cost, account.lastTopupBalance)
        else NoAlert;
      if check.UndefinedLevelError? then (Failed(UndefinedNotificationLevel), tables)
      else
        var tx := NewTransaction(rule, settings, cost, e);
        var notification := if check.Alert? then Some(Notification(e.accountNumber, check.fraction, balance)) else None;
        (Recorded(tx, notification),
         Tables(tables.accounts[e.accountNumber := account.(creditBalance := balance)], tables.transactions + [tx]))
  }

  /** Errors: no matching rule gives the cost error and an absent account
      (with a rule) the account error; every error leaves both tables as they
      were. */
  lemma InteractionErrors(rules: seq<CostRule>, settings: Settings, mapping: seq<int>, tables: Tables, e: BillingEvent)
    requires Dense(mapping)
    ensures
      var (outcome, after) := Interaction(rules, settings, mapping, tables, e);
      var matching := exists i :: 0 <= i < |rules| && Matches(rules[i], e.accountNumber, e.tagPoolName, e.provider, e.messageDirection);
      && (outcome.Failed? ==> after == tables)
      && (outcome == Failed(NoCostRule(e.messageDirection, e.accountNumber, e.tagPoolName)) <==> !matching)
      && (outcome == Failed(AccountNotFound(e.accountNumber, e.messageDirection, e.tagPoolName)) <==>
            matching && e.accountNumber !in tables.accounts)
  {
  }

  /** Success: exactly one transaction is appended, for the named account,
      with credit amount the negated cost of the selected rule; that account
      is debited by exactly the cost, its top-up untouched; every other
      account is unchanged; a notification is produced only when enabled. */
  lemma InteractionDebit(rules: seq<CostRule>, settings: Settings, mapping: seq<int>, tables: Tables, e: BillingEvent)
    requires Dense(mapping)
    ensures
      var (outcome, after) := Interaction(rules, settings, mapping, tables, e);
      var rule := GetCost(rules, e.accountNumber, e.tagPoolName, e.provider, e.messageDirection);
      outcome.Recorded? ==>
        && rule.Some?
        && var cost := CreditCost(settings.costs, rule.value, e.sessionCreated);
        && e.accountNumber in tables.accounts
        && |after.transactions| == |tables.transactions| + 1
        && after.transactions[..|tables.transactions|] == tables.transactions
        && after.transactions[|tables.transactions|] == outcome.transaction
        && outcome.transaction.accountNumber == e.accountNumber
        && outcome.transaction.creditAmount == -cost
        && after.accounts.Keys == tables.accounts.Keys
        && after.accounts[e.accountNumber].creditBalance == tables.accounts[e.accountNumber].creditBalance - cost
        && after.accounts[e.accountNumber].lastTopupBalance == tables.accounts[e.accountNumber].lastTopupBalance
        && (forall a :: a in tables.accounts && a != e.accountNumber ==> after.accounts[a] == tables.accounts[a])
        && (outcome.notification.Some? ==> settings.enableLowCreditNotification)
  {
    var (outcome, after) := Interaction(rules, settings, mapping, tables, e);
    if outcome.Recorded? {
      assert after.transactions == tables.transactions + [outcome.transaction];
    }
  }

  /** The check in the step is run with the cost as a positive amount, so the
      balance before the debit is the one it compares with; an alert is
      therefore raised exactly when the debit takes the balance across a
      configured level (for a positive top-up), and the notification carries
      the new balance. */
  lemma InteractionNotification(levels: seq<int>, rules: seq<CostRule>, settings: Settings, mapping: seq<int>,
                                tables: Tables, e: BillingEvent)
    requires StrictlyAscending(levels) && IsNotificationMapping(levels, mapping)
    requires Dense(mapping) && NonNegativeCreditCost(settings.costs)
    ensures
      var (outcome, after) := Interaction(rules, settings, mapping, tables, e);
      outcome.Recorded? && outcome.notification.Some? ==>
        var old_ := tables.accounts[e.accountNumber];
        var new_ := after.accounts[e.accountNumber];
        && new_.creditBalance == outcome.notification.value.creditBalance
        && old_.lastTopupBalance.Some?
        && (old_.lastTopupBalance.value > 0.0 ==>
              exists l :: l in levels && outcome.notification.value.level * 100.0 == l as real &&
                Percent(new_.creditBalance, old_.lastTopupBalance.value) <= l as real <
                Percent(old_.creditBalance, old_.lastTopupBalance.value))
  {
    var rule := GetCost(rules, e.accountNumber, e.tagPoolName, e.provider, e.messageDirection);
    if rule.Some? {
      ChargeNotification(levels, rule.value, settings, mapping, tables, e);
    }
  }

  /** `InteractionNotification` once the rule is resolved. */
  lemma ChargeNotification(levels: seq<int>, rule: CostRule, settings: Settings, mapping: seq<int>,
                           tables: Tables, e: BillingEvent)
    requires StrictlyAscending(levels) && IsNotificationMapping(levels, mapping)
    requires Dense(mapping) && NonNegativeCreditCost(settings.costs)
    ensures
      var (outcome, after) := Charge(rule, settings, mapping, tables, e);
      outcome.Recorded? && outcome.notification.Some? ==>
        var old_ := tables.accounts[e.accountNumber];
        var new_ := after.accounts[e.accountNumber];
        && new_.creditBalance == outcome.notification.value.creditBalance
        && old_.lastTopupBalance.Some?
        && (old_.lastTopupBalance.value > 0.0 ==>
              exists l :: l in levels && outcome.notification.value.level * 100.0 == l as real &&
                Percent(new_.creditBalance, old_.lastTopupBalance.value) <= l as real <
                Percent(old_.creditBalance, old_.lastTopupBalance.value))
  {
    var (outcome, after) := Charge(rule, settings, mapping, tables, e);
    if outcome.Recorded? && outcome.notification.Some? {
      var cost := CreditCost(settings.costs, rule, e.sessionCreated);
      var account := tables.accounts[e.accountNumber];
      var balance := account.creditBalance - cost;
      var check := CheckAllLowCreditThresholds(mapping, balance, cost, account.lastTopupBalance);
      assert settings.enableLowCreditNotification && check.Alert?;
      assert outcome.notification.value == Notification(e.accountNumber, check.fraction, balance);
      assert after.accounts[e.accountNumber].creditBalance == balance;
      if account.lastTopupBalance.Some? && account.lastTopupBalance.value > 0.0 {
        var t := account.lastTopupBalance.value;
        var l := DebitAlertIsCrossing(levels, mapping, balance, cost, t);
        ShiftPercent(balance, cost, account.creditBalance, t, l as real);
      }
    }
  }

  /** The converse of `InteractionNotification`: when notification is
      enabled and the top-up is positive, a debit that takes the balance
      across a configured level is notified. */
  lemma InteractionNotifiesOnCrossing(levels: seq<int>, rules: seq<CostRule>, settings: Settings, mapping: seq<int>,
                                      tables: Tables, e: BillingEvent)
    requires StrictlyAscending(levels) && IsNotificationMapping(levels, mapping)
    requires Dense(mapping) && NonNegativeCreditCost(settings.costs)
    ensures
      var (outcome, after) := Interaction(rules, settings, mapping, tables, e);
      outcome.Recorded? && settings.enableLowCreditNotification ==>
        var old_ := tables.accounts[e.accountNumber];
        var new_ := after.accounts[e.accountNumber];
        old_.lastTopupBalance.Some? && old_.lastTopupBalance.value > 0.0 &&
        (exists l :: l in levels &&
           Percent(new_.creditBalance, old_.lastTopupBalance.value) <= l as real <
           Percent(old_.creditBalance, old_.lastTopupBalance.value)) ==>
          outcome.notification.Some?
  {
    var rule := GetCost(rules, e.accountNumber, e.tagPoolName, e.provider, e.messageDirection);
    if rule.Some? {
      ChargeNotifiesOnCrossing(levels, rule.value, settings, mapping, tables, e);
    }
  }

  /** `InteractionNotifiesOnCrossing` once the rule is resolved. */
  lemma ChargeNotifiesOnCrossing(levels: seq<int>, rule: CostRule, settings: Settings, mapping: seq<int>,
                                 tables: Tables, e: BillingEvent)
    requires StrictlyAscending(levels) && IsNotificationMapping(levels, mapping)
    requires Dense(mapping) && NonNegativeCreditCost(settings.costs)
    ensures
      var (outcome, after) := Charge(rule, settings, mapping, tables, e);
      outcome.Recorded? && settings.enableLowCreditNotification ==>
        var old_ := tables.accounts[e.accountNumber];
        var new_ := after.accounts[e.accountNumber];
        old_.lastTopupBalance.Some? && old_.lastTopupBalance.value > 0.0 &&
        (exists l :: l in levels &&
           Percent(new_.creditBalance, old_.lastTopupBalance.value) <= l as real <
           Percent(old_.creditBalance, old_.lastTopupBalance.value)) ==>
          outcome.notification.Some?
  {
    var (outcome, after) := Charge(rule, settings, mapping, tables, e);
    if outcome.Recorded? && settings.enableLowCreditNotification && e.accountNumber in tables.accounts {
      var cost := CreditCost(settings.costs, rule, e.sessionCreated);
      var account := tables.accounts[e.accountNumber];
      var balance := account.creditBalance - cost;
      assert after.accounts[e.accountNumber].creditBalance == balance;
      if account.lastTopupBalance.Some? && account.lastTopupBalance.value > 0.0 {
        var t := account.lastTopupBalance.value;
        CrossingAlerts(levels, mapping, balance, cost, account.creditBalance, t);
      }
    }
  }

  /** `AlertIffLevelCrossed` for the check as the step calls it: when it
      alerts, `l` is the configured level the debit crossed. */
  lemma DebitAlertIsCrossing(levels: seq<int>, mapping: seq<int>, after: real, cost: real, t: real) returns (l: int)
    requires StrictlyAscending(levels) && IsNotificationMapping(levels, mapping)
    requires t > 0.0 && cost >= 0.0
    ensures Dense(mapping)
    ensures CheckAllLowCreditThresholds(mapping, after, cost, Some(t)).Alert? ==>
      && l in levels
      && CheckAllLowCreditThresholds(mapping, after, cost, Some(t)).fraction * 100.0 == l as real
      && Percent(after, t) <= l as real < Percent(after + cost, t)
  {
    AlertIffLevelCrossed(levels, mapping, after, cost, t);
    if CheckAllLowCreditThresholds(mapping, after, cost, Some(t)).Alert? {
      l :| l in levels && CheckAllLowCreditThresholds(mapping, after, cost, Some(t)).fraction * 100.0 == l as real &&
        Percent(after, t) <= l as real < Percent(after + cost, t);
    } else {
      l := 0;
    }
  }

  /** `AlertIffLevelCrossed` with the balance before the debit named: a
      crossed level makes the check alert. */
  lemma CrossingAlerts(levels: seq<int>, mapping: seq<int>, after: real, cost: real, before: real, t: real)
    requires StrictlyAscending(levels) && IsNotificationMapping(levels, mapping)
    requires t > 0.0 && cost >= 0.0 && after == before - cost
    ensures Dense(mapping)
    ensures (exists l :: l in levels && Percent(after, t) <= l as real < Percent(before, t)) ==>
      CheckAllLowCreditThresholds(mapping, after, cost, Some(t)).Alert?
  {
    AlertIffLevelCrossed(levels, mapping, after, cost, t);
    PercentOfSum(after, cost, before, t);
  }

  /** The percentage of the balance before a debit, written as the balance
      after it plus the cost. */
  lemma PercentOfSum(after: real, cost: real, before: real, t: real)
    requires t != 0.0 && after == before - cost
    ensures Percent(after + cost, t) == Percent(before, t)
  {
  }

  /** Restates a percentage range of `after + cost` for `before`. */
  lemma ShiftPercent(after: real, cost: real, before: real, t: real, x: real)
    requires t != 0.0 && after == before - cost
    requires Percent(after, t) <= x < Percent(after + cost, t)
    ensures Percent(before - cost, t) <= x < Percent(before, t)
  {
  }

  /** With costs never negative, the undefined-level error needs a negative
      top-up on record: a zero or absent top-up reports nothing, and a
      positive one never leaves the tracked range on a debit. */
  lemma InteractionUndefinedLevel(levels: seq<int>, rules: seq<CostRule>, settings: Settings, mapping: seq<int>,
                                  tables: Tables, e: BillingEvent)
    requires StrictlyAscending(levels) && IsNotificationMapping(levels, mapping)
    requires Dense(mapping) && NonNegativeCreditCost(settings.costs)
    ensures
      var (outcome, after) := Interaction(rules, settings, mapping, tables, e);
      outcome == Failed(UndefinedNotificationLevel) ==>
        && settings.enableLowCreditNotification
        && e.accountNumber in tables.accounts
        && tables.accounts[e.accountNumber].lastTopupBalance.Some?
        && tables.accounts[e.accountNumber].lastTopupBalance.value < 0.0
  {
    var rule := GetCost(rules, e.accountNumber, e.tagPoolName, e.provider, e.messageDirection);
    if rule.Some? && e.accountNumber in tables.accounts {
      var cost := CreditCost(settings.costs, rule.value, e.sessionCreated);
      var account := tables.accounts[e.accountNumber];
      UndefinedLevelNeedsNegativeTopup(levels, mapping, account.creditBalance - cost, cost, account.lastTopupBalance);
    }
  }

  /** Every step, committed or rolled back, keeps the ledger explaining the
      balances. */
  lemma InteractionConserves(openingBalances: map<AccountNumber, real>, rules: seq<CostRule>, settings: Settings,
                             mapping: seq<int>, tables: Tables, e: BillingEvent)
    requires Dense(mapping) && Conserved(openingBalances, tables)
    ensures Conserved(openingBalances, Interaction(rules, settings, mapping, tables, e).1)
  {
    var (outcome, after) := Interaction(rules, settings, mapping, tables, e);
    if outcome.Recorded? {
      assert after.transactions == tables.transactions + [outcome.transaction];
      forall a | a in after.accounts
        ensures after.accounts[a].creditBalance == openingBalances[a] + Credits(after.transactions, a)
      {
        CreditsAppend(tables.transactions, outcome.transaction, a);
      }
    }
  }

  /** The billing database: the account table, the append-only transaction
      table and the read-only cost-rule table. */
  class BillingStore {
    var accounts: map<AccountNumber, Account>
    var transactions: seq<Transaction>
    const costRules: seq<CostRule>
    /** The balances the accounts had when the ledger was empty. */
    ghost var openingBalances: map<AccountNumber, real>

    ghost predicate Valid()
      reads this
    {
      Conserved(openingBalances, Tables(accounts, transactions))
    }

    constructor (accounts: map<AccountNumber, Account>, costRules: seq<CostRule>)
      ensures Valid()
      ensures this.accounts == accounts && transactions == [] && this.costRules == costRules
      ensures openingBalances == map a | a in accounts :: accounts[a].creditBalance
    {
      this.accounts := accounts;
      this.transactions := [];
      this.costRules := costRules;
      this.openingBalances := map a | a in accounts :: accounts[a].creditBalance;
    }
  }

  /** The transactions resource: its notification mapping, built once from
      the configured percentages, its settings, and the database it works on. */
  class TransactionResource {
    const store: BillingStore
    const notificationMapping: seq<int>
    const settings: Settings
    /** The configured percentages in ascending order. */
    ghost const levels: seq<int>

    ghost predicate Valid()
      reads this, store
    {
      && store.Valid()
      && StrictlyAscending(levels)
      && IsNotificationMapping(levels, notificationMapping)
      && Dense(notificationMapping)
      && NonNegativeCreditCost(settings.costs)
    }

    constructor (store: BillingStore, lowCreditNotificationPercentages: seq<int>, settings: Settings)
      requires store.Valid() && Distinct(lowCreditNotificationPercentages) && NonNegativeCreditCost(settings.costs)
      ensures Valid()
      ensures this.store == store && this.settings == settings
      ensures levels == SortLevels(lowCreditNotificationPercentages)
    {
      var mapping := CreateNotificationMapping(lowCreditNotificationPercentages);
      LookupIsStepFunction(SortLevels(lowCreditNotificationPercentages), mapping, 0);
      this.store := store;
      this.notificationMapping := mapping;
      this.settings := settings;
      this.levels := SortLevels(lowCreditNotificationPercentages);
    }

    /** `create_transaction_interaction`: resolve the cost, insert the
        transaction, debit the account, re-read it and check the thresholds;
        an error after a write restores the tables as the database's
        rollback does. */
    method CreateTransactionInteraction(e: BillingEvent) returns (outcome: Outcome)
      requires Valid()
      modifies store
      ensures Valid()
      ensures (outcome, Tables(store.accounts, store.transactions)) ==
        Interaction(store.costRules, settings, notificationMapping,
                    Tables(old(store.accounts), old(store.transactions)), e)
    {
      ghost var before := Tables(store.accounts, store.transactions);
      InteractionConserves(store.openingBalances, store.costRules, settings, notificationMapping, before, e);
      var result := GetCost(store.costRules, e.accountNumber, e.tagPoolName, e.provider, e.messageDirection);
      if result.None? {
        return Failed(NoCostRule(e.messageDirection, e.accountNumber, e.tagPoolName));
      }
      outcome := ChargeAccount(e, result.value);
    }

    /** The writes and the threshold check once the rule is resolved. */
    method ChargeAccount(e: BillingEvent, rule: CostRule) returns (outcome: Outcome)
      requires Dense(notificationMapping)
      modifies store
      ensures store.openingBalances == old(store.openingBalances)
      ensures (outcome, Tables(store.accounts, store.transactions)) ==
        Charge(rule, settings, notificationMapping, Tables(old(store.accounts), old(store.transactions)), e)
    {
      var creditAmount := CreditCost(settings.costs, rule, e.sessionCreated);
      var transaction := NewTransaction(rule, settings, creditAmount, e);
      var savedAccounts, savedTransactions := store.accounts, store.transactions;

      // The insert of the transaction row.
      store.transactions := store.transactions + [transaction];
      // The debit of the account, when it exists.
      if e.accountNumber in store.accounts {
        var row := store.accounts[e.accountNumber];
        store.accounts := store.accounts[e.accountNumber := row.(creditBalance := row.creditBalance - creditAmount)];
      }
      // The re-read of the account: an absent account aborts the step.
      if e.accountNumber !in store.accounts {
        store.accounts, store.transactions := savedAccounts, savedTransactions;
        return Failed(AccountNotFound(e.accountNumber, e.messageDirection, e.tagPoolName));
      }
      var current := store.accounts[e.accountNumber];
      var notification := None;
      if settings.enableLowCreditNotification {
        var check := CheckAllLowCreditThresholds(
          notificationMapping, current.creditBalance, creditAmount, current.lastTopupBalance);
        if check.UndefinedLevelError? {
          store.accounts, store.transactions := savedAccounts, savedTransactions;
          return Failed(UndefinedNotificationLevel);
        }
        if check.Alert? {
          notification := Some(Notification(e.accountNumber, check.fraction, current.creditBalance));
        }
      }
      outcome := Recorded(transaction, notification);
    }
  }

}
