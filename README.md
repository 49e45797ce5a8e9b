# Billing transactions of the Vumi Go billing API

This project models the transactions resource of the Vumi Go billing API in
Dafny (`TransactionResource` in `go/billing/api.py`). This is the component
that charges a message to an account. It has four jobs:

- It resolves the message-cost rule that applies to a billed event.
- It records a ledger transaction for the negated credit cost.
- It debits the account's credit balance.
- It checks whether the debit took the balance below one of the configured
  low-credit notification levels, each level being a percentage of the
  account's last top-up.

The model also covers the request check that decides whether a POST goes on
to create a transaction.

Files and modules:

- `options.dfy`, module `Options`: an `Option` datatype.
- `notification_levels.dfy`, module `NotificationLevels`. It covers:
  - the sorted notification levels;
  - the step function "smallest configured level at or above p";
  - the loop that tabulates that function into the dense notification
    mapping, as a method proved against the closed form;
  - the lookup `_get_notification_level`.
- `low_credit.dfy`, module `LowCredit`. It covers:
  - `ceil_percent`;
  - `check_all_low_credit_thresholds`;
  - the rule that an alert is raised exactly when a debit crosses a
    configured level;
  - worked examples.
- `cost_rules.dfy`, module `CostRules`: the selection that the `get_cost`
  query performs over the message-cost table. It covers matching with
  wildcards and the `NULLS LAST` specificity order.
- `requests.dfy`, module `Requests`: what `render_POST` does with a request.
  The outcomes are a 400, an exception (500), or a call to
  `create_transaction` with the fields as sent.
- `ledger.dfy`, module `Ledger`. It contains:
  - the account and transaction tables;
  - `Interaction`, the pure specification of one ledger step;
  - lemmas on `Interaction`: errors, the debit, notifications, and
    conservation of credit;
  - the class `BillingStore`, which holds the tables as mutable fields;
  - the class `TransactionResource`. Its constructor builds the notification
    mapping. Its `CreateTransactionInteraction` method performs the insert,
    the update, the re-read and the check in the source's order, restores the
    tables when a later step fails (the database rollback), and is proved
    equal to `Interaction`.

Amounts are `Decimal` in the source and exact `real`s here. Ceiling is
`-((-x).Floor)`.

Two behaviours of the code that the model keeps as written:

- `CrossingExamples`: a debit from 55% to 45% against levels 10, 20 and 50 alerts 0.5, because 55 lies above the highest level and looks up to no level.
- `NewTransaction`: session credits are computed from the rule's session cost whether or not a session was created.

## Model

| member | source | states |
|---|---|---|
| NotificationLevels.SortLevels | go/billing/api.py:103-104 | The configured percentages come out strictly ascending and are a permutation of the input. |
| NotificationLevels.LeastAtOrAbove | go/billing/api.py:95-102 | The reference step function. It returns no level exactly when every level is below p. Otherwise it returns a configured level at or above p that is no larger than any other such level. |
| NotificationLevels.CreateNotificationMapping | go/billing/api.py:95-117 | The loop-built mapping is empty when nothing is configured. Otherwise it has one entry for each percentage from the lowest level to the highest, inclusive. Entry `i - levels[0]` is the smallest configured level at or above `i`. |
| NotificationLevels.GetNotificationLevel | go/billing/api.py:343-361 | The lookup itself. It has no contract of its own; `LookupIsStepFunction` and `LookupCases` state its meaning. |
| NotificationLevels.LookupIsStepFunction | go/billing/api.py:343-361 | Looking any percentage up in a mapping built this way gives exactly the smallest configured level at or above it. |
| NotificationLevels.LookupCases | go/billing/api.py:353-361 | The four cases of the lookup. An empty mapping gives no level. Below the minimum gives the minimum. Above the maximum gives no level. In between gives a configured level at or above the percentage. |
| NotificationLevels.StepMonotone | go/billing/api.py:343-361 | The lookup never decreases. If a higher percentage has a level, a lower one has a level that is no higher. |
| LowCredit.CeilPercent | go/billing/api.py:383-384 | `ceil_percent`. It has no contract of its own; `CeilPercentBounds`, `CeilPercentMonotone` and `CeilPercentAtMost` state its meaning. |
| LowCredit.CeilPercentBounds | go/billing/api.py:383-384 | `ceil_percent` is the least whole percent at or above the exact percentage of the last top-up. |
| LowCredit.CeilPercentMonotone | go/billing/api.py:383-389 | For a positive top-up, the ceiling preserves the order of balances. So the percentage after a debit is at most the one before it. |
| LowCredit.CheckAllLowCreditThresholds | go/billing/api.py:380-381 | A missing or zero last top-up reports nothing, whatever the balances. |
| LowCredit.CompareLevels | go/billing/api.py:386-394 | The comparison of the current and previous levels. It has no contract of its own; `CompareLevelsOnDebit` states its meaning. |
| LowCredit.CompareLevelsOnDebit | go/billing/api.py:386-394 | When the current percentage is at most the previous one: the undefined current level is never divided; an alert is raised exactly when the two levels differ; the alert carries the current level / 100, which is below the previous level. |
| LowCredit.CrossingRule | go/billing/api.py:383-394 | For a debit against a positive top-up, the check compares the level of the balance with the level of balance + amount. It never reaches the undefined-level error. It reports the current level / 100 exactly when the two levels differ. |
| LowCredit.UndefinedLevelNeedsNegativeTopup | go/billing/api.py:380-394 | For a non-negative debit, the `None / 100.0` error can occur only when the last top-up on record is negative. |
| LowCredit.StepChangesIffLevelBetween | go/billing/api.py:343-361 | Between percentages p <= q, the step function changes exactly when some configured level lies in [p, q). The level at p is then below q. |
| LowCredit.CeilPercentAtMost | go/billing/api.py:383-384 | The rounded-up percentage is at most a whole level exactly when the exact percentage is. |
| LowCredit.AlertIffLevelCrossed | go/billing/api.py:383-394 | For a debit against a positive top-up, an alert is raised exactly when some configured level l satisfies after% <= l < before%, both taken as exact percentages of the top-up. The reported fraction is such a level / 100. |
| LowCredit.LevelExamples | go/billing/api.py:343-361 | With levels 10, 20 and 50: 5 and 10 give 10; 15 and 20 give 20; 35 gives 50; 51 gives no level. |
| LowCredit.CrossingLevels | go/billing/api.py:343-361 | With levels 10, 20 and 50: 19 gives 20; 21, 45 and 48 give 50; 55 gives no level. |
| LowCredit.CeilPercentExamples | go/billing/api.py:383-384 | Concrete ceilings, including two against a negative top-up. |
| LowCredit.CrossingExamples | go/billing/api.py:380-394 | Against a top-up of 100: going from 21 to 19 reports 0.2; from 55 to 45 reports 0.5; from 48 to 45 reports nothing; a zero top-up reports nothing. |
| LowCredit.NegativeTopupUndefinedLevel | go/billing/api.py:393-394 | With a negative last top-up, a debit can move the balance from a tracked level to none, and the check then divides the undefined level. |
| CostRules.Matches | go/billing/api.py:163-171 | The WHERE clause. It has no contract of its own; `GetCost` states that the selected rule matches and that no rule is selected exactly when none matches. |
| CostRules.SortsNoLater | go/billing/api.py:173-176 | The ORDER BY clause on matching rows. It has no contract of its own; `GetCost` and `MostSpecificRuleWins` state its meaning. |
| CostRules.GetCost | go/billing/api.py:151-199 | The query returns no rule exactly when no rule matches. Otherwise the selected rule is in the table, matches, and sorts no later than any other matching rule. |
| CostRules.MostSpecificRuleWins | go/billing/api.py:173-177 | Specificity order: a rule naming the account beats one that does not; a rule naming the tag pool beats one that does not; then likewise for the provider. |
| CostRules.SpecificityExample | go/billing/api.py:163-177 | With a global rule and a rule for account "A": "A" is charged by its own rule, "B" by the global one, and a different direction finds no rule. |
| Requests.ParseJson | go/billing/api.py:72-83 | `_parse_json`. It has no contract of its own; the last clause of `RenderPost` states that a request other than a JSON POST is answered 400. |
| Requests.RenderPost | go/billing/api.py:119-145 | A transaction is attempted exactly for a JSON POST whose body is an object with truthy account, message id, tag pool, tag and direction and a present, non-null `session_created`. All eight fields are passed through as sent. An undecodable body, or a truthy body that is not an object, raises. A request that is not a JSON POST gets 400. |
| Requests.OptionalFieldsIrrelevant | go/billing/api.py:127-133 | Changing or removing `provider` or `transaction_type` does not change whether a transaction is attempted. |
| Ledger.NewTransaction | go/billing/api.py:216-279 | The inserted row. It has no contract of its own; `InteractionDebit` states its account and its credit amount, the negated cost. |
| Ledger.Interaction | go/billing/api.py:202-321 | The ledger step as a function of the tables. It has no contract of its own; `InteractionErrors`, `InteractionDebit`, `InteractionNotification`, `InteractionNotifiesOnCrossing`, `InteractionUndefinedLevel` and `InteractionConserves` state its meaning. |
| Ledger.Charge | go/billing/api.py:216-321 | The step once a rule is resolved. It has no contract of its own; `ChargeNotification` and `ChargeNotifiesOnCrossing` state its notification behaviour. |
| Ledger.CreditsAppend | go/billing/api.py:232-281 | Appending a transaction adds its credit amount to its own account's ledger sum only. |
| Ledger.InteractionErrors | go/billing/api.py:208-214 | With no matching rule the step fails with the cost error. With a rule but no account it fails with the account error. Every failure leaves both tables as they were. |
| Ledger.InteractionDebit | go/billing/api.py:231-296 | On success, exactly one transaction is appended. It belongs to the named account and its credit amount is the negated cost of the selected rule. The account's balance drops by exactly that cost, and its top-up is untouched. All other accounts are unchanged. A notification requires the setting to be enabled. |
| Ledger.InteractionNotification | go/billing/api.py:298-319 | A notification carries the new balance, and the account has a top-up on record. For a positive top-up, the notified level is a configured level l with new% <= l < old%. |
| Ledger.ChargeNotification | go/billing/api.py:298-319 | The same statement once a rule is resolved. |
| Ledger.InteractionNotifiesOnCrossing | go/billing/api.py:298-319 | The converse of `InteractionNotification`. On success, with notification enabled and a positive top-up, a debit that takes the balance across a configured level l (new% <= l < old%) is notified. |
| Ledger.ChargeNotifiesOnCrossing | go/billing/api.py:298-319 | The same statement once a rule is resolved. |
| Ledger.CrossingAlerts | go/billing/api.py:317-319 | The check is called with the new balance and the positive cost. A configured level between the new and the old balance makes it alert. |
| Ledger.DebitAlertIsCrossing | go/billing/api.py:317-319 | The check is called with the new balance and the positive cost. When it alerts, it names a configured level that the debit crossed. |
| Ledger.InteractionUndefinedLevel | go/billing/api.py:316-319 | With non-negative costs, the step can fail on the undefined level only when notification is enabled and the account's last top-up is negative. |
| Ledger.InteractionConserves | go/billing/api.py:231-296 | Every step, committed or rolled back, keeps each balance equal to its opening balance plus the signed credit amounts of its transactions, and keeps every transaction tied to a known account. |
| Ledger.TransactionResource.constructor | go/billing/api.py:91-93 | The resource builds its notification mapping once, from the configured percentages, and starts valid. |
| Ledger.TransactionResource.CreateTransactionInteraction | go/billing/api.py:202-321 | The outcome and the new tables are exactly those `Interaction` gives for the old tables. The ledger invariant is preserved. |
| Ledger.TransactionResource.ChargeAccount | go/billing/api.py:216-321 | The insert, the update, the re-read and the threshold check, with a restore of both tables on a later failure. Together they equal `Charge`, the step for a resolved rule. |

## Left out

- The Twisted resource plumbing, response writing, the JSON encoder and decoder, and `create_transaction`'s use of `runInteraction`. These are I/O and framing. A request is modelled as its method, its Content-Type and its decoded body (or none, when the body does not decode).
- SQL execution and transactional isolation. One ledger step is one atomic method on in-memory tables. The rollback is a restore of the tables as they were before the step.
- The Celery notification task. A notification is an output value holding (account, level, balance).
- `MessageCost.calculate_*` (go/billing/models.py is not part of this model). These are uninterpreted functions held in `Settings`. The resource's invariant assumes that the credit cost is never negative.
- The `Decimal(str(level / 100.0))` float round-trip. The reported fraction is the exact rational level / 100.
- The 28-digit `Decimal` context of the percentage division. The division is exact here.
- Duplicate configured percentages. The mapping loop misbehaves with them, so the model requires distinct levels.
- Transaction ids and timestamps, which the database assigns.
- Values of non-string JSON types in the identifier fields. They are passed through as JSON values, and their later use in SQL is not modelled.
- CostRules.GetCost: SQL leaves the order of equally specific rules unspecified. The model takes the first one in table order, and its contract states only that the selected rule is maximal.
- Ledger.TransactionResource.Valid: assumes that the credit-cost function never yields a negative cost, because its formula is not part of this model.
- LowCredit.CeilPercent: the ceiling here is exact. On the Python 2 runtime the source targets, `math.ceil` first converts its `Decimal` argument to a binary float. A percentage just above a whole number can then round down to it. For example, 20.000000000000000001% becomes 20 rather than 21, and the source and this model can then disagree on the level and on whether to alert.
- Ledger.Charge: assumes that handing the notification to the Celery task succeeds. In the source the hand-off happens inside the database transaction and before the commit. A failed hand-off raises there, which rolls back the insert and the debit and answers the request with an error. The model always commits a step that produced a notification.
