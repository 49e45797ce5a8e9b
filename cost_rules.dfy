/** Cost-rule resolution: the query of `get_cost` over the message-cost table.
    A rule may leave its account, tag pool and provider empty (SQL NULL) to
    apply to any; its message direction is always exact. Among the rules that
    apply, the query orders by account, tag pool and provider, NULLS LAST,
    and keeps the first row. */
module CostRules {

  import opened Options

  datatype CostRule = CostRule(
    accountNumber: Option<string>,
    tagPoolName: Option<string>,
    provider: Option<string>,
    messageDirection: string,
    messageCost: real,
    storageCost: real,
    sessionCost: real,
    markupPercent: real)

  /** The WHERE clause. An empty column matches anything. A request without a
      provider matches only rules without one, since `c.provider = NULL` is
      never true in SQL. */
  predicate Matches(rule: CostRule, accountNumber: string, tagPoolName: string,
                    provider: Option<string>, messageDirection: string)
  {
    && (rule.accountNumber.None? || rule.accountNumber == Some(accountNumber))
    && (rule.tagPoolName.None? || rule.tagPoolName == Some(tagPoolName))
    && (rule.provider.None? || (provider.Some? && rule.provider == provider))
    && rule.messageDirection == messageDirection
  }

  /** The ORDER BY clause on matching rows: a rule with an account sorts before
      one without, then likewise for the tag pool, then for the provider.
      (Every non-empty column of a matching rule equals the request's value,
      so only emptiness decides the order.) */
  predicate SortsNoLater(a: CostRule, b: CostRule) {
    if a.accountNumber.Some? != b.accountNumber.Some? then a.accountNumber.Some?
    else if a.tagPoolName.Some? != b.tagPoolName.Some? then a.tagPoolName.Some?
    else a.provider.Some? || b.provider.None?
  }

  /** `get_cost`'s rule selection: no rule when none matches, otherwise a
      matching rule that sorts no later than any other matching rule. Rules
      of equal rank, which SQL leaves unordered, resolve to the earliest in
      table order. */
  function GetCost(rules: seq<CostRule>, accountNumber: string, tagPoolName: string,
                   provider: Option<string>, messageDirection: string): (r: Option<CostRule>)
    ensures r.None? <==>
      forall i :: 0 <= i < |rules| ==> !Matches(rules[i], accountNumber, tagPoolName, provider, messageDirection)
    ensures r.Some? ==> r.value in rules && Matches(r.value, accountNumber, tagPoolName, provider, messageDirection)
    ensures r.Some? ==>
      forall i :: 0 <= i < |rules| && Matches(rules[i], accountNumber, tagPoolName, provider, messageDirection) ==>
        SortsNoLater(r.value, rules[i])
  {
    if rules == [] then None
    else
      var rest := GetCost(rules[1..], accountNumber, tagPoolName, provider, messageDirection);
      assert forall i :: 1 <= i < |rules| ==> rules[i] == rules[1..][i - 1];
      if !Matches(rules[0], accountNumber, tagPoolName, provider, messageDirection) then rest
      else if rest.None? || SortsNoLater(rules[0], rest.value) then Some(rules[0])
      else rest
  }

  /** The order of specificity: when some matching rule names the account,
      the selected rule names it; when, in addition to agreeing on the
      account, some matching rule names the tag pool, so does the selected
      one; and likewise for the provider. */
  lemma {:induction false} MostSpecificRuleWins(rules: seq<CostRule>, accountNumber: string, tagPoolName: string,
                                                provider: Option<string>, messageDirection: string, i: int)
    requires 0 <= i < |rules| && Matches(rules[i], accountNumber, tagPoolName, provider, messageDirection)
    ensures
      var r := GetCost(rules, accountNumber, tagPoolName, provider, messageDirection);
      && r.Some?
      && (rules[i].accountNumber.Some? ==> r.value.accountNumber == Some(accountNumber))
      && (r.value.accountNumber.Some? == rules[i].accountNumber.Some? && rules[i].tagPoolName.Some? ==>
            r.value.tagPoolName == Some(tagPoolName))
      && (r.value.accountNumber.Some? == rules[i].accountNumber.Some? &&
          r.value.tagPoolName.Some? == rules[i].tagPoolName.Some? && rules[i].provider.Some? ==>
            r.value.provider == provider)
  {
  }

  /** With a global rule (cost 1) and a rule for account "A" (cost 2), both
      for inbound messages, account "A" is charged by its own rule and account
      "B" by the global one. */
  lemma SpecificityExample()
    ensures
      var global := CostRule(None, None, None, "inbound", 1.0, 0.0, 0.0, 0.0);
      var forA := CostRule(Some("A"), None, None, "inbound", 2.0, 0.0, 0.0, 0.0);
      && GetCost([global, forA], "A", "pool", None, "inbound") == Some(forA)
      && GetCost([global, forA], "B", "pool", None, "inbound") == Some(global)
      && GetCost([global, forA], "A", "pool", None, "outbound") == None
  {
    var global := CostRule(None, None, None, "inbound", 1.0, 0.0, 0.0, 0.0);
    var forA := CostRule(Some("A"), None, None, "inbound", 2.0, 0.0, 0.0, 0.0);
    assert GetCost([forA], "A", "pool", None, "inbound") == Some(forA);
    assert GetCost([forA], "B", "pool", None, "inbound") == None;
  }

}
