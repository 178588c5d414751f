/** The five-level balance tree and the flat table it stands for. */
module ServiceValueTrees {
  import opened Domain

  type ByCode = map<CurrencyCode, real>
  type ByPair = map<CurrencyPair, ByCode>
  type ByAccount = map<ExchangeAccountId, ByPair>
  type ByKey = map<ConfigurationKey, ByAccount>
  type ByService = map<ServiceName, ByKey>

  // ---- the entry a request selects, from each level down ----

  function AtCode(m: ByCode, r: BalanceRequest): Option<real> {
    if r.code in m then Some(m[r.code]) else None
  }

  function AtPair(m: ByPair, r: BalanceRequest): Option<real> {
    if r.pair in m then AtCode(m[r.pair], r) else None
  }

  function AtAccount(m: ByAccount, r: BalanceRequest): Option<real> {
    if r.account in m then AtPair(m[r.account], r) else None
  }

  function AtKey(m: ByKey, r: BalanceRequest): Option<real> {
    if r.descriptor.configurationKey in m then AtAccount(m[r.descriptor.configurationKey], r) else None
  }

  function GetByBalanceRequest(tree: ByService, r: BalanceRequest): Option<real> {
    if r.descriptor.serviceName in tree then AtKey(tree[r.descriptor.serviceName], r) else None
  }

  function GetAsBalances(tree: ByService): map<BalanceRequest, real> {
    map s, k, a, p, c | s in tree && k in tree[s] && a in tree[s][k] && p in tree[s][k][a] && c in tree[s][k][a][p] ::
      BalanceRequest(ConfigurationDescriptor(s, k), a, p, c) := tree[s][k][a][p][c]
  }

  /** The flat table holds exactly the entries that requests select in the tree. */
  lemma FlatIsLookup(tree: ByService, r: BalanceRequest)
    ensures GetByBalanceRequest(tree, r) ==
            if r in GetAsBalances(tree) then Some(GetAsBalances(tree)[r]) else None
  {
    assert r == BalanceRequest(ConfigurationDescriptor(r.descriptor.serviceName, r.descriptor.configurationKey),
        r.account, r.pair, r.code);
  }

  class ServiceValueTree {
    var tree: ByService

    constructor ()
      ensures forall r :: GetByBalanceRequest(tree, r) == None
    {
      tree := map[];
    }

    method SetByServiceName(service: ServiceName, value: ByKey)
      modifies this
      ensures forall r :: GetByBalanceRequest(tree, r) ==
                if r.descriptor.serviceName == service then AtKey(value, r) else GetByBalanceRequest(old(tree), r)
    {
      tree := tree[service := value];
    }

    method SetByConfigurationKey(service: ServiceName, key: ConfigurationKey, value: ByAccount)
      modifies this
      ensures forall r :: GetByBalanceRequest(tree, r) ==
                if r.descriptor == ConfigurationDescriptor(service, key) then AtAccount(value, r)
                else GetByBalanceRequest(old(tree), r)
    {
      if service in tree {
        tree := tree[service := tree[service][key := value]];
      } else {
        SetByServiceName(service, map[key := value]);
      }
    }

    method SetByExchangeAccountId(service: ServiceName, key: ConfigurationKey, account: ExchangeAccountId,
                                  value: ByPair)
      modifies this
      ensures forall r :: GetByBalanceRequest(tree, r) ==
                if r.descriptor == ConfigurationDescriptor(service, key) && r.account == account then AtPair(value, r)
                else GetByBalanceRequest(old(tree), r)
    {
      if service in tree && key in tree[service] {
        var byAccount := tree[service][key][account := value];
        tree := tree[service := tree[service][key := byAccount]];
      } else {
        SetByConfigurationKey(service, key, map[account := value]);
      }
    }

    method SetByCurrencyPair(service: ServiceName, key: ConfigurationKey, account: ExchangeAccountId,
                             pair: CurrencyPair, value: ByCode)
      modifies this
      ensures forall r :: GetByBalanceRequest(tree, r) ==
                if r.descriptor == ConfigurationDescriptor(service, key) && r.account == account && r.pair == pair
                then AtCode(value, r) else GetByBalanceRequest(old(tree), r)
    {
      if service in tree && key in tree[service] && account in tree[service][key] {
        var byPair := tree[service][key][account][pair := value];
        var byAccount := tree[service][key][account := byPair];
        tree := tree[service := tree[service][key := byAccount]];
      } else {
        SetByExchangeAccountId(service, key, account, map[pair := value]);
      }
    }

    method SetByCurrencyCode(service: ServiceName, key: ConfigurationKey, account: ExchangeAccountId,
                             pair: CurrencyPair,
                             code: CurrencyCode, value: real)
      modifies this
      ensures var target := BalanceRequest(ConfigurationDescriptor(service, key), account, pair, code);
              forall r :: GetByBalanceRequest(tree, r) == if r == target then Some(value)
                  else GetByBalanceRequest(old(tree), r)
    {
      if service in tree && key in tree[service] && account in tree[service][key]
          && pair in tree[service][key][account] {
        var byCode := tree[service][key][account][pair][code := value];
        var byPair := tree[service][key][account][pair := byCode];
        var byAccount := tree[service][key][account := byPair];
        tree := tree[service := tree[service][key := byAccount]];
      } else {
        SetByCurrencyPair(service, key, account, pair, map[code := value]);
      }
    }

    method SetByBalanceRequest(request: BalanceRequest, value: real)
      modifies this
      ensures forall r :: GetByBalanceRequest(tree, r) == if r == request then Some(value)
              else GetByBalanceRequest(old(tree), r)
    {
      SetByCurrencyCode(request.descriptor.serviceName, request.descriptor.configurationKey, request.account,
          request.pair,
                        request.code, value);
    }

    method AddByRequest(request: BalanceRequest, value: real)
      modifies this
      ensures forall r :: GetByBalanceRequest(tree, r) ==
                Plus(GetByBalanceRequest(old(tree), r), if r == request then Some(value) else None)
    {
      var current := GetByBalanceRequest(tree, request);
      SetByBalanceRequest(request, (if current.Some? then current.value else 0.0) + value);
    }

    /** Whatever order the items are visited in, the result is the pointwise sum. */
    method AddAll(items: map<BalanceRequest, real>)
      modifies this
      ensures forall r :: GetByBalanceRequest(tree, r) == Plus(GetByBalanceRequest(old(tree), r), ItemAt(items, r))
    {
      var todo := items.Keys;
      while todo != {}
        invariant todo <= items.Keys
        invariant forall r :: GetByBalanceRequest(tree, r) ==
                    Plus(GetByBalanceRequest(old(tree), r), if r in todo then None else ItemAt(items, r))
        decreases todo
      {
        var r :| r in todo;
        AddByRequest(r, items[r]);
        todo := todo - {r};
      }
    }

    method Add(input: ServiceValueTree)
      modifies this
      ensures forall r :: GetByBalanceRequest(tree, r) ==
                Plus(GetByBalanceRequest(old(tree), r), GetByBalanceRequest(old(input.tree), r))
    {
      ItemsAreLookups(input.tree);
      AddAll(GetAsBalances(input.tree));
    }
  }

  function ItemAt(items: map<BalanceRequest, real>, r: BalanceRequest): Option<real> {
    if r in items then Some(items[r]) else None
  }

  /** Adding two entries, where a missing one counts as zero unless both are missing. */
  function Plus(a: Option<real>, b: Option<real>): Option<real> {
    if b.None? then a else Some((if a.Some? then a.value else 0.0) + b.value)
  }

  lemma ItemsAreLookups(tree: ByService)
    ensures forall r :: ItemAt(GetAsBalances(tree), r) == GetByBalanceRequest(tree, r)
  {
    forall r ensures ItemAt(GetAsBalances(tree), r) == GetByBalanceRequest(tree, r) {
      FlatIsLookup(tree, r);
    }
  }
}
