/** Exchange balances and the virtual differences kept on top of them. */
module VirtualBalances {
  import opened Domain
  import opened Symbols
  import opened ServiceValueTrees
  import opened ReservationLedger

  type Table = map<BalanceRequest, real>

  /** The tree stands for the flat table. */
  ghost predicate Shows(tree: ByService, table: Table) {
    forall r :: GetByBalanceRequest(tree, r) == ItemAt(table, r)
  }

  lemma ShowsPut(before: ByService, after: ByService, table: Table, request: BalanceRequest, value: real)
    requires Shows(before, table)
    requires forall r :: GetByBalanceRequest(after, r) == if r == request then Some(value)
             else GetByBalanceRequest(before, r)
    ensures Shows(after, table[request := value])
  {
  }

  lemma ShowsAdd(before: ByService, after: ByService, table: Table, request: BalanceRequest, value: real)
    requires Shows(before, table)
    requires forall r :: GetByBalanceRequest(after, r) ==
               Plus(GetByBalanceRequest(before, r), if r == request then Some(value) else None)
    ensures Shows(after, AddTo(table, request, value))
  {
  }

  /** The table is the one `get_as_balances` computes. */
  lemma ShowsFlat(tree: ByService, table: Table)
    ensures Shows(tree, table) <==> GetAsBalances(tree) == table
  {
    ItemsAreLookups(tree);
    if Shows(tree, table) {
      SameItems(GetAsBalances(tree), table);
    }
  }

  lemma SameItems(a: Table, b: Table)
    requires forall r :: ItemAt(a, r) == ItemAt(b, r)
    ensures a == b
  {
    forall r ensures r in a <==> r in b {
      assert ItemAt(a, r) == ItemAt(b, r);
    }
    forall r | r in a ensures a[r] == b[r] {
      assert ItemAt(a, r) == ItemAt(b, r);
    }
  }

  /** The differences once the exchange has reported new balances: those it covers start again at zero. */
  function Reset(diffs: Table, account: ExchangeAccountId, codes: set<CurrencyCode>): Table {
    map r | r in diffs :: if r.account == account && r.code in codes then 0.0 else diffs[r]
  }

  class VirtualBalanceHolder {
    var balances: map<ExchangeAccountId, map<CurrencyCode, real>>
    const balanceDiff: ServiceValueTree
    /** The table the tree of differences stands for. */
    ghost var diffs: Table

    ghost predicate Valid()
      reads this, balanceDiff
    {
      Shows(balanceDiff.tree, diffs)
    }

    constructor (exchanges: set<ExchangeAccountId>)
      ensures Valid() && fresh(balanceDiff) && diffs == map[]
      ensures balances == map account | account in exchanges :: map[]
    {
      balances := map account | account in exchanges :: map[];
      balanceDiff := new ServiceValueTree();
      diffs := map[];
    }

    method AllDiffs() returns (all: Table)
      requires Valid()
      ensures all == diffs
    {
      all := GetAsBalances(balanceDiff.tree);
      ShowsFlat(balanceDiff.tree, diffs);
    }

    method SetDiff(request: BalanceRequest, value: real)
      requires Valid()
      modifies this`diffs, balanceDiff
      ensures Valid() && diffs == old(diffs)[request := value]
    {
      ghost var before := balanceDiff.tree;
      balanceDiff.SetByBalanceRequest(request, value);
      ShowsPut(before, balanceDiff.tree, diffs, request, value);
      diffs := diffs[request := value];
    }

    /** Replaces the balances of one account and resets exactly the differences of that account in the
        currencies reported, whatever order keys are visited in. */
    method UpdateBalances(account: ExchangeAccountId, byCode: map<CurrencyCode, real>)
      requires Valid()
      modifies this, balanceDiff
      ensures Valid()
      ensures balances == old(balances)[account := byCode]
      ensures diffs == Reset(old(diffs), account, byCode.Keys)
    {
      balances := balances[account := byCode];
      var all := AllDiffs();
      var codes := byCode.Keys;
      ResetNone(all, account);
      assert byCode.Keys - codes == {};
      while codes != {}
        invariant Valid() && codes <= byCode.Keys
        invariant balances == old(balances)[account := byCode]
        invariant diffs == Reset(all, account, byCode.Keys - codes)
        decreases codes
      {
        var code :| code in codes;
        ResetCode(all, account, code, byCode.Keys - codes);
        codes := codes - {code};
        assert byCode.Keys - codes == byCode.Keys - (codes + {code}) + {code};
      }
      assert byCode.Keys - codes == byCode.Keys;
    }

    /** The inner loop: resets the differences of the account in one currency. */
    method ResetCode(all: Table, account: ExchangeAccountId, code: CurrencyCode, ghost done: set<CurrencyCode>)
      requires Valid() && diffs == Reset(all, account, done)
      modifies this`diffs, balanceDiff
      ensures Valid() && diffs == Reset(all, account, done + {code})
    {
      var requests := all.Keys;
      ResetSomeEnds(all, account, done, code);
      assert all.Keys - requests == {};
      while requests != {}
        invariant Valid() && requests <= all.Keys
        invariant diffs == ResetSome(all, account, done, code, all.Keys - requests)
        decreases requests
      {
        var request :| request in requests;
        ResetSomeStep(all, account, done, code, all.Keys - requests, request);
        if request.account == account && request.code == code {
          SetDiff(request, 0.0);
        }
        requests := requests - {request};
        assert all.Keys - requests == all.Keys - (requests + {request}) + {request};
      }
      assert all.Keys - requests == all.Keys;
    }

    method AddBalance(request: BalanceRequest, value: real)
      requires Valid()
      modifies this`diffs, balanceDiff
      ensures Valid() && diffs == AddTo(old(diffs), request, value)
    {
      var current := GetByBalanceRequest(balanceDiff.tree, request);
      SetDiff(request, (if current.Some? then current.value else 0.0) + value);
    }

    /** The difference is given in the amount currency. A derivative is charged in its balance currency. */
    method AddBalanceBySymbol(request: BalanceRequest, symbol: Symbol, diff: real, price: real)
      requires Valid() && symbol.Ok() && price > 0.0 && symbol.Converts(request.code)
      modifies this`diffs, balanceDiff
      ensures Valid()
      ensures var key := if symbol.isDerivative then request.(code := symbol.balanceCode.value) else request;
              diffs == AddTo(old(diffs), key, ConvertFromAmount(symbol, key.code, diff, price))
    {
      if !symbol.isDerivative {
        AddBalance(request, ConvertFromAmount(symbol, request.code, diff, price));
      } else {
        var key := request.(code := symbol.balanceCode.value);
        AddBalance(key, ConvertFromAmount(symbol, key.code, diff, price));
      }
    }
  }

  /** `Reset` in the middle of one currency: only the requests in `seen` have been looked at. */
  ghost function ResetSome(diffs: Table, account: ExchangeAccountId, done: set<CurrencyCode>, code: CurrencyCode,
                           seen: set<BalanceRequest>): Table {
    map r | r in diffs ::
      if r.account == account && (r.code in done || (r.code == code && r in seen)) then 0.0 else diffs[r]
  }

  lemma ResetNone(diffs: Table, account: ExchangeAccountId)
    ensures Reset(diffs, account, {}) == diffs
  {
  }

  lemma ResetSomeEnds(diffs: Table, account: ExchangeAccountId, done: set<CurrencyCode>, code: CurrencyCode)
    ensures ResetSome(diffs, account, done, code, {}) == Reset(diffs, account, done)
    ensures ResetSome(diffs, account, done, code, diffs.Keys) == Reset(diffs, account, done + {code})
  {
  }

  lemma ResetSomeStep(diffs: Table, account: ExchangeAccountId, done: set<CurrencyCode>, code: CurrencyCode,
                      seen: set<BalanceRequest>, request: BalanceRequest)
    requires request in diffs
    ensures ResetSome(diffs, account, done, code, seen + {request}) ==
            if request.account == account && request.code == code
            then ResetSome(diffs, account, done, code, seen)[request := 0.0]
            else ResetSome(diffs, account, done, code, seen)
  {
  }
}
