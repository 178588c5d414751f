/** Identifiers shared by the balance modules. */
module Domain {
  type ServiceName = string
  type ConfigurationKey = string
  type ExchangeAccountId = string
  type CurrencyCode = string
  type ClientOrderId = string

  datatype Option<T> = None | Some(value: T)

  datatype CurrencyPair = CurrencyPair(base: CurrencyCode, quote: CurrencyCode)

  datatype ConfigurationDescriptor = ConfigurationDescriptor(serviceName: ServiceName,
      configurationKey: ConfigurationKey)

  datatype BalanceRequest = BalanceRequest(
    descriptor: ConfigurationDescriptor,
    account: ExchangeAccountId,
    pair: CurrencyPair,
    code: CurrencyCode)

  datatype OrderSide = Buy | Sell

  /** An absent entry of an amount table counts as zero. */
  function ValueOr0<K>(m: map<K, real>, k: K): real {
    if k in m then m[k] else 0.0
  }
}
