/**
 * Payment configuration (src/payment/config.ts): the defaults each option falls back to.
 * Options combined with `||` fall back when absent, zero or empty; options combined
 * with `??` fall back only when absent.
 */
module PaymentConfigs {
  import opened Wrappers
  import ProposalFilters
  import opened Strings

  const DefaultNetwork := "goerli"
  const DefaultDriver := "erc20"
  const DefaultBudget := 1.0
  const DefaultPaymentTimeout := 60000.0
  const DefaultAllocationExpirationSec := 3600.0
  const DefaultMaxInvoiceEvents := 500.0
  const DefaultMaxDebitNotesEvents := 500.0
  const DefaultInvoiceFetchingInterval := 5000.0
  const DefaultDebitNotesFetchingInterval := 5000.0
  const DefaultUnsubscribeTimeoutMs := 10000.0

  /** `x || d` on a number: undefined and 0 are falsy. */
  function OrNumber(x: Option<real>, d: real): (r: real)
    ensures x.Some? && x.value != 0.0 ==> r == x.value
    ensures x.None? || x.value == 0.0 ==> r == d
  {
    if x.Some? && x.value != 0.0 then x.value else d
  }

  /** `x ?? d`: only undefined falls back. */
  function Nullish<T>(x: Option<T>, d: T): (r: T)
    ensures x.Some? ==> r == x.value
    ensures x.None? ==> r == d
  {
    if x.Some? then x.value else d
  }

  /** The two operators differ exactly on an explicit zero. */
  lemma OrAgreesWithNullishExceptZero(x: Option<real>, d: real)
    ensures OrNumber(x, d) != Nullish(x, d) <==> x == Some(0.0) && d != 0.0
  {
  }

  datatype PaymentNetworkOptions = PaymentNetworkOptions(driver: Option<string>, network: Option<string>)

  datatype LoggerRef = GivenLogger(name: string) | DefaultLogger(namespace: string)

  datatype BasePaymentOptions = BasePaymentOptions(
    budget: Option<real>,
    payment: Option<PaymentNetworkOptions>,
    paymentTimeout: Option<real>,
    unsubscribeTimeoutMs: Option<real>,
    logger: Option<string>,
    eventTarget: Option<string>)

  const NoBaseOptions := BasePaymentOptions(None, None, None, None, None, None)

  datatype BaseConfig = BaseConfig(
    paymentTimeout: real,
    driver: string,
    network: string,
    logger: LoggerRef,
    eventTarget: Option<string>)

  function DriverOption(o: BasePaymentOptions): Option<string>
  {
    if o.payment.Some? then o.payment.value.driver else None
  }

  function NetworkOption(o: BasePaymentOptions): Option<string>
  {
    if o.payment.Some? then o.payment.value.network else None
  }

  /** `BaseConfig`; `envNetwork` is the payment network read from the environment. */
  function MakeBaseConfig(o: BasePaymentOptions, envNetwork: Option<string>): (c: BaseConfig)
    ensures o.paymentTimeout.None? || o.paymentTimeout == Some(0.0) ==> c.paymentTimeout == DefaultPaymentTimeout
    ensures o.paymentTimeout.Some? && o.paymentTimeout.value != 0.0 ==> c.paymentTimeout == o.paymentTimeout.value
    ensures c.driver == (if DriverOption(o).Some? && DriverOption(o).value != "" then DriverOption(o).value else DefaultDriver)
    ensures NetworkOption(o).Some? && NetworkOption(o).value != "" ==> c.network == NetworkOption(o).value
    ensures (NetworkOption(o).None? || NetworkOption(o).value == "") && envNetwork.Some? && envNetwork.value != "" ==> c.network == envNetwork.value
    ensures (NetworkOption(o).None? || NetworkOption(o).value == "") && (envNetwork.None? || envNetwork.value == "") ==> c.network == DefaultNetwork
    ensures c.logger == (if o.logger.Some? then GivenLogger(o.logger.value) else DefaultLogger("payment"))
    ensures c.eventTarget == o.eventTarget
  {
    BaseConfig(
      OrNumber(o.paymentTimeout, DefaultPaymentTimeout),
      OrString(DriverOption(o), DefaultDriver),
      OrString(NetworkOption(o), OrString(envNetwork, DefaultNetwork)),
      if o.logger.Some? then GivenLogger(o.logger.value) else DefaultLogger("payment"),
      o.eventTarget)
  }

  datatype PaymentOptions = PaymentOptions(
    base: BasePaymentOptions,
    invoiceFetchingInterval: Option<real>,
    debitNotesFetchingInterval: Option<real>,
    maxInvoiceEvents: Option<real>,
    maxDebitNotesEvents: Option<real>,
    debitNotesFilter: Option<ProposalFilters.DebitNote -> bool>,
    invoiceFilter: Option<ProposalFilters.Invoice -> bool>)

  datatype PaymentConfig = PaymentConfig(
    base: BaseConfig,
    invoiceFetchingInterval: real,
    debitNotesFetchingInterval: real,
    maxInvoiceEvents: real,
    maxDebitNotesEvents: real,
    unsubscribeTimeoutMs: real,
    debitNoteFilter: ProposalFilters.DebitNote -> bool,
    invoiceFilter: ProposalFilters.Invoice -> bool)

  /** `new PaymentConfig(options)`; the service passes no options at all as `None`. */
  function MakePaymentConfig(options: Option<PaymentOptions>, envNetwork: Option<string>): (c: PaymentConfig)
    ensures c.base == MakeBaseConfig(if options.Some? then options.value.base else NoBaseOptions, envNetwork)
    ensures options.None? || options.value.invoiceFetchingInterval.None? ==> c.invoiceFetchingInterval == DefaultInvoiceFetchingInterval
    ensures options.None? || options.value.debitNotesFetchingInterval.None? ==> c.debitNotesFetchingInterval == DefaultDebitNotesFetchingInterval
    ensures options.None? || options.value.maxInvoiceEvents.None? ==> c.maxInvoiceEvents == DefaultMaxInvoiceEvents
    ensures options.None? || options.value.maxDebitNotesEvents.None? ==> c.maxDebitNotesEvents == DefaultMaxDebitNotesEvents
    ensures options.None? || options.value.base.unsubscribeTimeoutMs.None? ==> c.unsubscribeTimeoutMs == DefaultUnsubscribeTimeoutMs
    ensures options.Some? && options.value.maxInvoiceEvents.Some? ==> c.maxInvoiceEvents == options.value.maxInvoiceEvents.value
    ensures options.Some? && options.value.maxDebitNotesEvents.Some? ==> c.maxDebitNotesEvents == options.value.maxDebitNotesEvents.value
    ensures options.Some? && options.value.invoiceFetchingInterval.Some? ==> c.invoiceFetchingInterval == options.value.invoiceFetchingInterval.value
    ensures options.Some? && options.value.debitNotesFetchingInterval.Some? ==> c.debitNotesFetchingInterval == options.value.debitNotesFetchingInterval.value
    ensures options.Some? && options.value.base.unsubscribeTimeoutMs.Some? ==> c.unsubscribeTimeoutMs == options.value.base.unsubscribeTimeoutMs.value
    ensures options.None? || options.value.debitNotesFilter.None? ==> forall d :: c.debitNoteFilter(d)
    ensures options.None? || options.value.invoiceFilter.None? ==> forall i :: c.invoiceFilter(i)
    ensures options.Some? && options.value.debitNotesFilter.Some? ==> c.debitNoteFilter == options.value.debitNotesFilter.value
    ensures options.Some? && options.value.invoiceFilter.Some? ==> c.invoiceFilter == options.value.invoiceFilter.value
  {
    var o := if options.Some? then options.value else PaymentOptions(NoBaseOptions, None, None, None, None, None, None);
    PaymentConfig(
      MakeBaseConfig(o.base, envNetwork),
      Nullish(o.invoiceFetchingInterval, DefaultInvoiceFetchingInterval),
      Nullish(o.debitNotesFetchingInterval, DefaultDebitNotesFetchingInterval),
      Nullish(o.maxInvoiceEvents, DefaultMaxInvoiceEvents),
      Nullish(o.maxDebitNotesEvents, DefaultMaxDebitNotesEvents),
      Nullish(o.base.unsubscribeTimeoutMs, DefaultUnsubscribeTimeoutMs),
      Nullish(o.debitNotesFilter, ProposalFilters.AcceptAllDebitNotesFilter()),
      Nullish(o.invoiceFilter, ProposalFilters.AcceptAllInvoicesFilter()))
  }

  /** An explicit 0 is kept by the `??` options but replaced by the `||` ones. */
  lemma ZeroOptions(base: BasePaymentOptions)
    requires base.paymentTimeout == Some(0.0) && base.unsubscribeTimeoutMs == Some(0.0)
    ensures var c := MakePaymentConfig(Some(PaymentOptions(base, Some(0.0), Some(0.0), Some(0.0), Some(0.0), None, None)), None);
            c.base.paymentTimeout == DefaultPaymentTimeout &&
            c.invoiceFetchingInterval == 0.0 && c.debitNotesFetchingInterval == 0.0 &&
            c.maxInvoiceEvents == 0.0 && c.maxDebitNotesEvents == 0.0 && c.unsubscribeTimeoutMs == 0.0
  {
  }

  datatype Account = Account(address: string, platform: string)

  datatype AllocationOptions = AllocationOptions(base: BasePaymentOptions, account: Option<Account>, expirationSec: Option<real>)

  datatype AllocationConfig = AllocationConfig(
    base: BaseConfig,
    budget: real,
    driver: string,
    network: string,
    expirationSec: real,
    account: Account)

  datatype ConfigError =
    | AccountRequired          // "Account option is required"
    | AccountFieldsRequired    // "Account address and payment platform are required"

  /** `new AllocationConfig(options)`: an account with an address and a platform is required. */
  function MakeAllocationConfig(options: Option<AllocationOptions>, envNetwork: Option<string>): (r: Result<AllocationConfig, ConfigError>)
    ensures r == Err(AccountRequired) <==> options.None? || options.value.account.None?
    ensures r == Err(AccountFieldsRequired) <==>
              options.Some? && options.value.account.Some? &&
              (options.value.account.value.address == "" || options.value.account.value.platform == "")
    ensures r.Ok? ==>
              var o := options.value;
              r.value.account == o.account.value &&
              r.value.base == MakeBaseConfig(o.base, envNetwork) &&
              r.value.budget == OrNumber(o.base.budget, DefaultBudget) &&
              r.value.driver == OrString(DriverOption(o.base), DefaultDriver) &&
              r.value.network == OrString(NetworkOption(o.base), DefaultNetwork) &&
              r.value.expirationSec == OrNumber(o.expirationSec, DefaultAllocationExpirationSec)
  {
    if options.None? || options.value.account.None? then Err(AccountRequired)
    else
      var o := options.value;
      var account := o.account.value;
      if account.address == "" || account.platform == "" then Err(AccountFieldsRequired)
      else
        Ok(AllocationConfig(
          MakeBaseConfig(o.base, envNetwork),
          OrNumber(o.base.budget, DefaultBudget),
          OrString(DriverOption(o.base), DefaultDriver),
          OrString(NetworkOption(o.base), DefaultNetwork),
          OrNumber(o.expirationSec, DefaultAllocationExpirationSec),
          account))
  }

  /**
   * The allocation's own network ignores the environment, unlike the network of the base
   * settings it extends: without a network option the two disagree.
   */
  lemma AllocationNetworkIgnoresEnvironment(account: Account, envNetwork: string)
    requires account.address != "" && account.platform != "" && envNetwork != "" && envNetwork != DefaultNetwork
    ensures var r := MakeAllocationConfig(Some(AllocationOptions(NoBaseOptions, Some(account), None)), Some(envNetwork));
            r.Ok? && r.value.network == DefaultNetwork && r.value.base.network == envNetwork
  {
  }
}
