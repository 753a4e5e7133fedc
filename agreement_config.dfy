/**
 * Agreement configuration (src/agreement/config.ts): the two timeouts fall back with
 * `||`, the service settings with `??`; the logger and event target are kept as given.
 */
module AgreementConfigs {
  import opened Wrappers
  import opened PaymentConfigs

  const DefaultAgreementRequestTimeout := 30000.0
  const DefaultAgreementWaitingForApprovalTimeout := 60.0
  const DefaultAgreementMaxEvents := 100.0
  const DefaultAgreementEventsFetchingIntervalSec := 5.0
  const DefaultAgreementMaxPoolSize := 5.0
  /** The default selector, randomAgreementSelectorWithPriorityForExistingOnes(). */
  const DefaultAgreementSelector := "randomAgreementSelectorWithPriorityForExistingOnes"

  datatype AgreementOptions = AgreementOptions(
    agreementRequestTimeout: Option<real>,
    agreementWaitingForApprovalTimeout: Option<real>,
    logger: Option<string>,
    eventTarget: Option<string>)

  datatype AgreementConfig = AgreementConfig(
    options: Option<AgreementOptions>,
    agreementRequestTimeout: real,
    agreementWaitingForApprovalTimeout: real,
    logger: Option<string>,
    eventTarget: Option<string>)

  function MakeAgreementConfig(options: Option<AgreementOptions>): (c: AgreementConfig)
    ensures c.options == options
    ensures options.None? ==> c.agreementRequestTimeout == DefaultAgreementRequestTimeout &&
                              c.agreementWaitingForApprovalTimeout == DefaultAgreementWaitingForApprovalTimeout &&
                              c.logger.None? && c.eventTarget.None?
    ensures options.Some? ==> c.agreementRequestTimeout == OrNumber(options.value.agreementRequestTimeout, DefaultAgreementRequestTimeout) &&
                              c.agreementWaitingForApprovalTimeout == OrNumber(options.value.agreementWaitingForApprovalTimeout, DefaultAgreementWaitingForApprovalTimeout) &&
                              c.logger == options.value.logger && c.eventTarget == options.value.eventTarget
    ensures c.agreementRequestTimeout != 0.0 && c.agreementWaitingForApprovalTimeout != 0.0
  {
    var o := if options.Some? then options.value else AgreementOptions(None, None, None, None);
    AgreementConfig(
      options,
      OrNumber(o.agreementRequestTimeout, DefaultAgreementRequestTimeout),
      OrNumber(o.agreementWaitingForApprovalTimeout, DefaultAgreementWaitingForApprovalTimeout),
      o.logger,
      o.eventTarget)
  }

  datatype AgreementServiceOptions = AgreementServiceOptions(
    agreement: AgreementOptions,
    agreementSelector: Option<string>,
    agreementMaxEvents: Option<real>,
    agreementMaxPoolSize: Option<real>,
    agreementEventsFetchingIntervalSec: Option<real>)

  datatype AgreementServiceConfig = AgreementServiceConfig(
    agreement: AgreementConfig,
    agreementSelector: string,
    agreementMaxEvents: real,
    agreementMaxPoolSize: real,
    agreementEventsFetchingIntervalSec: real)

  function MakeAgreementServiceConfig(options: Option<AgreementServiceOptions>): (c: AgreementServiceConfig)
    ensures c.agreement == MakeAgreementConfig(if options.Some? then Some(options.value.agreement) else None)
    ensures options.None? ==> c.agreementSelector == DefaultAgreementSelector &&
                              c.agreementMaxEvents == DefaultAgreementMaxEvents &&
                              c.agreementMaxPoolSize == DefaultAgreementMaxPoolSize &&
                              c.agreementEventsFetchingIntervalSec == DefaultAgreementEventsFetchingIntervalSec
    ensures options.Some? ==> c.agreementSelector == Nullish(options.value.agreementSelector, DefaultAgreementSelector) &&
                              c.agreementMaxEvents == Nullish(options.value.agreementMaxEvents, DefaultAgreementMaxEvents) &&
                              c.agreementMaxPoolSize == Nullish(options.value.agreementMaxPoolSize, DefaultAgreementMaxPoolSize) &&
                              c.agreementEventsFetchingIntervalSec == Nullish(options.value.agreementEventsFetchingIntervalSec, DefaultAgreementEventsFetchingIntervalSec)
  {
    match options
    case None =>
      AgreementServiceConfig(MakeAgreementConfig(None), DefaultAgreementSelector, DefaultAgreementMaxEvents,
                             DefaultAgreementMaxPoolSize, DefaultAgreementEventsFetchingIntervalSec)
    case Some(o) =>
      AgreementServiceConfig(
        MakeAgreementConfig(Some(o.agreement)),
        Nullish(o.agreementSelector, DefaultAgreementSelector),
        Nullish(o.agreementMaxEvents, DefaultAgreementMaxEvents),
        Nullish(o.agreementMaxPoolSize, DefaultAgreementMaxPoolSize),
        Nullish(o.agreementEventsFetchingIntervalSec, DefaultAgreementEventsFetchingIntervalSec))
  }

  /** A zero pool size is kept, while a zero request timeout is replaced by the default. */
  lemma ZeroServiceOptions(a: AgreementOptions)
    requires a.agreementRequestTimeout == Some(0.0)
    ensures var c := MakeAgreementServiceConfig(Some(AgreementServiceOptions(a, None, Some(0.0), Some(0.0), Some(0.0))));
            c.agreement.agreementRequestTimeout == DefaultAgreementRequestTimeout &&
            c.agreementMaxEvents == 0.0 && c.agreementMaxPoolSize == 0.0 && c.agreementEventsFetchingIntervalSec == 0.0 &&
            c.agreementSelector == DefaultAgreementSelector
  {
  }
}
