/**
 * The shapes of the generator's two configuration inputs: the merchant
 * configurations and the saved payment instruments. Loading and validating
 * the JSON files is not part of this model; these are the values the core
 * reads once loading has succeeded.
 */
module Config {
  import opened Common
  import opened Json

  /** An inclusive `[min, max]` pair from the instrument's `ranges`. */
  datatype Range = Range(min: int, max: int)

  /** The one-time codes a 3-D Secure challenge accepts or rejects (`3DS`). */
  datatype ThreeDS = ThreeDS(successCode: string, errorCode: string)

  /**
   * The `payload` object of an instrument. It is shared by reference by every
   * task that picks the instrument, and `initCIT` rewrites its order's article
   * prices in place, so it is an object whose one field the model reassigns.
   */
  class MethodPayload {
    var entries: map<string, Json>

    constructor (entries: map<string, Json>)
      ensures this.entries == entries
    {
      this.entries := entries;
    }
  }

  /** A saved payment instrument. */
  datatype PaymentMethod = PaymentMethod(
    kind: string,                       // `type`: "card" or an alternative method tag such as "PAP"
    alias: string,
    brand: string,                      // `paymentMethod`: the card brand, e.g. "VIS" or "CUP"
    number: string,
    expiryMonth: string,
    expiryYear: string,
    cvv: string,
    currencies: Option<seq<string>>,    // absent: every currency
    successRange: Option<Range>,        // `ranges.success`
    declineRange: Option<Range>,        // `ranges.decline`
    threeDS: Option<ThreeDS>,
    payload: Option<MethodPayload>)

  /** The merchant's amount policy: `amounts.specific` and `amounts.range` (absent lists are empty). */
  datatype Amounts = Amounts(specific: seq<int>, range: seq<int>)

  /** `referenceNumber`: a random policy (length choices, optional prefix) or a fixed `refno`. */
  datatype RefPolicy = RefPolicy(kind: string, lengths: seq<int>, prefix: string, refno: string)

  /** The redirect and webhook URL templates, each possibly holding `:refNo`. */
  datatype Urls = Urls(success: string, error: string, cancel: string, webhook: string)

  /** One entry of `transactionFlows`: a flow type and how many tasks of it to run. */
  datatype FlowEntry = FlowEntry(flowType: string, count: nat)

  datatype MerchantConfig = MerchantConfig(
    id: string,
    merchantId: string,
    password: string,
    currencies: seq<string>,
    amounts: Amounts,
    transactionFlows: seq<FlowEntry>,   // in the key order of the JSON object
    topUpLimit: int,                    // `limits.topUp`, a percentage
    urls: Urls,
    referenceNumber: RefPolicy)
}
