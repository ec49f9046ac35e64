/**
 * The values the LFM component receives and publishes, and the value of its
 * per-epoch state.  Quantity-valued message fields (durations, powers, prices,
 * bid resolutions) are only copied by the component, so they are carried as
 * plain numbers.
 */
module LfmTypes {
  import opened Wrappers

  /** The hour of the day at which an epoch starts. */
  type Hour = h: int | 0 <= h < 24

  /** The fields of a flexibility need that are copied 1:1 into a request. */
  datatype NeedBody = NeedBody(
    activationTime: string,
    duration: int,
    direction: string,
    realPowerMin: real,
    realPowerRequest: real,
    customerIds: seq<string>,
    bidResolution: int)

  /** A flexibility need sent by a procurer (`source_process_id`). */
  datatype Need = Need(
    congestionId: string,
    procurer: string,
    messageId: string,
    body: NeedBody)

  /** The fields of an offer that are copied into offerings and market results. */
  datatype OfferBody = OfferBody(
    activationTime: string,
    duration: int,
    direction: string,
    realPower: real,
    price: real,
    customerIds: seq<string>)

  /**
   * An offer sent by a producer; `offerCount` is the number of offers the
   * producer sends for this congestion in total, 0 meaning "nothing to offer".
   */
  datatype Offer = Offer(
    offerId: string,
    congestionId: string,
    producer: string,
    messageId: string,
    offerCount: int,
    body: OfferBody)

  /** The inbound messages the general message handler distinguishes. */
  datatype Inbound =
    | NeedMsg(need: Need)
    | OfferMsg(offer: Offer)
    | SelectionMsg(offerIds: seq<string>, messageId: string)
    | StatusMsg(source: string, messageId: string)
    | OtherMsg

  /**
   * The outbound messages.  An absent (`None`) field is a field the source
   * fills with `None`; `procurer` of an offering is the topic suffix it is
   * sent to.
   */
  datatype Event =
    | Request(epoch: nat, triggers: seq<string>, congestionId: string, need: NeedBody)
    | Offering(procurer: string, epoch: nat, triggers: seq<string>, congestionId: string,
               offerId: Option<string>, offer: Option<OfferBody>, offerCount: nat)
    | MarketResult(epoch: nat, triggers: seq<string>, resultCongestionId: Option<string>,
                   resultOfferId: Option<string>, result: Option<OfferBody>, resultCount: nat)

  /** The configuration read once at start-up. */
  datatype Config = Config(
    procurers: seq<string>,
    producers: seq<string>,
    openHour: int,
    closingHour: int)

  /**
   * The component's mutable state.  `received` and `expected` are the
   * congestion id -> producer -> count tables; an unset expected count is
   * `None`.  `latestEpoch`, `completedEpoch` and `triggers` belong to the
   * simulation framework and are plain values here.
   */
  datatype State = State(
    needs: seq<Need>,
    offers: seq<Offer>,
    results: seq<Offer>,
    received: map<string, map<string, nat>>,
    expected: map<string, map<string, Option<int>>>,
    procurersReady: map<string, bool>,
    initialSent: bool,
    offeringSent: bool,
    latestEpoch: nat,
    completedEpoch: nat,
    startHour: Hour,
    triggers: seq<string>)

  /** What one `process_epoch` call decides, leaves behind and publishes. */
  datatype Decision = Decision(done: bool, next: State, emitted: seq<Event>)

  /**
   * What one `general_message_handler` call leaves behind and publishes;
   * `verdict` is the epoch verdict of the `start_epoch` call it makes, if any.
   */
  datatype Handled = Handled(verdict: Option<bool>, next: State, emitted: seq<Event>)
}
