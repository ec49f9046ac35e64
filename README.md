# LFM congestion-management market: a Dafny model

This project models the core of the LFM (local flexibility market) component of a
simulation platform. The component collects flexibility needs from procurers and
offers from producers, epoch by epoch. It decides when an epoch is done. It forwards
the offers to the procurers as LFM offerings, moves selected offers to the market
results and publishes those results. The project also models the validation of the
`offer_ids` attribute of the SelectedOffer message.

Layout:

- `wrappers.dfy`: `Option` and `Outcome`.
- `lfm_types.dfy`: needs, offers, inbound messages, published events, the
  configuration and the component's state as a value (`State`).
- `slots.dfy`: the component's way of deleting list entries. It first
  overwrites them with `None` (a `seq<Option<T>>` here), then runs
  `while None in xs: xs.remove(None)`.
- `lfm_spec.dfy`: a pure specification of every step on `State`. It covers the
  epoch reset, `process_epoch` (initial publication, then the decision), each
  branch of `general_message_handler`, and what every publish method sends.
- `lfm_component.dfy`: `class LFM`, with the source's fields updated in place.
  Every method is proved to leave `Snapshot()` and the `outbox` of published
  events exactly as the specification says. Each loop of the source is a loop
  here, with its invariant.
- `lfm_properties.dfy`: what the specification guarantees. This covers the
  reset, readiness, the order of decisions and the quietness of a repeated
  `process_epoch`, the counter rules, the selection of offers and the counts
  in published messages.
- `selected_offer_message.dfy`: `_check_offer_ids`, the `offer_ids` setter and
  `__eq__`.

Published messages are appended to `outbox`, a sequence of `Event` values.
The handler calls `start_epoch` at the end of each of its four branches
(lfm/component.py:241, 261, 287, 297); here that call is a call of
`ProcessEpoch`, and the handler returns its answer. A message of any other type
only reaches the final log line (lfm/component.py:298-299) and starts nothing.

The model follows these behaviours of the code, which a reader may not expect:

- The received count of a producer is not capped by its announced count
  (lfm/component.py:254-256). An extra real bid makes the producer not ready
  (`ExtraOfferExceedsExpected`).
- A selected id moves every open offer with that id, not only the first one
  (lfm/component.py:268-277; `SelectMovesEverySelected`).
- With no results, `_publishMarketResult(-1)` sends the empty market result
  (lfm/component.py:410-413) and then falls through to the second send
  (lfm/component.py:439-442). The empty result therefore goes out twice
  (`MarketResultCounts`).
- `clear_epoch_variables` purges the needs (lfm/component.py:118) before its
  counter loop (lfm/component.py:120-125). That loop therefore never runs, and
  the counter tables keep their old entries (`ResetLaw`).
- A need handled before the epoch's initial publication, in an open market, has
  its request published twice: once by the need branch (lfm/component.py:239)
  and again by `_publishOpenRequests` (lfm/component.py:143, 325-327), because
  the need is already in the list when `process_epoch` runs
  (`NeedBeforeInitialPublishedTwice`).

## Model

| member | source | states |
|---|---|---|
| LfmSpec.MarketOpen | lfm/component.py:493-501 | the market is open exactly when the epoch's start hour lies between the opening and closing hours, both inclusive |
| LfmProperties.MarketWindowExample | lfm/component.py:493-501 | with hours 8 to 20, start hours 8 and 20 are open; 5 and 21 are closed |
| LfmComponent.LFM.constructor | lfm/component.py:78-106 | one lowered ready flag per configured procurer; empty needs, offers and results; both sent flags down; the state is valid |
| LfmComponent.LFM.PurgeOutdated | lfm/component.py:476-491 | the needs, offers and results are all empty afterwards |
| Slots.Purge | lfm/component.py:477-491 | overwriting every entry with None and then removing the placeholders leaves an empty list |
| Slots.Compact | lfm/component.py:280-281 | removing the first None until none is left yields the present values in their original order |
| LfmSpec.ClearSpec | lfm/component.py:108-131 | the reset empties the lists, records the start hour, keeps the counter tables and lowers both sent flags |
| LfmComponent.LFM.StartFreshEpoch | lfm/component.py:114-125 | the start hour is recorded and the lists are emptied; the counter loop, run on the emptied needs, leaves everything else as it was |
| LfmComponent.LFM.ReinitCounters | lfm/component.py:120-125 | the counters of each current need's congestion id are reset, as the specification's fold over the needs says |
| LfmComponent.LFM.LowerProcurerFlags | lfm/component.py:127-128 | every configured procurer's flag is set to false, other entries kept |
| LfmComponent.LFM.ClearEpochVariables | lfm/component.py:108-131 | the new state is the reset of the old one: start hour recorded, lists purged, counters re-initialised over the (empty) needs, every procurer flag and both sent flags lowered, validity kept |
| LfmProperties.ResetLaw | lfm/component.py:108-131 | after the reset the lists are empty, every configured procurer is not ready, both sent flags are false and the counter tables are unchanged |
| LfmProperties.FreshEpochWaits | lfm/component.py:108-184 | right after a reset in an open market with a procurer, `process_epoch` publishes the two empty market results and answers not done |
| LfmComponent.LFM.ResetCounters | lfm/component.py:120-125 | the congestion id gets a zero received count and an unset expected count for every producer; other ids keep theirs |
| LfmComponent.LFM.CheckProducersReady | lfm/component.py:151-160 | the loop's answer is true exactly when there is a need and, for every need and every producer, the expected count is set and equals the received count |
| LfmProperties.ProducersReadyIff | lfm/component.py:151-160 | for a valid state, producer readiness holds iff some need exists and every producer's count for every need is as announced |
| LfmProperties.UnsetExpectedBlocks | lfm/component.py:154 | an unset (None) expected count of any producer for any open need blocks producer readiness |
| LfmProperties.MiscountBlocks | lfm/component.py:154-158 | a single producer whose announced count is set and differs from its received count blocks readiness |
| LfmComponent.LFM.CheckProcurersReady | lfm/component.py:162-165 | the loop's answer is true exactly when every procurer flag is set |
| LfmComponent.LFM.ProcessEpoch | lfm/component.py:133-184 | the answer, new state and published events are those of the specification: initial publication once, then the decision in the source's order |
| LfmComponent.LFM.DecideEpoch | lfm/component.py:146-184 | the if-chain: closed market, everyone ready, procurers ready with no needs, then offerings once when the producers are ready |
| LfmComponent.LFM.PublishInitial | lfm/component.py:137-144 | when not yet sent, the market results and (open market only) the open requests are published and the flag is raised; otherwise nothing happens |
| LfmProperties.ProcessEpochDoneIff | lfm/component.py:146-184 | `process_epoch` answers true iff the market is closed, or the procurers are ready and either the producers are ready or there are no needs |
| LfmProperties.OfferingsSentIff | lfm/component.py:174-177 | the offerings go out iff the market is open, producers ready, procurers not, and they were not sent yet; the flag then records it |
| LfmProperties.RepeatIsQuiet | lfm/component.py:137-184 | a second `process_epoch` on the state left by the first publishes nothing, changes nothing and gives the same answer |
| LfmSpec.ProcessEpochSpec | lfm/component.py:133-184 | `process_epoch` changes only the two sent flags and raises the initial flag; in a closed market it answers done |
| LfmSpec.Decide | lfm/component.py:146-184 | the decision changes at most the offering flag; whatever it publishes goes out once, with the flag raised and the answer not done; a done answer publishes nothing |
| LfmProperties.ClosedMarketFinishes | lfm/component.py:146-148 | in a closed market `process_epoch` answers done and publishes at most the market results |
| LfmProperties.NoNeedsAllProcurersReady | lfm/component.py:171-173 | in an open market with no needs and every procurer ready the epoch is done after the initial publication |
| LfmComponent.LFM.GeneralMessageHandler | lfm/component.py:213-300 | verdict, new state and published events are those of the specification of the handler |
| LfmSpec.HandleSpec | lfm/component.py:213-300 | in epoch 0 or once the latest epoch is completed the handler does nothing and returns no verdict; otherwise it returns a verdict exactly when the message is a need, offer, selection or status |
| LfmComponent.LFM.OnNeed | lfm/component.py:224-241 | the need is recorded, one request is published for it, then `process_epoch` runs |
| LfmComponent.LFM.AcceptNeed | lfm/component.py:224-239 | the need is recorded and its request is appended to the published events, keeping the state valid |
| LfmComponent.LFM.RecordNeedFields | lfm/component.py:228-238 | the state becomes the specification's record of the need |
| LfmProperties.NeedBeforeInitialPublishedTwice | lfm/component.py:224-241 | in an open market before the initial publication, the request of a handled need is published first by the need branch and again among the open requests |
| LfmProperties.NeedCounters | lfm/component.py:224-238 | a need is appended with its trigger id and its congestion id gets zero received and unset expected counts per producer, replacing earlier ones |
| LfmProperties.NeedPublishesOneRequest | lfm/component.py:224-241 | after the initial publication, handling a need publishes exactly one request for it, followed only by offerings |
| LfmProperties.NewNeedBlocksReadiness | lfm/component.py:229-235 | with at least one producer, a newly raised need makes the producers not ready |
| LfmComponent.LFM.OnOffer | lfm/component.py:243-261 | the offer is recorded by the counter rules, then `process_epoch` runs |
| LfmSpec.RecordOffer | lfm/component.py:246-258 | after an offer its producer's expected count is set and the open offers grow by one exactly for a non-zero offer |
| LfmComponent.LFM.RecordOfferFields | lfm/component.py:246-258 | the state becomes the specification's record of the offer |
| LfmComponent.LFM.SetExpectedCount | lfm/component.py:251-252 | the expected count is set from the offer only when it was unset; otherwise the table is unchanged |
| LfmComponent.LFM.CountBid | lfm/component.py:254-258 | the bid is appended to the open offers, its producer's received count goes up by one and its message id is added to the triggers |
| LfmProperties.OfferCounters | lfm/component.py:246-258 | the expected count is taken from the offer only while unset; a non-zero offer is appended, counted once and adds a trigger id; a zero offer changes nothing else |
| LfmProperties.ZeroOfferMakesReady | lfm/component.py:251-255 | a producer announcing zero offers is ready for that need without adding an offer |
| LfmProperties.ExtraOfferExceedsExpected | lfm/component.py:254-256 | a ready producer sending one more real bid has more received than expected and is no longer ready |
| LfmComponent.LFM.OnSelection | lfm/component.py:263-287 | the selection moves offers to results, adds a trigger id, publishes the market results, then `process_epoch` runs |
| LfmComponent.LFM.AcceptSelection | lfm/component.py:268-285 | the selection is recorded and the market results of the new state are appended, keeping the state valid |
| LfmComponent.LFM.RecordSelectionFields | lfm/component.py:268-284 | the state becomes the specification's record of the selection |
| LfmSpec.Select | lfm/component.py:268-281 | moved and left offers together are as many as the open offers |
| LfmComponent.LFM.MoveSelectedOffers | lfm/component.py:268-281 | after the nested loops and the compaction, the open offers and the results are those of the selection specification |
| LfmComponent.StrikeOffers | lfm/component.py:269-277 | one pass over the open offers sets every offer with the id to None and returns those offers in order |
| LfmComponent.StrikeLeavesRemaining | lfm/component.py:269-277 | after one pass, the values still present are exactly the offers whose id differs |
| LfmProperties.SelectPartition | lfm/component.py:268-281 | moved and left offers together are the open offers, nothing lost or duplicated |
| LfmProperties.SelectLeavesUnselected | lfm/component.py:268-281 | the offers left open are exactly those whose id was not selected, in their original order |
| LfmProperties.SelectMovesEverySelected | lfm/component.py:268-277 | every open offer with a selected id is moved, all of them and not only the first per id |
| LfmProperties.SelectNothing | lfm/component.py:268-281 | ids matching no open offer move nothing and leave the offers unchanged |
| LfmProperties.RepeatSelectionMovesNothing | lfm/component.py:268-281 | repeating a selection on what it left moves nothing |
| LfmProperties.UnknownIdIgnored | lfm/component.py:268-277 | an id that matches no offer still open is ignored |
| LfmProperties.SelectionOrderExample | lfm/component.py:268-281 | offers a(x), b(y), c(x) selected by y, x, x give the results b, a, c in that order and leave nothing open |
| LfmProperties.SelectionKeepsTotal | lfm/component.py:263-284 | the selection branch keeps the total number of open offers plus results |
| LfmComponent.LFM.OnStatus | lfm/component.py:289-297 | the status is recorded, then `process_epoch` runs |
| LfmProperties.StatusRule | lfm/component.py:289-294 | a status sets the flag of a configured procurer and changes nothing otherwise |
| LfmProperties.LastStatusCompletesProcurers | lfm/component.py:289-294 | the status of the last procurer that was not ready makes all procurers ready |
| LfmProperties.UnknownStatusIgnored | lfm/component.py:291-293 | a status from a source that is not a configured procurer leaves readiness unchanged |
| LfmProperties.HandleValid | lfm/component.py:213-300 | every branch of the handler keeps counters in place for every open need |
| LfmComponent.LFM.PublishRequest | lfm/component.py:302-323 | one request carrying the epoch, triggers and the need's fields is appended |
| LfmComponent.LFM.PublishOpenRequests | lfm/component.py:325-327 | one request per open need, in order |
| LfmSpec.RequestEvents | lfm/component.py:325-327 | as many requests as needs, the k-th built from the k-th need |
| LfmComponent.LFM.PublishOpenOffers | lfm/component.py:329-389 | for every procurer, in order, the offerings for each of the needs it raised |
| LfmComponent.LFM.CountAnswers | lfm/component.py:335-338 | the count is the number of open offers that answer the need's congestion id with a non-zero offer count |
| LfmComponent.LFM.PublishNeedOfferings | lfm/component.py:333-389 | for one need, the empty offering or the matching offerings are appended |
| LfmProperties.NeedOfferingsShape | lfm/component.py:334-389 | with no answering offer, exactly one empty offering with count 0; otherwise as many offerings as answering offers, each forwarding an answering offer with that count, and every answering offer forwarded |
| LfmProperties.MatchOfferingsShape | lfm/component.py:365-389 | every offering forwards some open offer answering the need, stamped with the count, and every answering offer is forwarded |
| LfmSpec.OfferingEvents | lfm/component.py:329-389 | `_publishOpenOffers` publishes LFM offerings only, each addressed to a configured procurer |
| LfmSpec.ProcurerOfferings | lfm/component.py:331-389 | the offerings for one procurer's needs are all addressed to that procurer |
| LfmProperties.ProcurerOfferingsNonEmpty | lfm/component.py:330-342 | a procurer gets at least one offering iff it raised at least one open need |
| LfmSpec.NeedOfferings | lfm/component.py:334-389 | one offering for a need with no answering offer, otherwise one per answering offer, all for that procurer and that congestion id |
| LfmSpec.MatchOfferings | lfm/component.py:365-389 | as many offerings as answering offers, each for that procurer and congestion id, carrying an offer id and the count |
| LfmComponent.LFM.PublishProcurerOfferings | lfm/component.py:331-389 | for each need of the procurer, in order, that need's offerings are appended |
| LfmComponent.LFM.PublishMatchOfferings | lfm/component.py:365-389 | one offering per answering open offer is appended, in the offers' order |
| LfmComponent.LFM.PublishMarketResult | lfm/component.py:391-443 | index -1 appends the empty record twice; an index appends the result's record with its congestion count |
| LfmSpec.MarketResultEvents | lfm/component.py:445-450 | two records with no results, otherwise one per result; all are market results |
| LfmComponent.LFM.PublishMarketResults | lfm/component.py:445-450 | the market results of the specification are appended |
| LfmProperties.MarketResultCounts | lfm/component.py:391-450 | no results give two empty records with count 0; otherwise one record per result in order, each count between 1 and the number of results |
| LfmProperties.CountCongestionPositive | lfm/component.py:418-421 | a result is counted among the results sharing its congestion id |
| SelectedOfferMessages.CheckOfferIds | LFMmessages/SelectedOfferMessage.py:96-106 | accepted iff a non-empty string, or a non-empty list whose elements are all strings |
| SelectedOfferMessages.AllStrings | LFMmessages/SelectedOfferMessage.py:102-105 | true iff every element is a string |
| SelectedOfferMessages.NullRefused | LFMmessages/SelectedOfferMessage.py:98-101 | None and values that are neither strings nor lists are refused |
| SelectedOfferMessages.EmptyRefused | LFMmessages/SelectedOfferMessage.py:100-101 | the empty string and the empty list are refused |
| SelectedOfferMessages.NonStringElementRefused | LFMmessages/SelectedOfferMessage.py:103-105 | a list with a non-string anywhere is refused |
| SelectedOfferMessages.SelectedOfferMessage.SetOfferIds | LFMmessages/SelectedOfferMessage.py:88-94 | an accepted value is stored as `list(value)`; otherwise MessageValueError carrying the value is raised and the old ids stay |
| SelectedOfferMessages.StringStoredAsCharacters | LFMmessages/SelectedOfferMessage.py:90-91 | a non-empty string passes and is stored as its one-character strings, which joined give it back |
| SelectedOfferMessages.StoreRoundTrip | LFMmessages/SelectedOfferMessage.py:88-106 | a non-empty list of ids passes the check and is stored unchanged |
| SelectedOfferMessages.StoreIdempotent | LFMmessages/SelectedOfferMessage.py:88-106 | what the setter stored passes again and is stored as it is |
| SelectedOfferMessages.Equal | LFMmessages/SelectedOfferMessage.py:75-81 | equal iff the other message is a SelectedOffer with the same header and the same offer ids |
| SelectedOfferMessages.EqualIsEquivalence | LFMmessages/SelectedOfferMessage.py:75-81 | `__eq__` is reflexive, symmetric and transitive on SelectedOffer messages |
| SelectedOfferMessages.OtherClassNeverEqual | LFMmessages/SelectedOfferMessage.py:79 | a SelectedOffer message never equals a message of another class |
| SelectedOfferMessages.EqualByOfferIds | LFMmessages/SelectedOfferMessage.py:80 | with equal headers, two SelectedOffer messages are equal iff their offer ids are |

## Left out

- Message bus, message generator and JSON serialisation: a publication is an `Event` appended to `outbox` and carries the fields the model uses. Topic names are not modelled. Offerings record their procurer instead.
- `asyncio`, component start-up, environment variables and logging (lfm/component.py:503-541 and every log line). A log line at lfm/component.py:156 reads the flat per-producer counters; it is not modelled.
- Date-time parsing in `clear_epoch_variables`: the start hour of the epoch is an input (`Hour`, 0 to 23). The end time is read but never used by the core.
- The framework base class: `start_epoch` becomes a direct call of `ProcessEpoch`, and marking an epoch completed is not modelled. The latest epoch, the completed epoch and the triggering message ids are plain fields that the caller sets. The base class is not part of this model.
- The constructor's flat per-producer entries in the counter tables (lfm/component.py:92-94) are not modelled. The core reads them only in a log line. A congestion id equal to a producer's name would overwrite one; that is not modelled either.
- The constructor names its sent flag `_epoch_offering_sent`, while the rest of the code uses `_epoch_LFMoffering_sent`. The model has one flag, lowered at construction.
- `process_epoch` before the first `clear_epoch_variables`: the source fails at `_marketOpen` (lfm/component.py:141, 498), because `_epoch_startime` is only set by `clear_epoch_variables` (lfm/component.py:114). The model's constructor instead starts with start hour 0, so such a call is answered from that hour; the failure is not modelled.
- An offer whose congestion id or producer has no counters makes the source raise `KeyError` (lfm/component.py:249-256). The model requires the counters to exist (`Admissible`, `OfferKnown`) instead of modelling the exception.
- Commented-out code and the unused `all_messages_received_for_epoch` (lfm/component.py:186-211, 452-474, 494-497).
- Field values of needs and offers that the core only copies: activation time, duration, direction, powers, price and customer ids. They are carried opaquely as `NeedBody`/`OfferBody`, and the float hours of the configuration are integers.
- The SelectedOffer message's field tables, `from_json` and factory registration (LFMmessages/SelectedOfferMessage.py:1-73, 108-115). The base class's `__eq__` is modelled as equality of headers. The abstract result message is not part of this model.
- SelectedOfferMessages.SelectedOfferMessage: the `offer_ids` getter is the field itself. The setter and `__eq__` are modelled; the constructor takes an already accepted value.
