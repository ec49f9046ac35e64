/**
 * The per-epoch behaviour of the LFM component, stated as functions on the
 * state value.  Each method of the class `LFM` is proved to leave exactly
 * the state, and to publish exactly the events, that these functions give.
 */
module LfmSpec {
  import opened Wrappers
  import opened LfmTypes

  // ---------------------------------------------------------------------
  // Configuration and the shape of the counter tables
  // ---------------------------------------------------------------------

  function ProducerSet(c: Config): set<string> { set p | p in c.producers }

  function ProcurerSet(c: Config): set<string> { set p | p in c.procurers }

  /**
   * What every reachable state satisfies: one ready flag per configured
   * procurer; both counter tables have the same congestion ids, each with a
   * counter per configured producer; every open need has its counters.
   */
  ghost predicate Valid(c: Config, s: State)
  {
    (forall p :: p in s.procurersReady <==> p in c.procurers)
    && CountersShaped(c, s.received, s.expected)
    && NeedsCounted(s.needs, s.received)
  }

  /** Both tables have the same congestion ids, each with one counter per configured producer. */
  ghost predicate CountersShaped(c: Config, received: map<string, map<string, nat>>,
                                 expected: map<string, map<string, Option<int>>>)
  {
    (forall cid :: cid in received <==> cid in expected)
    && (forall cid, p :: cid in received ==> (p in received[cid] <==> p in c.producers))
    && (forall cid, p :: cid in expected ==> (p in expected[cid] <==> p in c.producers))
  }

  /** Every open need has its counters. */
  ghost predicate NeedsCounted(needs: seq<Need>, received: map<string, map<string, nat>>)
  {
    forall i :: 0 <= i < |needs| ==> needs[i].congestionId in received
  }

  /** The counters a need starts with: nothing received from any producer ... */
  function ZeroCounts(producers: seq<string>): map<string, nat>
  {
    map p | p in producers :: 0
  }

  /** ... and no expected count known yet. */
  function UnsetCounts(producers: seq<string>): map<string, Option<int>>
  {
    map p | p in producers :: None
  }

  // ---------------------------------------------------------------------
  // Market window and readiness
  // ---------------------------------------------------------------------

  /**
   * `_marketOpen`: only the hour at which the epoch starts is compared with
   * the configured hours, inclusively at both ends.
   */
  function MarketOpen(startHour: int, openHour: int, closingHour: int): (open: bool)
    ensures open <==> openHour <= startHour && startHour <= closingHour
  {
    !(startHour < openHour || startHour > closingHour)
  }

  /**
   * A producer has sent all the offers it announced for a congestion id:
   * its expected count is set and equals its received count.
   */
  predicate ProducerReady(s: State, cid: string, p: string)
  {
    cid in s.received && p in s.received[cid] && cid in s.expected && p in s.expected[cid]
    && s.expected[cid][p] == Some(s.received[cid][p])
  }

  /**
   * Every configured producer is ready for every open need; an epoch
   * without needs is never producer-ready.
   */
  predicate ProducersReady(c: Config, s: State)
  {
    |s.needs| > 0 &&
    forall i, p :: 0 <= i < |s.needs| && p in c.producers ==>
      ProducerReady(s, s.needs[i].congestionId, p)
  }

  /** The conjunction of all procurer ready flags. */
  predicate ProcurersReady(s: State)
  {
    forall p :: p in s.procurersReady ==> s.procurersReady[p]
  }

  // ---------------------------------------------------------------------
  // Published events
  // ---------------------------------------------------------------------

  /** `_publishRequest`: the request copies the need's fields. */
  function RequestOf(epoch: nat, triggers: seq<string>, n: Need): Event
  {
    Request(epoch, triggers, n.congestionId, n.body)
  }

  /** `_publishOpenRequests`: one request per open need, in order. */
  function RequestEvents(epoch: nat, triggers: seq<string>, needs: seq<Need>): (evs: seq<Event>)
    ensures |evs| == |needs|
    ensures forall k :: 0 <= k < |needs| ==> evs[k] == RequestOf(epoch, triggers, needs[k])
  {
    if needs == [] then []
    else RequestEvents(epoch, triggers, needs[..|needs| - 1])
         + [RequestOf(epoch, triggers, needs[|needs| - 1])]
  }

  /** How many of the results answer congestion `cid`. */
  function CountCongestion(rs: seq<Offer>, cid: string): (n: nat)
    ensures n <= |rs|
  {
    if rs == [] then 0
    else CountCongestion(rs[..|rs| - 1], cid) + (if rs[|rs| - 1].congestionId == cid then 1 else 0)
  }

  /** The market result published when there are no results. */
  function EmptyMarketResult(epoch: nat, triggers: seq<string>): Event
  {
    MarketResult(epoch, triggers, None, None, None, 0)
  }

  /** `_publishMarketResult(k)` for an existing result. */
  function MarketResultOf(epoch: nat, triggers: seq<string>, rs: seq<Offer>, k: nat): Event
    requires k < |rs|
  {
    MarketResult(epoch, triggers, Some(rs[k].congestionId), Some(rs[k].offerId), Some(rs[k].body),
                 CountCongestion(rs, rs[k].congestionId))
  }

  /** The market results of the first `n` results. */
  function ResultEventsUpTo(epoch: nat, triggers: seq<string>, rs: seq<Offer>, n: nat): (evs: seq<Event>)
    requires n <= |rs|
    ensures |evs| == n
    ensures forall k :: 0 <= k < n ==> evs[k] == MarketResultOf(epoch, triggers, rs, k)
  {
    if n == 0 then []
    else ResultEventsUpTo(epoch, triggers, rs, n - 1) + [MarketResultOf(epoch, triggers, rs, n - 1)]
  }

  /**
   * `_publishMarketResults`: one market result per result; with no results
   * `_publishMarketResult(-1)` sends the empty market result twice.
   */
  function MarketResultEvents(epoch: nat, triggers: seq<string>, rs: seq<Offer>): (evs: seq<Event>)
    ensures |evs| == if |rs| == 0 then 2 else |rs|
    ensures forall e :: e in evs ==> e.MarketResult?
  {
    if |rs| == 0 then [EmptyMarketResult(epoch, triggers), EmptyMarketResult(epoch, triggers)]
    else ResultEventsUpTo(epoch, triggers, rs, |rs|)
  }

  /** An offer answers congestion `cid` and is a real bid. */
  predicate Answers(o: Offer, cid: string)
  {
    o.congestionId == cid && o.offerCount != 0
  }

  /** The number of open offers that answer congestion `cid`. */
  function MatchCount(offers: seq<Offer>, cid: string): (n: nat)
    ensures n <= |offers|
  {
    if offers == [] then 0
    else MatchCount(offers[..|offers| - 1], cid) + (if Answers(offers[|offers| - 1], cid) then 1 else 0)
  }

  /** The offering sent to a procurer when no offer answers its need. */
  function EmptyOffering(procurer: string, epoch: nat, triggers: seq<string>, cid: string): Event
  {
    Offering(procurer, epoch, triggers, cid, None, None, 0)
  }

  /** The offering that forwards offer `o`, stamped with the match count `k`. */
  function OfferingOf(procurer: string, epoch: nat, triggers: seq<string>, o: Offer, k: nat): Event
  {
    Offering(procurer, epoch, triggers, o.congestionId, Some(o.offerId), Some(o.body), k)
  }

  /** One offering per offer that answers `cid`, in offer order. */
  function MatchOfferings(procurer: string, epoch: nat, triggers: seq<string>,
                          offers: seq<Offer>, cid: string, k: nat): (evs: seq<Event>)
    ensures |evs| == MatchCount(offers, cid)
    ensures forall e :: e in evs ==>
      e.Offering? && e.procurer == procurer && e.congestionId == cid && e.offerId.Some? && e.offerCount == k
  {
    if offers == [] then []
    else
      var o := offers[|offers| - 1];
      MatchOfferings(procurer, epoch, triggers, offers[..|offers| - 1], cid, k)
      + (if Answers(o, cid) then [OfferingOf(procurer, epoch, triggers, o, k)] else [])
  }

  /** The offerings sent to `procurer` for its need `n`. */
  function NeedOfferings(procurer: string, epoch: nat, triggers: seq<string>,
                         offers: seq<Offer>, n: Need): (evs: seq<Event>)
    ensures |evs| == if MatchCount(offers, n.congestionId) == 0 then 1 else MatchCount(offers, n.congestionId)
    ensures forall e :: e in evs ==> e.Offering? && e.procurer == procurer && e.congestionId == n.congestionId
  {
    var k := MatchCount(offers, n.congestionId);
    if k == 0 then [EmptyOffering(procurer, epoch, triggers, n.congestionId)]
    else MatchOfferings(procurer, epoch, triggers, offers, n.congestionId, k)
  }

  /** The offerings sent to `procurer` for the open needs it raised. */
  function ProcurerOfferings(procurer: string, epoch: nat, triggers: seq<string>,
                             offers: seq<Offer>, needs: seq<Need>): (evs: seq<Event>)
    ensures forall e :: e in evs ==> e.Offering? && e.procurer == procurer
  {
    if needs == [] then []
    else
      var n := needs[|needs| - 1];
      ProcurerOfferings(procurer, epoch, triggers, offers, needs[..|needs| - 1])
      + (if n.procurer == procurer then NeedOfferings(procurer, epoch, triggers, offers, n) else [])
  }

  /** `_publishOpenOffers`: the offerings for every configured procurer, in order. */
  function OfferingEvents(procurers: seq<string>, epoch: nat, triggers: seq<string>,
                          offers: seq<Offer>, needs: seq<Need>): (evs: seq<Event>)
    ensures forall e :: e in evs ==> e.Offering? && e.procurer in procurers
  {
    if procurers == [] then []
    else OfferingEvents(procurers[..|procurers| - 1], epoch, triggers, offers, needs)
         + ProcurerOfferings(procurers[|procurers| - 1], epoch, triggers, offers, needs)
  }

  // ---------------------------------------------------------------------
  // Selection
  // ---------------------------------------------------------------------

  /** The open offers whose id is `id`, in order. */
  function Matching(offers: seq<Offer>, id: string): seq<Offer>
  {
    if offers == [] then []
    else
      var o := offers[|offers| - 1];
      Matching(offers[..|offers| - 1], id) + (if o.offerId == id then [o] else [])
  }

  /** The open offers whose id is not `id`, in order. */
  function Remaining(offers: seq<Offer>, id: string): (r: seq<Offer>)
    ensures |Matching(offers, id)| + |r| == |offers|
  {
    if offers == [] then []
    else
      var o := offers[|offers| - 1];
      Remaining(offers[..|offers| - 1], id) + (if o.offerId == id then [] else [o])
  }

  lemma MatchingSnoc(offers: seq<Offer>, o: Offer, id: string)
    ensures Matching(offers + [o], id) == Matching(offers, id) + (if o.offerId == id then [o] else [])
  {
    assert (offers + [o])[..|offers|] == offers;
  }

  lemma RemainingSnoc(offers: seq<Offer>, o: Offer, id: string)
    ensures Remaining(offers + [o], id) == Remaining(offers, id) + (if o.offerId == id then [] else [o])
  {
    assert (offers + [o])[..|offers|] == offers;
  }

  /** The offers a selection moves to the results and those it leaves open. */
  datatype Selection = Selection(moved: seq<Offer>, left: seq<Offer>)

  /**
   * A selection takes its ids in order; each id moves every still-open
   * offer with that id, in offer order.
   */
  function Select(offers: seq<Offer>, ids: seq<string>): (sel: Selection)
    ensures |sel.moved| + |sel.left| == |offers|
  {
    if ids == [] then Selection([], offers)
    else
      var prev := Select(offers, ids[..|ids| - 1]);
      var id := ids[|ids| - 1];
      Selection(prev.moved + Matching(prev.left, id), Remaining(prev.left, id))
  }

  lemma SelectSnoc(offers: seq<Offer>, ids: seq<string>, id: string)
    ensures var prev := Select(offers, ids);
      Select(offers, ids + [id]) == Selection(prev.moved + Matching(prev.left, id), Remaining(prev.left, id))
  {
    assert (ids + [id])[..|ids|] == ids;
  }

  // ---------------------------------------------------------------------
  // State changes
  // ---------------------------------------------------------------------

  /** The state right after construction. */
  function InitialState(c: Config): State
  {
    State([], [], [], map[], map[], map p | p in c.procurers :: false,
          false, false, 0, 0, 0, [])
  }

  /** The counter-reinitialisation loop of `clear_epoch_variables`, over `needs`. */
  function ReinitReceived(m: map<string, map<string, nat>>, needs: seq<Need>,
                          producers: seq<string>): map<string, map<string, nat>>
  {
    if needs == [] then m
    else ReinitReceived(m, needs[..|needs| - 1], producers)[needs[|needs| - 1].congestionId := ZeroCounts(producers)]
  }

  function ReinitExpected(m: map<string, map<string, Option<int>>>, needs: seq<Need>,
                          producers: seq<string>): map<string, map<string, Option<int>>>
  {
    if needs == [] then m
    else ReinitExpected(m, needs[..|needs| - 1], producers)[needs[|needs| - 1].congestionId := UnsetCounts(producers)]
  }

  /** The procurer-flag loop of `clear_epoch_variables`. */
  function LowerFlags(m: map<string, bool>, procurers: seq<string>): map<string, bool>
  {
    if procurers == [] then m
    else LowerFlags(m, procurers[..|procurers| - 1])[procurers[|procurers| - 1] := false]
  }

  /**
   * `clear_epoch_variables`: record the new start hour, purge the three
   * lists, re-initialise the counters of the (now empty) list of needs,
   * lower every procurer flag and both sent flags.
   */
  function ClearSpec(c: Config, s: State, hour: Hour): (r: State)
    ensures r.needs == [] && r.offers == [] && r.results == [] && r.startHour == hour
    ensures r.received == s.received && r.expected == s.expected
    ensures !r.initialSent && !r.offeringSent
  {
    var purged := s.(startHour := hour, needs := [], offers := [], results := []);
    purged.(received := ReinitReceived(purged.received, purged.needs, c.producers),
            expected := ReinitExpected(purged.expected, purged.needs, c.producers),
            procurersReady := LowerFlags(purged.procurersReady, c.procurers),
            initialSent := false,
            offeringSent := false)
  }

  /**
   * `process_epoch`: the initial publication, then the decision in the
   * source's order.
   */
  function ProcessEpochSpec(c: Config, s: State): (d: Decision)
    ensures d.next == s.(initialSent := true, offeringSent := d.next.offeringSent)
    ensures !MarketOpen(s.startHour, c.openHour, c.closingHour) ==> d.done
  {
    var d := Decide(c, s.(initialSent := true));
    Decision(d.done, d.next, InitialEvents(c, s) + d.emitted)
  }

  /**
   * The publication `process_epoch` makes once per epoch: the market
   * results and, if the market is open, a request per need.
   */
  function InitialEvents(c: Config, s: State): seq<Event>
  {
    if s.initialSent then []
    else MarketResultEvents(s.latestEpoch, s.triggers, s.results)
         + (if MarketOpen(s.startHour, c.openHour, c.closingHour)
            then RequestEvents(s.latestEpoch, s.triggers, s.needs) else [])
  }

  /**
   * The decision of `process_epoch` after the initial publication, in the
   * source's order: closed market, everyone ready, no needs and procurers
   * ready, then the offerings once when the producers are ready.
   */
  function Decide(c: Config, s: State): (d: Decision)
    ensures d.next == s.(offeringSent := d.next.offeringSent)
    ensures d.emitted != [] ==> !d.done && !s.offeringSent && d.next.offeringSent
    ensures d.done ==> d.emitted == []
  {
    if !MarketOpen(s.startHour, c.openHour, c.closingHour) then Decision(true, s, [])
    else if ProducersReady(c, s) && ProcurersReady(s) then Decision(true, s, [])
    else if ProcurersReady(s) && |s.needs| == 0 then Decision(true, s, [])
    else if ProducersReady(c, s) && !s.offeringSent then
      Decision(false, s.(offeringSent := true),
               OfferingEvents(c.procurers, s.latestEpoch, s.triggers, s.offers, s.needs))
    else Decision(false, s, [])
  }

  /** The need branch of the handler, before its request and `start_epoch`. */
  function RecordNeed(c: Config, s: State, n: Need): State
  {
    s.(needs := s.needs + [n],
       received := s.received[n.congestionId := ZeroCounts(c.producers)],
       expected := s.expected[n.congestionId := UnsetCounts(c.producers)],
       triggers := s.triggers + [n.messageId])
  }

  /** The counters an offer updates exist (otherwise the source raises `KeyError`). */
  predicate OfferKnown(s: State, o: Offer)
  {
    o.congestionId in s.expected && o.producer in s.expected[o.congestionId]
    && o.congestionId in s.received && o.producer in s.received[o.congestionId]
  }

  /** The offer branch of the handler, before its `start_epoch`. */
  function RecordOffer(s: State, o: Offer): (r: State)
    requires OfferKnown(s, o)
    ensures OfferKnown(r, o) && r.expected[o.congestionId][o.producer].Some?
    ensures |r.offers| == |s.offers| + (if o.offerCount != 0 then 1 else 0)
  {
    var cid, p := o.congestionId, o.producer;
    var expected' := AnnouncedCounts(s.expected, o);
    if o.offerCount == 0 then s.(expected := expected')
    else
      s.(expected := expected',
         offers := s.offers + [o],
         received := s.received[cid := s.received[cid][p := s.received[cid][p] + 1]],
         triggers := s.triggers + [o.messageId])
  }

  /** The selection branch of the handler, before its publications. */
  function RecordSelection(s: State, ids: seq<string>, messageId: string): State
  {
    var sel := Select(s.offers, ids);
    s.(offers := sel.left, results := s.results + sel.moved, triggers := s.triggers + [messageId])
  }

  /** The status branch of the handler: only a configured procurer is marked ready. */
  function RecordStatus(c: Config, s: State, source: string): State
  {
    if source in c.procurers then s.(procurersReady := s.procurersReady[source := true]) else s
  }

  /** The handler acts only in a started epoch that is not completed yet. */
  predicate Active(s: State)
  {
    s.latestEpoch != 0 && s.completedEpoch != s.latestEpoch
  }

  /** What the source demands of an inbound message: an offer the handler reaches has counters. */
  predicate Admissible(s: State, m: Inbound)
  {
    m.OfferMsg? && Active(s) ==> OfferKnown(s, m.offer)
  }

  /** `general_message_handler`, with `start_epoch` as a call of `process_epoch`. */
  function HandleSpec(c: Config, s: State, m: Inbound): (h: Handled)
    requires Admissible(s, m)
    ensures !Active(s) ==> h == Handled(None, s, [])
    ensures Active(s) ==> (h.verdict.None? <==> m.OtherMsg?)
  {
    if !Active(s) then Handled(None, s, [])
    else
      match m
      case NeedMsg(n) =>
        var s1 := RecordNeed(c, s, n);
        var d := ProcessEpochSpec(c, s1);
        Handled(Some(d.done), d.next, [RequestOf(s1.latestEpoch, s1.triggers, n)] + d.emitted)
      case OfferMsg(o) =>
        var d := ProcessEpochSpec(c, RecordOffer(s, o));
        Handled(Some(d.done), d.next, d.emitted)
      case SelectionMsg(ids, messageId) =>
        var s1 := RecordSelection(s, ids, messageId);
        var d := ProcessEpochSpec(c, s1);
        Handled(Some(d.done), d.next, MarketResultEvents(s1.latestEpoch, s1.triggers, s1.results) + d.emitted)
      case StatusMsg(source, _) =>
        var d := ProcessEpochSpec(c, RecordStatus(c, s, source));
        Handled(Some(d.done), d.next, d.emitted)
      case OtherMsg =>
        Handled(None, s, [])
  }

  /** The need branch of the handler in an active epoch. */
  lemma HandleNeed(c: Config, s: State, n: Need)
    requires Active(s)
    ensures var s1 := RecordNeed(c, s, n);
      var d := ProcessEpochSpec(c, s1);
      HandleSpec(c, s, NeedMsg(n)) == Handled(Some(d.done), d.next, [RequestOf(s1.latestEpoch, s1.triggers, n)] + d.emitted)
  {
  }

  /** The offer branch of the handler in an active epoch. */
  lemma HandleOffer(c: Config, s: State, o: Offer)
    requires Active(s) && OfferKnown(s, o)
    ensures var d := ProcessEpochSpec(c, RecordOffer(s, o));
      HandleSpec(c, s, OfferMsg(o)) == Handled(Some(d.done), d.next, d.emitted)
  {
  }

  /** The status branch of the handler in an active epoch. */
  lemma HandleStatus(c: Config, s: State, source: string, messageId: string)
    requires Active(s)
    ensures var d := ProcessEpochSpec(c, RecordStatus(c, s, source));
      HandleSpec(c, s, StatusMsg(source, messageId)) == Handled(Some(d.done), d.next, d.emitted)
  {
  }

  /** The selection branch of the handler in an active epoch. */
  lemma HandleSelection(c: Config, s: State, ids: seq<string>, messageId: string)
    requires Active(s)
    ensures var s1 := RecordSelection(s, ids, messageId);
      var d := ProcessEpochSpec(c, s1);
      HandleSpec(c, s, SelectionMsg(ids, messageId))
        == Handled(Some(d.done), d.next, MarketResultEvents(s1.latestEpoch, s1.triggers, s1.results) + d.emitted)
  {
  }

  // ---------------------------------------------------------------------
  // Every step keeps the state valid
  // ---------------------------------------------------------------------

  lemma InitialValid(c: Config)
    ensures Valid(c, InitialState(c))
  {
  }

  lemma RecordNeedValid(c: Config, s: State, n: Need)
    requires Valid(c, s)
    ensures Valid(c, RecordNeed(c, s, n))
  {
    var r := RecordNeed(c, s, n);
    forall i | 0 <= i < |r.needs| ensures r.needs[i].congestionId in r.received {
      if i < |s.needs| { assert r.needs[i] == s.needs[i]; }
    }
  }

  lemma RecordOfferValid(c: Config, s: State, o: Offer)
    requires Valid(c, s) && OfferKnown(s, o)
    ensures Valid(c, RecordOffer(s, o))
  {
    var expected' := AnnouncedCounts(s.expected, o);
    AnnouncedShaped(c, s, o);
    if o.offerCount != 0 {
      var cid, p := o.congestionId, o.producer;
      var row: map<string, nat> := s.received[cid][p := s.received[cid][p] + 1];
      ReceivedUpdateShaped(c, s.received, expected', cid, p, s.received[cid][p] + 1);
      NeedsStayCounted(s.needs, s.received, cid, row);
      assert RecordOffer(s, o) == s.(expected := expected', offers := s.offers + [o],
                                     received := s.received[cid := row], triggers := s.triggers + [o.messageId]);
    } else {
      assert RecordOffer(s, o) == s.(expected := expected');
    }
  }

  /** The expected counts after offer `o`: its producer's count is set from the offer if unset. */
  function AnnouncedCounts(expected: map<string, map<string, Option<int>>>, o: Offer): map<string, map<string, Option<int>>>
    requires o.congestionId in expected && o.producer in expected[o.congestionId]
  {
    var cid, p := o.congestionId, o.producer;
    if expected[cid][p].None? then expected[cid := expected[cid][p := Some(o.offerCount)]] else expected
  }

  lemma AnnouncedShaped(c: Config, s: State, o: Offer)
    requires Valid(c, s) && OfferKnown(s, o)
    ensures CountersShaped(c, s.received, AnnouncedCounts(s.expected, o))
  {
    if s.expected[o.congestionId][o.producer].None? {
      ExpectedUpdateShaped(c, s.received, s.expected, o.congestionId, o.producer, Some(o.offerCount));
    }
  }

  lemma ExpectedUpdateShaped(c: Config, received: map<string, map<string, nat>>,
                             expected: map<string, map<string, Option<int>>>,
                             cid: string, p: string, v: Option<int>)
    requires CountersShaped(c, received, expected) && cid in expected && p in expected[cid]
    ensures CountersShaped(c, received, expected[cid := expected[cid][p := v]])
  {
  }

  lemma ReceivedUpdateShaped(c: Config, received: map<string, map<string, nat>>,
                             expected: map<string, map<string, Option<int>>>,
                             cid: string, p: string, v: nat)
    requires CountersShaped(c, received, expected) && cid in received && p in received[cid]
    ensures var row: map<string, nat> := received[cid][p := v]; CountersShaped(c, received[cid := row], expected)
  {
  }

  lemma NeedsStayCounted(needs: seq<Need>, received: map<string, map<string, nat>>,
                         cid: string, row: map<string, nat>)
    requires NeedsCounted(needs, received)
    ensures NeedsCounted(needs, received[cid := row])
  {
  }

  /** Lowering flags adds the listed procurers as keys and removes none. */
  lemma {:induction false} LowerFlagsKeys(m: map<string, bool>, procurers: seq<string>)
    ensures forall p :: p in LowerFlags(m, procurers) <==> p in m || p in procurers
    decreases |procurers|
  {
    if procurers != [] {
      var ps := procurers[..|procurers| - 1];
      LowerFlagsKeys(m, ps);
      assert procurers == ps + [procurers[|procurers| - 1]];
    }
  }

  lemma ClearValid(c: Config, s: State, hour: Hour)
    requires Valid(c, s)
    ensures Valid(c, ClearSpec(c, s, hour))
  {
    LowerFlagsKeys(s.procurersReady, c.procurers);
  }

  lemma CountsSnoc(producers: seq<string>, p: string)
    ensures ZeroCounts(producers + [p]) == ZeroCounts(producers)[p := 0]
    ensures UnsetCounts(producers + [p]) == UnsetCounts(producers)[p := None]
  {
  }
}
