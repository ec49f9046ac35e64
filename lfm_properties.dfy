/**
 * Properties of the LFM specification: what the epoch reset leaves, how
 * `process_epoch` decides and that a repeat call is quiet, the counter
 * rules of needs and offers, the selection of offers, and the shape of
 * what is published.
 */
module LfmProperties {
  import opened Wrappers
  import opened LfmTypes
  import opened LfmSpec

  // ---------------------------------------------------------------------
  // Epoch reset
  // ---------------------------------------------------------------------

  /** Lowering flags sets the listed procurers to false and keeps every other flag. */
  lemma {:induction false} LowerFlagsValues(m: map<string, bool>, procurers: seq<string>, p: string)
    requires p in m || p in procurers
    ensures p in LowerFlags(m, procurers)
    ensures LowerFlags(m, procurers)[p] == if p in procurers then false else m[p]
    decreases |procurers|
  {
    LowerFlagsKeys(m, procurers);
    if procurers != [] {
      var prefix, last := procurers[..|procurers| - 1], procurers[|procurers| - 1];
      assert procurers == prefix + [last];
      if p != last {
        LowerFlagsValues(m, prefix, p);
      }
    }
  }

  /**
   * `clear_epoch_variables`: the three lists are empty, every configured
   * procurer is not ready, both sent flags are down and the new start hour
   * is recorded.  The counter tables are left as they were: the
   * re-initialisation loop runs over the needs after they were emptied.
   */
  lemma ResetLaw(c: Config, s: State, hour: Hour)
    requires Valid(c, s)
    ensures var r := ClearSpec(c, s, hour);
      r.needs == [] && r.offers == [] && r.results == []
      && !r.initialSent && !r.offeringSent && r.startHour == hour
      && (forall p :: p in r.procurersReady <==> p in c.procurers)
      && (forall p :: p in r.procurersReady ==> !r.procurersReady[p])
      && r.received == s.received && r.expected == s.expected
      && r.latestEpoch == s.latestEpoch && r.triggers == s.triggers
      && Valid(c, r)
  {
    var r := ClearSpec(c, s, hour);
    ClearValid(c, s, hour);
    forall p | p in r.procurersReady ensures !r.procurersReady[p] {
      LowerFlagsKeys(s.procurersReady, c.procurers);
      LowerFlagsValues(s.procurersReady, c.procurers, p);
    }
  }

  /**
   * A fresh epoch in an open market with at least one procurer does not
   * finish at once: it publishes the (empty) market results, no requests
   * because the needs were purged, and waits.
   */
  lemma FreshEpochWaits(c: Config, s: State, hour: Hour)
    requires Valid(c, s) && |c.procurers| > 0
    requires MarketOpen(hour, c.openHour, c.closingHour)
    ensures var r := ClearSpec(c, s, hour);
      var d := ProcessEpochSpec(c, r);
      !d.done && d.emitted == [EmptyMarketResult(s.latestEpoch, s.triggers), EmptyMarketResult(s.latestEpoch, s.triggers)]
  {
    var r := ClearSpec(c, s, hour);
    ResetLaw(c, s, hour);
    var p := c.procurers[0];
    assert p in r.procurersReady && !r.procurersReady[p];
    assert !ProcurersReady(r.(initialSent := true));
    assert RequestEvents(r.latestEpoch, r.triggers, r.needs) == [];
    assert r.results == [];
  }

  // ---------------------------------------------------------------------
  // Readiness
  // ---------------------------------------------------------------------

  /** An unset expected count of any producer for any open need blocks readiness. */
  lemma UnsetExpectedBlocks(c: Config, s: State, i: nat, p: string)
    requires i < |s.needs| && p in c.producers
    requires s.needs[i].congestionId in s.expected && p in s.expected[s.needs[i].congestionId]
    requires s.expected[s.needs[i].congestionId][p] == None
    ensures !ProducersReady(c, s)
  {
    assert !ProducerReady(s, s.needs[i].congestionId, p);
  }

  /** A count that differs from the announced one blocks readiness too. */
  lemma MiscountBlocks(c: Config, s: State, i: nat, p: string, announced: int)
    requires i < |s.needs| && p in c.producers
    requires s.needs[i].congestionId in s.expected && p in s.expected[s.needs[i].congestionId]
    requires s.needs[i].congestionId in s.received && p in s.received[s.needs[i].congestionId]
    requires s.expected[s.needs[i].congestionId][p] == Some(announced)
    requires announced != s.received[s.needs[i].congestionId][p]
    ensures !ProducersReady(c, s)
  {
    assert !ProducerReady(s, s.needs[i].congestionId, p);
  }

  /** With counters in place, readiness is exactly "some need, and every count as announced". */
  lemma ProducersReadyIff(c: Config, s: State)
    requires Valid(c, s)
    ensures ProducersReady(c, s) <==>
      |s.needs| > 0 &&
      forall i, p :: 0 <= i < |s.needs| && p in c.producers ==>
        s.expected[s.needs[i].congestionId][p] == Some(s.received[s.needs[i].congestionId][p])
  {
    if |s.needs| > 0 && forall i, p :: 0 <= i < |s.needs| && p in c.producers ==>
        s.expected[s.needs[i].congestionId][p] == Some(s.received[s.needs[i].congestionId][p]) {
      forall i, p | 0 <= i < |s.needs| && p in c.producers
        ensures ProducerReady(s, s.needs[i].congestionId, p)
      {
        assert s.needs[i].congestionId in s.received;
      }
    }
  }

  /** A newly raised need blocks producer readiness as long as there is a producer. */
  lemma NewNeedBlocksReadiness(c: Config, s: State, n: Need)
    requires |c.producers| > 0
    ensures !ProducersReady(c, RecordNeed(c, s, n))
  {
    var r := RecordNeed(c, s, n);
    var p := c.producers[0];
    assert r.needs[|s.needs|] == n;
    UnsetExpectedBlocks(c, r, |s.needs|, p);
  }

  // ---------------------------------------------------------------------
  // The decision of process_epoch
  // ---------------------------------------------------------------------

  /** `process_epoch` answers true exactly in its first three cases. */
  lemma ProcessEpochDoneIff(c: Config, s: State)
    ensures var d := ProcessEpochSpec(c, s);
      d.done <==>
        !MarketOpen(s.startHour, c.openHour, c.closingHour)
        || (ProducersReady(c, s) && ProcurersReady(s))
        || (ProcurersReady(s) && |s.needs| == 0)
  {
    assert ProducersReady(c, s.(initialSent := true)) == ProducersReady(c, s);
  }

  /**
   * The offerings go out exactly when the market is open, the producers
   * are ready, some procurer is not, and they have not gone out yet; the
   * offering-sent flag then records it.
   */
  lemma OfferingsSentIff(c: Config, s: State)
    ensures var d := ProcessEpochSpec(c, s);
      var sends := MarketOpen(s.startHour, c.openHour, c.closingHour)
                   && ProducersReady(c, s) && !ProcurersReady(s) && !s.offeringSent;
      d.next.offeringSent == (s.offeringSent || sends)
      && d.emitted == InitialEvents(c, s)
           + (if sends then OfferingEvents(c.procurers, s.latestEpoch, s.triggers, s.offers, s.needs) else [])
  {
    assert ProducersReady(c, s.(initialSent := true)) == ProducersReady(c, s);
    var d := ProcessEpochSpec(c, s);
    if !(MarketOpen(s.startHour, c.openHour, c.closingHour)
         && ProducersReady(c, s) && !ProcurersReady(s) && !s.offeringSent) {
      assert d.emitted == InitialEvents(c, s) + [];
    }
  }

  /** A second `process_epoch` on the state the first one left publishes nothing and decides the same. */
  lemma {:induction false} RepeatIsQuiet(c: Config, s: State)
    ensures var d := ProcessEpochSpec(c, s);
      var d2 := ProcessEpochSpec(c, d.next);
      d2.emitted == [] && d2.done == d.done && d2.next == d.next
  {
    var d := ProcessEpochSpec(c, s);
    var s1 := s.(initialSent := true);
    assert ProducersReady(c, s1) == ProducersReady(c, s);
    var n := d.next;
    assert n.initialSent;
    assert n.(initialSent := true) == n;
    assert ProducersReady(c, n) == ProducersReady(c, s);
    assert ProcurersReady(n) == ProcurersReady(s);
    assert InitialEvents(c, n) == [];
    assert ProcessEpochSpec(c, n).emitted == [] + Decide(c, n).emitted;
  }

  /** In a closed market `process_epoch` finishes at once, publishing at most the market results. */
  lemma ClosedMarketFinishes(c: Config, s: State)
    requires !MarketOpen(s.startHour, c.openHour, c.closingHour)
    ensures var d := ProcessEpochSpec(c, s);
      d.done && d.next == s.(initialSent := true)
      && d.emitted == (if s.initialSent then [] else MarketResultEvents(s.latestEpoch, s.triggers, s.results))
      && forall e :: e in d.emitted ==> e.MarketResult?
  {
    var d := ProcessEpochSpec(c, s);
    assert d.emitted == InitialEvents(c, s) + [];
    if !s.initialSent {
      assert InitialEvents(c, s) == MarketResultEvents(s.latestEpoch, s.triggers, s.results) + [];
    }
  }

  /**
   * With the market open from 8 to 20, an epoch starting at 5 is closed
   * and one starting at 8 or at 20 is open.
   */
  lemma MarketWindowExample()
    ensures !MarketOpen(5, 8, 20) && MarketOpen(8, 8, 20) && MarketOpen(20, 8, 20) && !MarketOpen(21, 8, 20)
  {
  }

  /** Once every procurer is ready and nothing is needed, the epoch finishes. */
  lemma NoNeedsAllProcurersReady(c: Config, s: State)
    requires MarketOpen(s.startHour, c.openHour, c.closingHour)
    requires |s.needs| == 0 && ProcurersReady(s)
    ensures ProcessEpochSpec(c, s).done
    ensures ProcessEpochSpec(c, s).emitted == InitialEvents(c, s)
  {
    assert ProcessEpochSpec(c, s).emitted == InitialEvents(c, s) + [];
  }

  // ---------------------------------------------------------------------
  // Needs and offers
  // ---------------------------------------------------------------------

  /**
   * A need is appended with one trigger id, and its congestion id gets a
   * zero received count and an unset expected count for every producer,
   * replacing any counters an earlier need with that id had.
   */
  lemma NeedCounters(c: Config, s: State, n: Need)
    ensures var r := RecordNeed(c, s, n);
      r.needs == s.needs + [n] && r.triggers == s.triggers + [n.messageId]
      && (forall p :: p in r.received[n.congestionId] <==> p in c.producers)
      && (forall p :: p in c.producers ==> r.received[n.congestionId][p] == 0)
      && (forall p :: p in c.producers ==> r.expected[n.congestionId][p] == None)
      && (forall cid :: cid != n.congestionId && cid in s.received ==> r.received[cid] == s.received[cid])
      && r.offers == s.offers && r.results == s.results && r.procurersReady == s.procurersReady
  {
  }

  /**
   * A need handled after the initial publication publishes exactly one
   * request for it, followed only by offerings.
   */
  lemma NeedPublishesOneRequest(c: Config, s: State, n: Need)
    requires Active(s) && s.initialSent
    ensures var h := HandleSpec(c, s, NeedMsg(n));
      |h.emitted| >= 1 && h.emitted[0] == RequestOf(s.latestEpoch, s.triggers + [n.messageId], n)
      && (forall k :: 1 <= k < |h.emitted| ==> h.emitted[k].Offering?)
  {
    var r := RecordNeed(c, s, n);
    var e := Decide(c, r.(initialSent := true)).emitted;
    assert ProcessEpochSpec(c, r).emitted == [] + e;
    var h := HandleSpec(c, s, NeedMsg(n));
    assert h.emitted == [RequestOf(r.latestEpoch, r.triggers, n)] + e;
    forall k | 1 <= k < |h.emitted| ensures h.emitted[k].Offering? {
      assert h.emitted[k] == e[k - 1];
      assert e[k - 1] in e;
    }
  }

  /**
   * A need handled before the epoch's initial publication, in an open
   * market, has its request published twice: once by the need branch and
   * once more by the initial publication of `process_epoch`, which now
   * lists the new need last among the open needs.
   */
  lemma NeedBeforeInitialPublishedTwice(c: Config, s: State, n: Need)
    requires Active(s) && !s.initialSent && MarketOpen(s.startHour, c.openHour, c.closingHour)
    ensures var h := HandleSpec(c, s, NeedMsg(n));
      var req := RequestOf(s.latestEpoch, s.triggers + [n.messageId], n);
      var second := 1 + |MarketResultEvents(s.latestEpoch, s.triggers + [n.messageId], s.results)| + |s.needs|;
      second < |h.emitted| && h.emitted[0] == req && h.emitted[second] == req
  {
    var r := RecordNeed(c, s, n);
    var results := MarketResultEvents(r.latestEpoch, r.triggers, r.results);
    var requests := RequestEvents(r.latestEpoch, r.triggers, r.needs);
    var d := Decide(c, r.(initialSent := true));
    assert InitialEvents(c, r) == results + requests;
    var h := HandleSpec(c, s, NeedMsg(n));
    assert h.emitted == [RequestOf(r.latestEpoch, r.triggers, n)] + (results + requests + d.emitted);
    assert requests[|s.needs|] == RequestOf(r.latestEpoch, r.triggers, r.needs[|s.needs|]);
    assert h.emitted[1 + |results| + |s.needs|] == requests[|s.needs|];
  }

  /**
   * An offer: the expected count is taken from `offer_count` only while it
   * is unset; a real bid (non-zero count) is appended, counted once and
   * adds a trigger id; a zero count changes nothing else.
   */
  lemma OfferCounters(s: State, o: Offer)
    requires OfferKnown(s, o)
    ensures var r := RecordOffer(s, o);
      var cid, p := o.congestionId, o.producer;
      r.expected[cid][p] == (if s.expected[cid][p].None? then Some(o.offerCount) else s.expected[cid][p])
      && r.received[cid][p] == s.received[cid][p] + (if o.offerCount != 0 then 1 else 0)
      && r.offers == (if o.offerCount != 0 then s.offers + [o] else s.offers)
      && r.triggers == (if o.offerCount != 0 then s.triggers + [o.messageId] else s.triggers)
      && (forall q :: q != p && q in s.received[cid] ==> r.received[cid][q] == s.received[cid][q])
      && (forall q :: q != p && q in s.expected[cid] ==> r.expected[cid][q] == s.expected[cid][q])
      && r.needs == s.needs && r.results == s.results && r.procurersReady == s.procurersReady
  {
  }

  /**
   * A producer with nothing to offer answers with a zero count and is
   * then ready for that need without adding an offer.
   */
  lemma ZeroOfferMakesReady(s: State, o: Offer)
    requires OfferKnown(s, o) && o.offerCount == 0
    requires s.expected[o.congestionId][o.producer] == None && s.received[o.congestionId][o.producer] == 0
    ensures ProducerReady(RecordOffer(s, o), o.congestionId, o.producer)
    ensures RecordOffer(s, o).offers == s.offers
  {
  }

  /**
   * The received count is not capped by the expected one: a ready producer
   * that sends one more real bid has more offers received than announced,
   * and is no longer ready.
   */
  lemma ExtraOfferExceedsExpected(s: State, o: Offer)
    requires OfferKnown(s, o) && o.offerCount != 0
    requires ProducerReady(s, o.congestionId, o.producer)
    ensures var r := RecordOffer(s, o);
      var cid, p := o.congestionId, o.producer;
      r.expected[cid][p].Some? && r.received[cid][p] > r.expected[cid][p].value
      && !ProducerReady(r, cid, p)
  {
  }

  /** A status event sets the flag of a configured procurer and changes nothing otherwise. */
  lemma StatusRule(c: Config, s: State, source: string)
    ensures var r := RecordStatus(c, s, source);
      (source in c.procurers ==> source in r.procurersReady && r.procurersReady[source])
      && (source !in c.procurers ==> r == s)
      && (forall p :: p != source && p in s.procurersReady ==> p in r.procurersReady && r.procurersReady[p] == s.procurersReady[p])
  {
  }

  /** The status of the last procurer that was not ready completes the procurers. */
  lemma LastStatusCompletesProcurers(c: Config, s: State, source: string)
    requires Valid(c, s) && source in c.procurers
    requires forall p :: p in s.procurersReady && p != source ==> s.procurersReady[p]
    ensures ProcurersReady(RecordStatus(c, s, source))
  {
  }

  /** A status event from a source that is not a configured procurer leaves readiness as it was. */
  lemma UnknownStatusIgnored(c: Config, s: State, source: string)
    requires source !in c.procurers
    ensures ProcurersReady(RecordStatus(c, s, source)) == ProcurersReady(s)
  {
  }

  // ---------------------------------------------------------------------
  // Validity of every step
  // ---------------------------------------------------------------------

  lemma DecideValid(c: Config, s: State)
    requires Valid(c, s)
    ensures Valid(c, Decide(c, s).next)
  {
  }

  /** The handler keeps the counters in place for every open need. */
  lemma HandleValid(c: Config, s: State, m: Inbound)
    requires Valid(c, s) && Admissible(s, m)
    ensures Valid(c, HandleSpec(c, s, m).next)
  {
    if Active(s) {
      match m
      case NeedMsg(n) =>
        RecordNeedValid(c, s, n);
        DecideValid(c, RecordNeed(c, s, n).(initialSent := true));
      case OfferMsg(o) =>
        RecordOfferValid(c, s, o);
        DecideValid(c, RecordOffer(s, o).(initialSent := true));
      case SelectionMsg(ids, messageId) =>
        DecideValid(c, RecordSelection(s, ids, messageId).(initialSent := true));
      case StatusMsg(source, _) =>
        DecideValid(c, RecordStatus(c, s, source).(initialSent := true));
      case OtherMsg =>
    }
  }

  // ---------------------------------------------------------------------
  // Selection of offers
  // ---------------------------------------------------------------------

  /** The offers whose id is not in `ids`, in their order. */
  function Unselected(offers: seq<Offer>, ids: seq<string>): (r: seq<Offer>)
    ensures forall o :: o in r ==> o in offers && o.offerId !in ids
  {
    if offers == [] then []
    else
      var o := offers[|offers| - 1];
      Unselected(offers[..|offers| - 1], ids) + (if o.offerId !in ids then [o] else [])
  }

  /** The offers whose id is in `ids`, in their order. */
  function Chosen(offers: seq<Offer>, ids: seq<string>): seq<Offer>
  {
    if offers == [] then []
    else
      var o := offers[|offers| - 1];
      Chosen(offers[..|offers| - 1], ids) + (if o.offerId in ids then [o] else [])
  }

  lemma {:induction false} ChosenUnselectedSplit(offers: seq<Offer>, ids: seq<string>)
    ensures multiset(Chosen(offers, ids)) + multiset(Unselected(offers, ids)) == multiset(offers)
    decreases |offers|
  {
    if offers != [] {
      var prefix, o := offers[..|offers| - 1], offers[|offers| - 1];
      ChosenUnselectedSplit(prefix, ids);
      assert offers == prefix + [o];
    }
  }

  /** One id splits the offers into those it moves and those it leaves. */
  lemma {:induction false} MatchingRemainingSplit(offers: seq<Offer>, id: string)
    ensures multiset(Matching(offers, id)) + multiset(Remaining(offers, id)) == multiset(offers)
    decreases |offers|
  {
    if offers != [] {
      var prefix, o := offers[..|offers| - 1], offers[|offers| - 1];
      MatchingRemainingSplit(prefix, id);
      assert offers == prefix + [o];
    }
  }

  /** Nothing is lost or duplicated by a selection: moved and left together are the open offers. */
  lemma {:induction false} SelectPartition(offers: seq<Offer>, ids: seq<string>)
    ensures var sel := Select(offers, ids);
      multiset(sel.moved) + multiset(sel.left) == multiset(offers)
      && |sel.moved| + |sel.left| == |offers|
    decreases |ids|
  {
    var sel := Select(offers, ids);
    if ids != [] {
      var prev := Select(offers, ids[..|ids| - 1]);
      SelectPartition(offers, ids[..|ids| - 1]);
      MatchingRemainingSplit(prev.left, ids[|ids| - 1]);
    }
    assert |multiset(sel.moved) + multiset(sel.left)| == |multiset(offers)|;
  }

  lemma {:induction false} RemainingOfUnselected(offers: seq<Offer>, ids: seq<string>, id: string)
    ensures Remaining(Unselected(offers, ids), id) == Unselected(offers, ids + [id])
    decreases |offers|
  {
    if offers != [] {
      var prefix, o := offers[..|offers| - 1], offers[|offers| - 1];
      RemainingOfUnselected(prefix, ids, id);
      var u := Unselected(prefix, ids);
      if o.offerId !in ids {
        RemainingSnoc(u, o, id);
      } else {
        assert u + [] == u;
      }
    }
  }

  /**
   * The offers a selection leaves open are exactly those whose id was not
   * selected, in their original order.
   */
  lemma {:induction false} SelectLeavesUnselected(offers: seq<Offer>, ids: seq<string>)
    ensures Select(offers, ids).left == Unselected(offers, ids)
    decreases |ids|
  {
    if ids == [] {
      UnselectedNone(offers);
    } else {
      var prefix, id := ids[..|ids| - 1], ids[|ids| - 1];
      SelectLeavesUnselected(offers, prefix);
      RemainingOfUnselected(offers, prefix, id);
      assert ids == prefix + [id];
    }
  }

  lemma {:induction false} UnselectedNone(offers: seq<Offer>)
    ensures Unselected(offers, []) == offers
    decreases |offers|
  {
    if offers != [] {
      var prefix, o := offers[..|offers| - 1], offers[|offers| - 1];
      UnselectedNone(prefix);
      assert o.offerId !in [];
      assert Unselected(offers, []) == prefix + [o];
      assert prefix + [o] == offers;
    }
  }

  /**
   * Every open offer whose id is selected is moved to the results: the
   * moved offers are, up to order, exactly the offers with a selected id
   * (all of them, not only the first per id).
   */
  lemma SelectMovesEverySelected(offers: seq<Offer>, ids: seq<string>)
    ensures multiset(Select(offers, ids).moved) == multiset(Chosen(offers, ids))
    ensures forall o :: o in offers && o.offerId in ids ==> o in Select(offers, ids).moved
  {
    var moved, unselected := Select(offers, ids).moved, Unselected(offers, ids);
    SelectPartition(offers, ids);
    SelectLeavesUnselected(offers, ids);
    ChosenUnselectedSplit(offers, ids);
    CancelRight(multiset(moved), multiset(Chosen(offers, ids)), multiset(unselected));
    forall o | o in offers && o.offerId in ids ensures o in moved {
      SelectedNotLeft(offers, ids, moved, unselected, o);
    }
  }

  lemma SelectedNotLeft(offers: seq<Offer>, ids: seq<string>, moved: seq<Offer>, unselected: seq<Offer>, o: Offer)
    requires multiset(moved) + multiset(unselected) == multiset(offers)
    requires unselected == Unselected(offers, ids)
    requires o in offers && o.offerId in ids
    ensures o in moved
  {
    assert o !in unselected;
    assert multiset(offers)[o] == multiset(moved)[o] + multiset(unselected)[o];
  }

  lemma CancelRight(a: multiset<Offer>, b: multiset<Offer>, c: multiset<Offer>)
    requires a + c == b + c
    ensures a == b
  {
    forall x ensures a[x] == b[x] {
      assert (a + c)[x] == (b + c)[x];
    }
  }

  lemma {:induction false} NoMatch(offers: seq<Offer>, id: string)
    requires forall o :: o in offers ==> o.offerId != id
    ensures Matching(offers, id) == [] && Remaining(offers, id) == offers
    decreases |offers|
  {
    if offers != [] {
      var prefix, o := offers[..|offers| - 1], offers[|offers| - 1];
      assert offers == prefix + [o];
      NoMatch(prefix, id);
      MatchingSnoc(prefix, o, id);
      RemainingSnoc(prefix, o, id);
    }
  }

  /** A selection whose ids match no open offer moves nothing and leaves the offers as they are. */
  lemma {:induction false} SelectNothing(offers: seq<Offer>, ids: seq<string>)
    requires forall o :: o in offers ==> o.offerId !in ids
    ensures Select(offers, ids) == Selection([], offers)
    decreases |ids|
  {
    if ids != [] {
      var prefix, id := ids[..|ids| - 1], ids[|ids| - 1];
      SelectNothing(offers, prefix);
      NoMatch(offers, id);
    }
  }

  /** Repeating a selection on what it left moves nothing the second time. */
  lemma RepeatSelectionMovesNothing(offers: seq<Offer>, ids: seq<string>)
    ensures var left := Select(offers, ids).left;
      Select(left, ids) == Selection([], left)
  {
    SelectLeavesUnselected(offers, ids);
    SelectNothing(Select(offers, ids).left, ids);
  }

  /** An id that matches no offer still open is ignored. */
  lemma UnknownIdIgnored(offers: seq<Offer>, ids: seq<string>, id: string)
    requires forall o :: o in Select(offers, ids).left ==> o.offerId != id
    ensures Select(offers, ids + [id]) == Select(offers, ids)
  {
    NoMatch(Select(offers, ids).left, id);
    assert (ids + [id])[..|ids|] == ids;
  }

  /**
   * Selection order: with open offers a (id "x"), b (id "y"), c (id "x")
   * and the selection ["y", "x", "x"], the results receive b, then a and
   * c, the second "x" moves nothing, and no offer stays open.
   */
  lemma SelectionOrderExample(a: Offer, b: Offer, c: Offer)
    requires a.offerId == "x" && b.offerId == "y" && c.offerId == "x"
    ensures Select([a, b, c], ["y", "x", "x"]) == Selection([b, a, c], [])
  {
    ExampleSecondSelection(a, b, c);
    SelectSnoc([a, b, c], ["y", "x"], "x");
    assert ["y", "x"] + ["x"] == ["y", "x", "x"];
    assert Matching([], "x") == [] && Remaining([], "x") == [];
    assert [b, a, c] + [] == [b, a, c];
  }

  lemma ExampleFirstSelection(a: Offer, b: Offer, c: Offer)
    requires a.offerId == "x" && b.offerId == "y" && c.offerId == "x"
    ensures Select([a, b, c], ["y"]) == Selection([b], [a, c])
  {
    ExampleFirstRound(a, b, c);
    SelectSnoc([a, b, c], [], "y");
    assert [] + ["y"] == ["y"] && [] + [b] == [b];
  }

  lemma ExampleSecondSelection(a: Offer, b: Offer, c: Offer)
    requires a.offerId == "x" && b.offerId == "y" && c.offerId == "x"
    ensures Select([a, b, c], ["y", "x"]) == Selection([b, a, c], [])
  {
    ExampleFirstSelection(a, b, c);
    ExampleSecondRound(a, c);
    SelectSnoc([a, b, c], ["y"], "x");
    assert ["y"] + ["x"] == ["y", "x"] && [b] + [a, c] == [b, a, c];
  }

  lemma ExampleFirstRound(a: Offer, b: Offer, c: Offer)
    requires a.offerId == "x" && b.offerId == "y" && c.offerId == "x"
    ensures Matching([a, b, c], "y") == [b] && Remaining([a, b, c], "y") == [a, c]
  {
    assert "x" != "y";
    assert [a, b, c] == [a, b] + [c] && [a, b] == [a] + [b] && [a] == [] + [a];
    RemainingSnoc([], a, "y"); RemainingSnoc([a], b, "y"); RemainingSnoc([a, b], c, "y");
    MatchingSnoc([], a, "y"); MatchingSnoc([a], b, "y"); MatchingSnoc([a, b], c, "y");
  }

  lemma ExampleSecondRound(a: Offer, c: Offer)
    requires a.offerId == "x" && c.offerId == "x"
    ensures Matching([a, c], "x") == [a, c] && Remaining([a, c], "x") == []
  {
    assert [a, c] == [a] + [c] && [a] == [] + [a];
    RemainingSnoc([], a, "x"); RemainingSnoc([a], c, "x");
    MatchingSnoc([], a, "x"); MatchingSnoc([a], c, "x");
  }

  /** The selection branch keeps the total of open offers and results. */
  lemma SelectionKeepsTotal(s: State, ids: seq<string>, messageId: string)
    ensures var r := RecordSelection(s, ids, messageId);
      |r.offers| + |r.results| == |s.offers| + |s.results|
      && r.results[..|s.results|] == s.results
  {
    SelectPartition(s.offers, ids);
  }

  // ---------------------------------------------------------------------
  // Publication counts
  // ---------------------------------------------------------------------

  /**
   * The offerings for one need forward exactly the offers that answer it:
   * each offering is the forwarding of an answering open offer, stamped
   * with `k`, and every answering offer is forwarded.
   */
  lemma {:induction false} MatchOfferingsShape(procurer: string, epoch: nat, triggers: seq<string>,
                                               offers: seq<Offer>, cid: string, k: nat)
    ensures forall e :: e in MatchOfferings(procurer, epoch, triggers, offers, cid, k) ==>
      exists o :: o in offers && Answers(o, cid) && e == OfferingOf(procurer, epoch, triggers, o, k)
    ensures forall o :: o in offers && Answers(o, cid) ==>
      OfferingOf(procurer, epoch, triggers, o, k) in MatchOfferings(procurer, epoch, triggers, offers, cid, k)
    decreases |offers|
  {
    if offers != [] {
      var prefix, o := offers[..|offers| - 1], offers[|offers| - 1];
      MatchOfferingsShape(procurer, epoch, triggers, prefix, cid, k);
      var prev := MatchOfferings(procurer, epoch, triggers, prefix, cid, k);
      var evs := MatchOfferings(procurer, epoch, triggers, offers, cid, k);
      assert offers == prefix + [o];
      if Answers(o, cid) {
        assert evs == prev + [OfferingOf(procurer, epoch, triggers, o, k)];
      } else {
        assert evs == prev + [];
      }
    }
  }

  /**
   * For one need: one empty offering with count 0 when no real bid answers
   * it, otherwise one offering per answering offer, each forwarding that
   * offer and carrying the number of those offers.
   */
  lemma NeedOfferingsShape(procurer: string, epoch: nat, triggers: seq<string>, offers: seq<Offer>, n: Need)
    ensures var evs := NeedOfferings(procurer, epoch, triggers, offers, n);
      var k := MatchCount(offers, n.congestionId);
      (k == 0 ==> evs == [Offering(procurer, epoch, triggers, n.congestionId, None, None, 0)])
      && (k > 0 ==> |evs| == k)
      && (k > 0 ==> forall e :: e in evs ==>
            exists o :: o in offers && Answers(o, n.congestionId) && e == OfferingOf(procurer, epoch, triggers, o, k))
      && (k > 0 ==> forall o :: o in offers && Answers(o, n.congestionId) ==>
            OfferingOf(procurer, epoch, triggers, o, k) in evs)
  {
    MatchOfferingsShape(procurer, epoch, triggers, offers, n.congestionId, MatchCount(offers, n.congestionId));
  }

  /** A procurer is sent offerings exactly when it raised one of the open needs. */
  lemma {:induction false} ProcurerOfferingsNonEmpty(procurer: string, epoch: nat, triggers: seq<string>,
                                                     offers: seq<Offer>, needs: seq<Need>)
    ensures |ProcurerOfferings(procurer, epoch, triggers, offers, needs)| > 0
            <==> exists i :: 0 <= i < |needs| && needs[i].procurer == procurer
    decreases |needs|
  {
    if needs != [] {
      var prefix := needs[..|needs| - 1];
      ProcurerOfferingsNonEmpty(procurer, epoch, triggers, offers, prefix);
      assert forall i :: 0 <= i < |prefix| ==> prefix[i] == needs[i];
    }
  }

  /** A result is counted among the results that share its congestion id. */
  lemma {:induction false} CountCongestionPositive(rs: seq<Offer>, k: nat)
    requires k < |rs|
    ensures CountCongestion(rs, rs[k].congestionId) >= 1
    decreases |rs|
  {
    var prefix := rs[..|rs| - 1];
    if k < |rs| - 1 {
      assert prefix[k] == rs[k];
      CountCongestionPositive(prefix, k);
    }
  }

  /**
   * `_publishMarketResults`: with no results, the empty record (no ids, no
   * offer, count 0) is published twice; otherwise one record per result,
   * in order, whose count is the number of results sharing its congestion
   * id, so between 1 and the number of results.
   */
  lemma MarketResultCounts(epoch: nat, triggers: seq<string>, rs: seq<Offer>)
    ensures var evs := MarketResultEvents(epoch, triggers, rs);
      (|rs| == 0 ==> evs == [MarketResult(epoch, triggers, None, None, None, 0),
                             MarketResult(epoch, triggers, None, None, None, 0)])
      && (|rs| > 0 ==> |evs| == |rs| && forall k :: 0 <= k < |rs| ==>
            evs[k].resultOfferId == Some(rs[k].offerId)
            && 1 <= evs[k].resultCount <= |rs|)
  {
    forall k | 0 <= k < |rs| ensures 1 <= CountCongestion(rs, rs[k].congestionId) {
      CountCongestionPositive(rs, k);
    }
  }
}
