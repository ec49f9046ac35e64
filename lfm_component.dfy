/**
 * The LFM component: its per-epoch state as fields of a class, updated in
 * place by the epoch reset, `process_epoch` and the message handler.  The
 * message bus is the field `outbox`, to which every publication appends.
 * Each method is proved to leave the state and publish the events that
 * the corresponding function of `LfmSpec` gives for the old state.
 */
module LfmComponent {
  import opened Wrappers
  import opened LfmTypes
  import opened LfmSpec
  import Slots

  /** One entry after the selection loop has looked at it for id `id`. */
  function Struck(x: Option<Offer>, id: string): Option<Offer>
  {
    if x.Some? && x.value.offerId == id then None else x
  }

  /**
   * The offers list after the selection loop has looked at every entry
   * of `slots` for id `id`: each open offer with that id is now `None`.
   */
  ghost function Strike(slots: seq<Option<Offer>>, id: string): (r: seq<Option<Offer>>)
    ensures |r| == |slots|
    ensures forall k :: 0 <= k < |slots| ==> r[k] == Struck(slots[k], id)
  {
    seq(|slots|, k requires 0 <= k < |slots| => Struck(slots[k], id))
  }

  /** Striking an id out of the list leaves open exactly the offers with another id. */
  lemma {:induction false} StrikeLeavesRemaining(slots: seq<Option<Offer>>, id: string)
    ensures Slots.Present(Strike(slots, id)) == Remaining(Slots.Present(slots), id)
    decreases |slots|
  {
    if slots != [] {
      var prefix, x := slots[..|slots| - 1], slots[|slots| - 1];
      StrikeLeavesRemaining(prefix, id);
      var struck, present := Strike(prefix, id), Slots.Present(prefix);
      assert Strike(slots, id) == struck + [Struck(x, id)];
      assert slots == prefix + [x];
      Slots.PresentSnoc(struck, Struck(x, id));
      Slots.PresentSnoc(prefix, x);
      if x.Some? {
        RemainingSnoc(present, x.value, id);
      } else {
        assert present + [] == present;
        assert Remaining(present, id) + [] == Remaining(present, id);
      }
    }
  }

  /**
   * One round of the selection loop: every open offer in `slots` whose id
   * is `id`, in list order, is collected into `matched` and overwritten
   * with `None`.  No `break`: all offers with that id are taken.
   */
  method StrikeOffers(slots: seq<Option<Offer>>, id: string)
      returns (after: seq<Option<Offer>>, matched: seq<Offer>)
    ensures after == Strike(slots, id)
    ensures matched == Matching(Slots.Present(slots), id)
  {
    after, matched := slots, [];
    for offerIndex := 0 to |slots|
      invariant |after| == |slots|
      invariant forall k :: 0 <= k < offerIndex ==> after[k] == Struck(slots[k], id)
      invariant forall k :: offerIndex <= k < |slots| ==> after[k] == slots[k]
      invariant matched == Matching(Slots.Present(slots[..offerIndex]), id)
    {
      ghost var done := slots[..offerIndex];
      assert slots[..offerIndex + 1] == done + [slots[offerIndex]];
      Slots.PresentSnoc(done, slots[offerIndex]);
      if after[offerIndex] == None {
        assert Slots.Present(done) + [] == Slots.Present(done);
        continue;
      }
      var offer := after[offerIndex].value;
      MatchingSnoc(Slots.Present(done), offer, id);
      if offer.offerId == id {
        matched := matched + [offer];
        after := after[offerIndex := None];
      } else {
        assert matched + [] == matched;
      }
    }
    assert slots[..|slots|] == slots;
  }

  lemma AppendAssoc<T>(a: seq<T>, b: seq<T>, c: seq<T>)
    ensures (a + b) + c == a + (b + c)
  {
  }

  class LFM {
    const procurers: seq<string>
    const producers: seq<string>
    const openHour: int
    const closingHour: int

    var needs: seq<Need>
    var offers: seq<Offer>
    var results: seq<Offer>
    var received: map<string, map<string, nat>>
    var expected: map<string, map<string, Option<int>>>
    var procurersReady: map<string, bool>
    var initialSent: bool
    var offeringSent: bool
    var latestEpoch: nat
    var completedEpoch: nat
    var startHour: Hour
    var triggers: seq<string>
    /** Every message published on the bus, oldest first. */
    var outbox: seq<Event>

    function Cfg(): Config
    {
      Config(procurers, producers, openHour, closingHour)
    }

    function Snapshot(): State
      reads this`needs, this`offers, this`results, this`received, this`expected, this`procurersReady,
            this`initialSent, this`offeringSent, this`latestEpoch, this`completedEpoch, this`startHour,
            this`triggers
    {
      State(needs, offers, results, received, expected, procurersReady,
            initialSent, offeringSent, latestEpoch, completedEpoch, startHour, triggers)
    }

    ghost predicate Valid()
      reads this`needs, this`offers, this`results, this`received, this`expected, this`procurersReady,
            this`initialSent, this`offeringSent, this`latestEpoch, this`completedEpoch, this`startHour,
            this`triggers
    {
      LfmSpec.Valid(Cfg(), Snapshot())
    }

    /** `__init__`: one lowered ready flag per configured procurer, empty lists. */
    constructor (procurers: seq<string>, producers: seq<string>, openHour: int, closingHour: int)
      ensures Cfg() == Config(procurers, producers, openHour, closingHour)
      ensures Snapshot() == InitialState(Cfg()) && outbox == []
      ensures Valid()
    {
      var ready: map<string, bool> := map[];
      for i := 0 to |procurers|
        invariant ready == map p | p in procurers[..i] :: false
      {
        assert procurers[..i + 1] == procurers[..i] + [procurers[i]];
        ready := ready[procurers[i] := false];
      }
      assert procurers[..|procurers|] == procurers;
      this.procurers := procurers;
      this.producers := producers;
      this.openHour := openHour;
      this.closingHour := closingHour;
      needs, offers, results := [], [], [];
      received, expected := map[], map[];
      procurersReady := ready;
      initialSent, offeringSent := false, false;
      latestEpoch, completedEpoch, startHour := 0, 0, 0;
      triggers, outbox := [], [];
    }

    // -------------------------------------------------------------------
    // Epoch reset
    // -------------------------------------------------------------------

    /** `_purgeOutdated`: every list is overwritten with `None`s and compacted. */
    method PurgeOutdated()
      modifies this`needs, this`offers, this`results
      ensures needs == [] && offers == [] && results == []
    {
      needs := Slots.Purge(needs);
      offers := Slots.Purge(offers);
      results := Slots.Purge(results);
    }

    /** Counters for congestion `cid`: 0 received and expected unset, per producer. */
    method ResetCounters(cid: string)
      modifies this`received, this`expected
      ensures received == old(received)[cid := ZeroCounts(producers)]
      ensures expected == old(expected)[cid := UnsetCounts(producers)]
    {
      var zeros: map<string, nat> := map[];
      var unset: map<string, Option<int>> := map[];
      for j := 0 to |producers|
        invariant zeros == ZeroCounts(producers[..j])
        invariant unset == UnsetCounts(producers[..j])
        modifies {}
      {
        CountsSnoc(producers[..j], producers[j]);
        assert producers[..j + 1] == producers[..j] + [producers[j]];
        zeros := zeros[producers[j] := 0];
        unset := unset[producers[j] := None];
      }
      assert producers[..|producers|] == producers;
      received := received[cid := zeros];
      expected := expected[cid := unset];
    }

    /** The counter loop of `clear_epoch_variables`, over the current needs. */
    method ReinitCounters()
      modifies this`received, this`expected
      ensures received == ReinitReceived(old(received), needs, producers)
      ensures expected == ReinitExpected(old(expected), needs, producers)
    {
      for i := 0 to |needs|
        invariant received == ReinitReceived(old(received), needs[..i], producers)
        invariant expected == ReinitExpected(old(expected), needs[..i], producers)
      {
        assert needs[..i + 1][..i] == needs[..i];
        ResetCounters(needs[i].congestionId);
      }
      assert needs[..|needs|] == needs;
    }

    /**
     * `clear_epoch_variables`: the purge runs before the counter loop, so
     * the loop sees no need and the counter tables keep their keys.
     */
    method ClearEpochVariables(hour: Hour)
      requires Valid()
      modifies this`startHour, this`needs, this`offers, this`results, this`received,
               this`expected, this`procurersReady, this`initialSent, this`offeringSent
      ensures Snapshot() == ClearSpec(Cfg(), old(Snapshot()), hour)
      ensures outbox == old(outbox)
      ensures Valid()
    {
      ghost var s0 := Snapshot();
      StartFreshEpoch(hour);
      ghost var purged := s0.(startHour := hour, needs := [], offers := [], results := []);
      LowerProcurerFlags();
      initialSent := false;
      offeringSent := false;
      assert Snapshot() == purged.(procurersReady := LowerFlags(purged.procurersReady, procurers),
                                   initialSent := false, offeringSent := false);
      ClearValid(Cfg(), s0, hour);
    }

    /** The first steps of `clear_epoch_variables`: the new start hour, the purge, the counter loop. */
    method StartFreshEpoch(hour: Hour)
      modifies this`startHour, this`needs, this`offers, this`results, this`received, this`expected
      ensures Snapshot() == old(Snapshot()).(startHour := hour, needs := [], offers := [], results := [])
    {
      startHour := hour;
      PurgeOutdated();
      ReinitCounters();
    }

    /** The flag loop of `clear_epoch_variables`: every procurer is marked not ready. */
    method LowerProcurerFlags()
      modifies this`procurersReady
      ensures procurersReady == LowerFlags(old(procurersReady), procurers)
    {
      for i := 0 to |procurers|
        invariant procurersReady == LowerFlags(old(procurersReady), procurers[..i])
      {
        assert procurers[..i + 1][..i] == procurers[..i];
        procurersReady := procurersReady[procurers[i] := false];
      }
      assert procurers[..|procurers|] == procurers;
    }
  
    // -------------------------------------------------------------------
    // Publication
    // -------------------------------------------------------------------

    /** `_publishRequest`: one request built from the need's fields. */
    method PublishRequest(need: Need)
      modifies this`outbox
      ensures outbox == old(outbox) + [RequestOf(latestEpoch, triggers, need)]
    {
      outbox := outbox + [Request(latestEpoch, triggers, need.congestionId, need.body)];
    }

    /** `_publishOpenRequests`: a request for every open need, in order. */
    method PublishOpenRequests()
      modifies this`outbox
      ensures outbox == old(outbox) + RequestEvents(latestEpoch, triggers, needs)
    {
      for index := 0 to |needs|
        invariant outbox == old(outbox) + RequestEvents(latestEpoch, triggers, needs[..index])
      {
        assert needs[..index + 1][..index] == needs[..index];
        PublishRequest(needs[index]);
      }
      assert needs[..|needs|] == needs;
    }

    /**
     * `_publishOpenOffers` for one need of `procurer`: count the offers that
     * answer it, then send the empty offering or one offering per answer.
     */
    method PublishNeedOfferings(procurer: string, need: Need)
      modifies this`outbox
      ensures outbox == old(outbox) + NeedOfferings(procurer, latestEpoch, triggers, offers, need)
    {
      var offerCount := CountAnswers(need.congestionId);
      if offerCount == 0 {
        outbox := outbox + [Offering(procurer, latestEpoch, triggers, need.congestionId, None, None, offerCount)];
      } else {
        PublishMatchOfferings(procurer, need.congestionId, offerCount);
      }
    }

    /** The counting loop of `_publishOpenOffers`: the open offers that answer `cid`. */
    method CountAnswers(cid: string) returns (offerCount: nat)
      ensures offerCount == MatchCount(offers, cid)
    {
      offerCount := 0;
      for k := 0 to |offers|
        invariant offerCount == MatchCount(offers[..k], cid)
      {
        assert offers[..k + 1][..k] == offers[..k];
        if offers[k].congestionId == cid && offers[k].offerCount != 0 {
          offerCount := offerCount + 1;
        }
      }
      assert offers[..|offers|] == offers;
    }

    /** The sending loop of `_publishOpenOffers`: one offering per answering offer, in order. */
    method PublishMatchOfferings(procurer: string, cid: string, offerCount: nat)
      modifies this`outbox
      ensures outbox == old(outbox) + MatchOfferings(procurer, latestEpoch, triggers, offers, cid, offerCount)
    {
      for k := 0 to |offers|
        invariant outbox == old(outbox)
          + MatchOfferings(procurer, latestEpoch, triggers, offers[..k], cid, offerCount)
      {
        assert offers[..k + 1][..k] == offers[..k];
        var offer := offers[k];
        if offer.congestionId == cid && offer.offerCount != 0 {
          outbox := outbox + [Offering(procurer, latestEpoch, triggers, offer.congestionId,
                                       Some(offer.offerId), Some(offer.body), offerCount)];
        }
      }
      assert offers[..|offers|] == offers;
    }

    /** `_publishOpenOffers`: for every procurer, the offerings for each of its needs. */
    method PublishOpenOffers()
      modifies this`outbox
      ensures outbox == old(outbox) + OfferingEvents(procurers, latestEpoch, triggers, offers, needs)
    {
      for i := 0 to |procurers|
        invariant outbox == old(outbox) + OfferingEvents(procurers[..i], latestEpoch, triggers, offers, needs)
      {
        ghost var done := OfferingEvents(procurers[..i], latestEpoch, triggers, offers, needs);
        ghost var added := ProcurerOfferings(procurers[i], latestEpoch, triggers, offers, needs);
        assert procurers[..i + 1][..i] == procurers[..i];
        assert OfferingEvents(procurers[..i + 1], latestEpoch, triggers, offers, needs) == done + added;
        PublishProcurerOfferings(procurers[i]);
        assert outbox == (old(outbox) + done) + added;
      }
      assert procurers[..|procurers|] == procurers;
    }

    /** The inner loop of `_publishOpenOffers`: the offerings for each need of `procurer`. */
    method PublishProcurerOfferings(procurer: string)
      modifies this`outbox
      ensures outbox == old(outbox) + ProcurerOfferings(procurer, latestEpoch, triggers, offers, needs)
    {
      for k := 0 to |needs|
        invariant outbox == old(outbox) + ProcurerOfferings(procurer, latestEpoch, triggers, offers, needs[..k])
      {
        ghost var done := ProcurerOfferings(procurer, latestEpoch, triggers, offers, needs[..k]);
        assert needs[..k + 1][..k] == needs[..k];
        var need := needs[k];
        if need.procurer == procurer {
          ghost var added := NeedOfferings(procurer, latestEpoch, triggers, offers, need);
          assert ProcurerOfferings(procurer, latestEpoch, triggers, offers, needs[..k + 1]) == done + added;
          PublishNeedOfferings(procurer, need);
          AppendAssoc(old(outbox), done, added);
        } else {
          assert ProcurerOfferings(procurer, latestEpoch, triggers, offers, needs[..k + 1]) == done + [];
        }
      }
      assert needs[..|needs|] == needs;
    }

    /**
     * `_publishMarketResult(index)`: a negative index builds the empty
     * market result and sends it, and the send after the branch sends it
     * again; otherwise the result is sent once with the number of results
     * for its congestion.
     */
    method PublishMarketResult(index: int)
      requires index < |results|
      modifies this`outbox
      ensures index < 0 ==> outbox == old(outbox) + [EmptyMarketResult(latestEpoch, triggers), EmptyMarketResult(latestEpoch, triggers)]
      ensures 0 <= index ==> outbox == old(outbox) + [MarketResultOf(latestEpoch, triggers, results, index)]
    {
      var resultMsg: Event;
      if index < 0 {
        resultMsg := MarketResult(latestEpoch, triggers, None, None, None, 0);
        outbox := outbox + [resultMsg];
      } else {
        var accepted := results[index];
        var totalResults := 0;
        for k := 0 to |results|
          invariant totalResults == CountCongestion(results[..k], accepted.congestionId)
        {
          assert results[..k + 1][..k] == results[..k];
          if results[k].congestionId == accepted.congestionId {
            totalResults := totalResults + 1;
          }
        }
        assert results[..|results|] == results;
        resultMsg := MarketResult(latestEpoch, triggers, Some(accepted.congestionId), Some(accepted.offerId),
                                  Some(accepted.body), totalResults);
      }
      outbox := outbox + [resultMsg];
    }

    /** `_publishMarketResults`: every result, or the empty market result. */
    method PublishMarketResults()
      modifies this`outbox
      ensures outbox == old(outbox) + MarketResultEvents(latestEpoch, triggers, results)
    {
      if |results| == 0 {
        PublishMarketResult(-1);
      } else {
        for index := 0 to |results|
          invariant outbox == old(outbox) + ResultEventsUpTo(latestEpoch, triggers, results, index)
        {
          PublishMarketResult(index);
        }
      }
    }

    // -------------------------------------------------------------------
    // The epoch decision
    // -------------------------------------------------------------------

    /**
     * The producer test of `process_epoch`: every producer has sent, for
     * every open need, exactly the number of offers it announced; with no
     * open need the answer is `false`.
     */
    method CheckProducersReady() returns (ready: bool)
      requires Valid()
      ensures ready == ProducersReady(Cfg(), Snapshot())
    {
      ready := true;
      for i := 0 to |needs|
        invariant ready == forall i', p :: 0 <= i' < i && p in producers ==>
          ProducerReady(Snapshot(), needs[i'].congestionId, p)
      {
        var cid := needs[i].congestionId;
        assert cid in received;
        ghost var s := Snapshot();
        ghost var upToNeed := ready;
        for j := 0 to |producers|
          invariant ready == (upToNeed && forall p :: p in producers[..j] ==> ProducerReady(s, cid, p))
        {
          assert producers[..j + 1] == producers[..j] + [producers[j]];
          var producer := producers[j];
          assert producer in Cfg().producers;
          assert producer in received[cid] && producer in expected[cid];
          assert ProducerReady(s, cid, producer) <==> expected[cid][producer] == Some(received[cid][producer]);
          if Some(received[cid][producer]) != expected[cid][producer] {
            ready := false;
          }
        }
        assert producers[..|producers|] == producers;
      }
      if |needs| == 0 {
        ready := false;
      }
    }

    /** The procurer test of `process_epoch`: every procurer flag is set. */
    method CheckProcurersReady() returns (ready: bool)
      ensures ready == ProcurersReady(Snapshot())
    {
      ready := true;
      var pending := procurersReady.Keys;
      while pending != {}
        invariant pending <= procurersReady.Keys
        invariant ready == forall p :: p in procurersReady && p !in pending ==> procurersReady[p]
        decreases pending
      {
        var procurer :| procurer in pending;
        if !procurersReady[procurer] {
          ready := false;
        }
        pending := pending - {procurer};
      }
    }

    /**
     * `process_epoch`: the initial publication once per epoch, then the
     * decision whether the epoch is done and whether to send the offerings.
     */
    method ProcessEpoch() returns (done: bool)
      requires Valid()
      modifies this`initialSent, this`offeringSent, this`outbox
      ensures Valid()
      ensures done == ProcessEpochSpec(Cfg(), old(Snapshot())).done
      ensures Snapshot() == ProcessEpochSpec(Cfg(), old(Snapshot())).next
      ensures outbox == old(outbox) + ProcessEpochSpec(Cfg(), old(Snapshot())).emitted
    {
      ghost var s0, outbox0 := Snapshot(), outbox;
      PublishInitial();
      done := DecideEpoch();
      AppendAssoc(outbox0, InitialEvents(Cfg(), s0), Decide(Cfg(), s0.(initialSent := true)).emitted);
    }

    /** The first part of `process_epoch`: the publication made once per epoch. */
    method PublishInitial()
      modifies this`initialSent, this`outbox
      ensures Snapshot() == old(Snapshot()).(initialSent := true)
      ensures outbox == old(outbox) + InitialEvents(Cfg(), old(Snapshot()))
    {
      if !initialSent {
        ghost var s0, outbox0 := Snapshot(), outbox;
        PublishMarketResults();
        ghost var requests: seq<Event> := [];
        if MarketOpen(startHour, openHour, closingHour) {
          requests := RequestEvents(latestEpoch, triggers, needs);
          PublishOpenRequests();
        }
        AppendAssoc(outbox0, MarketResultEvents(latestEpoch, triggers, results), requests);
        initialSent := true;
        assert Snapshot() == s0.(initialSent := true);
      }
    }

    /** The decision part of `process_epoch`, once the initial publication is done. */
    method DecideEpoch() returns (done: bool)
      requires Valid()
      modifies this`offeringSent, this`outbox
      ensures Valid()
      ensures done == Decide(Cfg(), old(Snapshot())).done
      ensures Snapshot() == Decide(Cfg(), old(Snapshot())).next
      ensures outbox == old(outbox) + Decide(Cfg(), old(Snapshot())).emitted
    {
      if !MarketOpen(startHour, openHour, closingHour) {
        return true;
      }
      var allProducersReady := CheckProducersReady();
      var allProcurersReady := CheckProcurersReady();
      if allProducersReady && allProcurersReady {
        return true;
      } else if allProcurersReady && |needs| == 0 {
        return true;
      } else if allProducersReady && !offeringSent {
        PublishOpenOffers();
        offeringSent := true;
        return false;
      } else if allProducersReady && offeringSent {
        return false;
      } else {
        return false;
      }
    }

    // -------------------------------------------------------------------
    // The message handler
    // -------------------------------------------------------------------

    /**
     * The selection loop of `general_message_handler`: for each selected id
     * in turn, every open offer with that id is appended to the results and
     * overwritten with `None`; the `None`s are removed afterwards.
     */
    method MoveSelectedOffers(ids: seq<string>)
      modifies this`offers, this`results
      ensures offers == Select(old(offers), ids).left
      ensures results == old(results) + Select(old(offers), ids).moved
    {
      var slots := Slots.Wrap(offers);
      Slots.PresentWrap(offers);
      for k := 0 to |ids|
        invariant Slots.Present(slots) == Select(old(offers), ids[..k]).left
        invariant results == old(results) + Select(old(offers), ids[..k]).moved
      {
        assert ids[..k + 1][..k] == ids[..k];
        var selectedOfferId := ids[k];
        ghost var prev := Select(old(offers), ids[..k]);
        assert Select(old(offers), ids[..k + 1])
            == Selection(prev.moved + Matching(prev.left, selectedOfferId), Remaining(prev.left, selectedOfferId));
        ghost var before := slots;
        var matched;
        slots, matched := StrikeOffers(slots, selectedOfferId);
        AppendAssoc(old(results), prev.moved, matched);
        results := results + matched;
        StrikeLeavesRemaining(before, selectedOfferId);
      }
      assert ids[..|ids|] == ids;
      offers := Slots.Compact(slots);
    }

    /**
     * `general_message_handler`, with `start_epoch` as a call of
     * `ProcessEpoch`; `verdict` is that call's answer, if it was made.
     */
    method GeneralMessageHandler(m: Inbound) returns (verdict: Option<bool>)
      requires Valid() && Admissible(Snapshot(), m)
      modifies this`needs, this`offers, this`results, this`received, this`expected,
               this`procurersReady, this`initialSent, this`offeringSent, this`triggers, this`outbox
      ensures Valid()
      ensures verdict == HandleSpec(Cfg(), old(Snapshot()), m).verdict
      ensures Snapshot() == HandleSpec(Cfg(), old(Snapshot()), m).next
      ensures outbox == old(outbox) + HandleSpec(Cfg(), old(Snapshot()), m).emitted
    {
      if latestEpoch == 0 {
        return None;
      }
      if completedEpoch == latestEpoch {
        return None;
      }
      match m
      case NeedMsg(need) =>
        HandleNeed(Cfg(), old(Snapshot()), need);
        var done := OnNeed(need);
        verdict := Some(done);
      case OfferMsg(offer) =>
        var done := OnOffer(offer);
        verdict := Some(done);
      case SelectionMsg(offerIds, messageId) =>
        HandleSelection(Cfg(), old(Snapshot()), offerIds, messageId);
        var done := OnSelection(offerIds, messageId);
        verdict := Some(done);
      case StatusMsg(source, messageId) =>
        var done := OnStatus(source, messageId);
        verdict := Some(done);
      case OtherMsg =>
        verdict := None;
    }

    /** The need branch: record, request, `start_epoch`. */
    method OnNeed(need: Need) returns (done: bool)
      requires Valid() && Active(Snapshot())
      modifies this`needs, this`received, this`expected, this`triggers,
               this`initialSent, this`offeringSent, this`outbox
      ensures Valid()
      ensures var s1 := RecordNeed(Cfg(), old(Snapshot()), need);
        var d := ProcessEpochSpec(Cfg(), s1);
        done == d.done && Snapshot() == d.next
        && outbox == old(outbox) + ([RequestOf(s1.latestEpoch, s1.triggers, need)] + d.emitted)
    {
      ghost var s1 := RecordNeed(Cfg(), Snapshot(), need);
      ghost var outbox0 := outbox;
      AcceptNeed(need);
      ghost var outbox1 := outbox;
      done := ProcessEpoch();
      ghost var e := ProcessEpochSpec(Cfg(), s1).emitted;
      AppendAssoc(outbox0, [RequestOf(s1.latestEpoch, s1.triggers, need)], e);
    }

    /** The need branch up to `start_epoch`: record the need and publish its request. */
    method AcceptNeed(need: Need)
      requires Valid()
      modifies this`needs, this`received, this`expected, this`triggers, this`outbox
      ensures Valid()
      ensures Snapshot() == RecordNeed(Cfg(), old(Snapshot()), need)
      ensures outbox == old(outbox) + [RequestOf(latestEpoch, triggers, need)]
    {
      RecordNeedFields(need);
      RecordNeedValid(Cfg(), old(Snapshot()), need);
      PublishRequest(need);
    }

    /** The bookkeeping of the need branch: the need, fresh counters, the trigger. */
    method RecordNeedFields(need: Need)
      modifies this`needs, this`received, this`expected, this`triggers
      ensures Snapshot() == RecordNeed(Cfg(), old(Snapshot()), need)
    {
      needs := needs + [need];
      ResetCounters(need.congestionId);
      triggers := triggers + [need.messageId];
    }

    /** The offer branch: resolve the expected count, count a real bid, `start_epoch`. */
    method OnOffer(offer: Offer) returns (done: bool)
      requires Valid() && Active(Snapshot()) && OfferKnown(Snapshot(), offer)
      modifies this`offers, this`received, this`expected, this`triggers,
               this`initialSent, this`offeringSent, this`outbox
      ensures Valid()
      ensures var h := HandleSpec(Cfg(), old(Snapshot()), OfferMsg(offer));
        h.verdict == Some(done) && Snapshot() == h.next && outbox == old(outbox) + h.emitted
    {
      HandleOffer(Cfg(), old(Snapshot()), offer);
      RecordOfferFields(offer);
      RecordOfferValid(Cfg(), old(Snapshot()), offer);
      done := ProcessEpoch();
    }

    /** The bookkeeping of the offer branch, before `start_epoch`. */
    method RecordOfferFields(offer: Offer)
      requires OfferKnown(Snapshot(), offer)
      modifies this`offers, this`received, this`expected, this`triggers
      ensures Snapshot() == RecordOffer(old(Snapshot()), offer)
    {
      SetExpectedCount(offer.congestionId, offer.producer, offer.offerCount);
      if offer.offerCount != 0 {
        CountBid(offer);
      }
    }

    /** The expected count of `producer` for `cid` is taken from the offer only while it is unset. */
    method SetExpectedCount(cid: string, producer: string, count: int)
      requires cid in expected && producer in expected[cid]
      modifies this`expected
      ensures expected == if old(expected)[cid][producer].None?
                          then old(expected)[cid := old(expected)[cid][producer := Some(count)]]
                          else old(expected)
    {
      if expected[cid][producer] == None {
        expected := expected[cid := expected[cid][producer := Some(count)]];
      }
    }

    /** A real bid is kept open, counted once for its producer and adds a trigger id. */
    method CountBid(offer: Offer)
      requires offer.congestionId in received && offer.producer in received[offer.congestionId]
      modifies this`offers, this`received, this`triggers
      ensures offers == old(offers) + [offer] && triggers == old(triggers) + [offer.messageId]
      ensures var cid, producer := offer.congestionId, offer.producer;
        received == old(received)[cid := old(received)[cid][producer := old(received)[cid][producer] + 1]]
    {
      var producer, cid := offer.producer, offer.congestionId;
      offers := offers + [offer];
      received := received[cid := received[cid][producer := received[cid][producer] + 1]];
      triggers := triggers + [offer.messageId];
    }

    /** The selection branch: move the selected offers, publish the results, `start_epoch`. */
    method OnSelection(offerIds: seq<string>, messageId: string) returns (done: bool)
      requires Valid() && Active(Snapshot())
      modifies this`offers, this`results, this`triggers,
               this`initialSent, this`offeringSent, this`outbox
      ensures Valid()
      ensures var s1 := RecordSelection(old(Snapshot()), offerIds, messageId);
        var d := ProcessEpochSpec(Cfg(), s1);
        done == d.done && Snapshot() == d.next
        && outbox == old(outbox) + (MarketResultEvents(s1.latestEpoch, s1.triggers, s1.results) + d.emitted)
    {
      ghost var s1 := RecordSelection(Snapshot(), offerIds, messageId);
      ghost var outbox0 := outbox;
      AcceptSelection(offerIds, messageId);
      done := ProcessEpoch();
      AppendAssoc(outbox0, MarketResultEvents(s1.latestEpoch, s1.triggers, s1.results),
                  ProcessEpochSpec(Cfg(), s1).emitted);
    }

    /** The selection branch up to `start_epoch`: move the selected offers, publish the results. */
    method AcceptSelection(offerIds: seq<string>, messageId: string)
      requires Valid()
      modifies this`offers, this`results, this`triggers, this`outbox
      ensures Valid()
      ensures Snapshot() == RecordSelection(old(Snapshot()), offerIds, messageId)
      ensures outbox == old(outbox) + MarketResultEvents(latestEpoch, triggers, results)
    {
      RecordSelectionFields(offerIds, messageId);
      PublishMarketResults();
    }

    /** The bookkeeping of the selection branch: move the selected offers, note the trigger. */
    method RecordSelectionFields(offerIds: seq<string>, messageId: string)
      modifies this`offers, this`results, this`triggers
      ensures Snapshot() == RecordSelection(old(Snapshot()), offerIds, messageId)
    {
      MoveSelectedOffers(offerIds);
      triggers := triggers + [messageId];
    }

    /**
     * The status branch: only a configured procurer is marked ready; the
     * epoch is not completed here, so `start_epoch` always runs.
     */
    method OnStatus(source: string, messageId: string) returns (done: bool)
      requires Valid() && Active(Snapshot())
      modifies this`procurersReady, this`initialSent, this`offeringSent, this`outbox
      ensures Valid()
      ensures var h := HandleSpec(Cfg(), old(Snapshot()), StatusMsg(source, messageId));
        h.verdict == Some(done) && Snapshot() == h.next && outbox == old(outbox) + h.emitted
    {
      HandleStatus(Cfg(), old(Snapshot()), source, messageId);
      if source in procurers {
        procurersReady := procurersReady[source := true];
      }
      assert Snapshot() == RecordStatus(Cfg(), old(Snapshot()), source);
      done := ProcessEpoch();
    }
  }
}
