/**
 * The SelectedOffer message: the list of offer ids a procurer selects.
 * Its `offer_ids` attribute is validated when set; a value that fails the
 * validation is refused with `MessageValueError` and nothing is stored.
 *
 * The value handed to the setter is loosely typed in the source; `Val`
 * keeps the cases the validation tells apart.
 */
module SelectedOfferMessages {
  import opened Wrappers

  /** A loosely typed attribute value: `None`, a string, a list, or anything else. */
  datatype Val = Null | Str(s: string) | List(items: seq<Val>) | Other

  /** The fields every result message carries (its type, ids, epoch and triggers). */
  datatype Header = Header(messageType: string, simulationId: string, sourceProcessId: string,
                           messageId: string, epochNumber: nat, triggeringMessageIds: seq<string>)

  /** A message as seen by `__eq__`: a SelectedOffer message or a message of another class. */
  datatype Message =
    | SelectedOffer(header: Header, offerIds: seq<string>)
    | OtherMessage(header: Header)

  /** The error the setter raises, carrying the refused value. */
  datatype MessageValueError = InvalidOfferIds(value: Val)

  /** The element loop of `_check_offer_ids`: stops at the first element that is not a string. */
  function AllStrings(items: seq<Val>): (ok: bool)
    ensures ok <==> forall i :: 0 <= i < |items| ==> items[i].Str?
  {
    if items == [] then true
    else if !items[0].Str? then false
    else AllStrings(items[1..])
  }

  /**
   * `_check_offer_ids`: `None`, a value that is neither a string nor a
   * list, and an empty string or list are refused; a list must hold only
   * strings, while any non-empty string passes.
   */
  function CheckOfferIds(v: Val): (ok: bool)
    ensures ok <==> (v.Str? && |v.s| > 0)
                    || (v.List? && |v.items| > 0 && forall i :: 0 <= i < |v.items| ==> v.items[i].Str?)
  {
    if v.Null? then false
    else if !(v.Str? || v.List?) || (v.Str? && |v.s| == 0) || (v.List? && |v.items| == 0) then false
    else if !v.Str? then AllStrings(v.items)
    else true
  }

  /** `list(s)` of a string: one one-character string per character, in order. */
  function Chars(s: string): (r: seq<string>)
    ensures |r| == |s|
    ensures forall i :: 0 <= i < |s| ==> r[i] == [s[i]]
  {
    if s == [] then [] else [[s[0]]] + Chars(s[1..])
  }

  /** The strings of a list that holds only strings. */
  function Strings(items: seq<Val>): (r: seq<string>)
    requires forall i :: 0 <= i < |items| ==> items[i].Str?
    ensures |r| == |items|
    ensures forall i :: 0 <= i < |items| ==> r[i] == items[i].s
  {
    if items == [] then [] else [items[0].s] + Strings(items[1..])
  }

  /** What the setter stores for an accepted value: `list(value)`. */
  function Stored(v: Val): seq<string>
    requires CheckOfferIds(v)
  {
    if v.Str? then Chars(v.s) else Strings(v.items)
  }

  /** The value a list of offer ids is sent as. */
  function AsVal(ids: seq<string>): (v: Val)
    ensures v.List? && |v.items| == |ids|
    ensures forall i :: 0 <= i < |ids| ==> v.items[i] == Str(ids[i])
  {
    List(seq(|ids|, i requires 0 <= i < |ids| => Str(ids[i])))
  }

  /** The strings of a list joined end to end. */
  function Concat(ss: seq<string>): string
  {
    if ss == [] then [] else ss[0] + Concat(ss[1..])
  }

  /**
   * `__eq__`: the base class's equality (here, equal headers), the other
   * message is a SelectedOffer message, and the offer id lists are equal.
   */
  function Equal(self: Message, other: Message): (eq: bool)
    requires self.SelectedOffer?
    ensures eq <==> other.SelectedOffer? && other.header == self.header && other.offerIds == self.offerIds
  {
    self.header == other.header && other.SelectedOffer? && self.offerIds == other.offerIds
  }

  /** The attribute holder of a SelectedOffer message. */
  class SelectedOfferMessage {
    var header: Header
    var offerIds: seq<string>

    constructor (header: Header, v: Val)
      requires CheckOfferIds(v)
      ensures this.header == header && offerIds == Stored(v)
    {
      this.header := header;
      offerIds := Stored(v);
    }

    /** The message as a value, for `__eq__`. */
    function View(): (m: Message)
      reads this
      ensures m.SelectedOffer? && m.header == header && m.offerIds == offerIds
    {
      SelectedOffer(header, offerIds)
    }

    /**
     * The `offer_ids` setter: an accepted value is stored as `list(value)`;
     * any other value raises `MessageValueError` and the old ids stay.
     */
    method SetOfferIds(v: Val) returns (r: Outcome<MessageValueError>)
      modifies this`offerIds
      ensures CheckOfferIds(v) ==> r.Pass? && offerIds == Stored(v)
      ensures !CheckOfferIds(v) ==> r == Fail(InvalidOfferIds(v)) && offerIds == old(offerIds)
    {
      if CheckOfferIds(v) {
        offerIds := Stored(v);
        return Pass;
      }
      return Fail(InvalidOfferIds(v));
    }
  }

  // ---------------------------------------------------------------------
  // Properties
  // ---------------------------------------------------------------------

  /** `None` is never a valid offer id list. */
  lemma NullRefused()
    ensures !CheckOfferIds(Null) && !CheckOfferIds(Other)
  {
  }

  /** An empty string and an empty list are refused. */
  lemma EmptyRefused()
    ensures !CheckOfferIds(Str("")) && !CheckOfferIds(List([]))
  {
  }

  /** A non-empty list with a non-string anywhere in it is refused. */
  lemma NonStringElementRefused(items: seq<Val>, k: nat)
    requires k < |items| && !items[k].Str?
    ensures !CheckOfferIds(List(items))
  {
  }

  /**
   * A non-empty string passes and is stored as its characters, which
   * joined again give back the string.
   */
  lemma {:induction false} StringStoredAsCharacters(s: string)
    requires |s| > 0
    ensures CheckOfferIds(Str(s))
    ensures |Stored(Str(s))| == |s|
    ensures Concat(Stored(Str(s))) == s
  {
    ConcatChars(s);
  }

  lemma {:induction false} ConcatChars(s: string)
    ensures Concat(Chars(s)) == s
  {
    if s != [] {
      ConcatChars(s[1..]);
      assert Chars(s)[1..] == Chars(s[1..]);
    }
  }

  /**
   * Round trip: a non-empty list of ids sent as a value passes the check
   * and is stored unchanged, so setting the stored ids again changes nothing.
   */
  lemma {:induction false} StoreRoundTrip(ids: seq<string>)
    requires |ids| > 0
    ensures CheckOfferIds(AsVal(ids))
    ensures Stored(AsVal(ids)) == ids
  {
    var v := AsVal(ids);
    assert forall i :: 0 <= i < |v.items| ==> v.items[i].Str?;
    var r := Stored(v);
    assert |r| == |ids|;
    forall i | 0 <= i < |ids| ensures r[i] == ids[i] {
      assert v.items[i] == Str(ids[i]);
    }
  }

  /** Storing is idempotent: what the setter stored passes again and is stored as is. */
  lemma StoreIdempotent(v: Val)
    requires CheckOfferIds(v)
    ensures |Stored(v)| > 0
    ensures CheckOfferIds(AsVal(Stored(v))) && Stored(AsVal(Stored(v))) == Stored(v)
  {
    StoreRoundTrip(Stored(v));
  }

  /** `__eq__` is reflexive, symmetric and transitive on SelectedOffer messages. */
  lemma EqualIsEquivalence(a: Message, b: Message, c: Message)
    requires a.SelectedOffer? && b.SelectedOffer? && c.SelectedOffer?
    ensures Equal(a, a)
    ensures Equal(a, b) ==> Equal(b, a)
    ensures Equal(a, b) && Equal(b, c) ==> Equal(a, c)
  {
  }

  /** A SelectedOffer message is never equal to a message of another class. */
  lemma OtherClassNeverEqual(a: Message, h: Header)
    requires a.SelectedOffer?
    ensures !Equal(a, OtherMessage(h))
  {
  }

  /** Two SelectedOffer messages with equal headers are equal exactly when their offer ids are. */
  lemma EqualByOfferIds(h: Header, ids1: seq<string>, ids2: seq<string>)
    ensures Equal(SelectedOffer(h, ids1), SelectedOffer(h, ids2)) <==> ids1 == ids2
  {
  }
}
