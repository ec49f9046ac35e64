/**
 * The component removes entries from its lists in two passes: it first
 * overwrites them with `None` and then runs `while None in xs:
 * xs.remove(None)`.  A list in the middle of that idiom is a
 * `seq<Option<T>>` here.
 */
module Slots {
  import opened Wrappers

  /** The values still present in a list with `None` placeholders, in order. */
  function Present<T>(s: seq<Option<T>>): (xs: seq<T>)
    ensures |xs| <= |s|
  {
    if s == [] then []
    else Present(s[..|s| - 1]) + (if s[|s| - 1].Some? then [s[|s| - 1].value] else [])
  }

  lemma PresentSnoc<T>(s: seq<Option<T>>, x: Option<T>)
    ensures Present(s + [x]) == Present(s) + (if x.Some? then [x.value] else [])
  {
    assert (s + [x])[..|s|] == s;
  }

  /** A list of values seen as a list with no placeholder yet. */
  function Wrap<T>(xs: seq<T>): (s: seq<Option<T>>)
    ensures |s| == |xs|
    ensures forall k :: 0 <= k < |xs| ==> s[k] == Some(xs[k])
  {
    if xs == [] then [] else Wrap(xs[..|xs| - 1]) + [Some(xs[|xs| - 1])]
  }

  /** The values of a list that holds no `None`, one for one. */
  function Unwrap<T>(s: seq<Option<T>>): (xs: seq<T>)
    requires forall k :: 0 <= k < |s| ==> s[k].Some?
    ensures |xs| == |s|
    ensures forall k :: 0 <= k < |s| ==> s[k] == Some(xs[k])
  {
    if s == [] then [] else Unwrap(s[..|s| - 1]) + [s[|s| - 1].value]
  }

  /** `xs.index(None)`: the position of the first `None`. */
  function FirstNone<T(==)>(s: seq<Option<T>>): (j: nat)
    requires None in s
    ensures j < |s| && s[j] == None
    ensures None !in s[..j]
  {
    if s[0] == None then 0
    else
      assert s == [s[0]] + s[1..];
      var j := 1 + FirstNone(s[1..]);
      assert s[..j] == [s[0]] + s[1..][..j - 1];
      j
  }

  lemma {:induction false} PresentAppend<T>(a: seq<Option<T>>, b: seq<Option<T>>)
    ensures Present(a + b) == Present(a) + Present(b)
    decreases |b|
  {
    if b == [] {
      assert a + b == a;
    } else {
      var b' := b[..|b| - 1];
      assert (a + b)[..|a + b| - 1] == a + b';
      PresentAppend(a, b');
    }
  }

  /** Removing one `None` leaves the present values as they were. */
  lemma PresentRemoveNone<T>(s: seq<Option<T>>, j: nat)
    requires j < |s| && s[j].None?
    ensures Present(s[..j] + s[j + 1..]) == Present(s)
  {
    var a, b := s[..j], s[j + 1..];
    assert s == (a + [s[j]]) + b;
    assert (a + [s[j]])[..|a|] == a;
    assert Present(a + [s[j]]) == Present(a);
    PresentAppend(a + [s[j]], b);
    PresentAppend(a, b);
  }

  /** Without placeholders, the present values are the list's values. */
  lemma {:induction false} UnwrapIsPresent<T>(s: seq<Option<T>>)
    requires forall k :: 0 <= k < |s| ==> s[k].Some?
    ensures Unwrap(s) == Present(s)
    decreases |s|
  {
    if s != [] {
      UnwrapIsPresent(s[..|s| - 1]);
    }
  }

  /** Before any entry is overwritten, every value is present. */
  lemma {:induction false} PresentWrap<T>(xs: seq<T>)
    ensures Present(Wrap(xs)) == xs
    decreases |xs|
  {
    if xs != [] {
      var xs' := xs[..|xs| - 1];
      assert Wrap(xs)[..|xs| - 1] == Wrap(xs');
      PresentWrap(xs');
      assert xs == xs' + [xs[|xs| - 1]];
    }
  }

  /** A list of placeholders only has no present values. */
  lemma {:induction false} PresentAllNone<T>(s: seq<Option<T>>)
    requires forall k :: 0 <= k < |s| ==> s[k].None?
    ensures Present(s) == []
    decreases |s|
  {
    if s != [] {
      PresentAllNone(s[..|s| - 1]);
    }
  }

  /**
   * `while None in xs: xs.remove(None)`: each round removes the first
   * placeholder; what is left holds the present values in their order.
   */
  method Compact<T(==)>(slots: seq<Option<T>>) returns (xs: seq<T>)
    ensures xs == Present(slots)
  {
    var s := slots;
    while None in s
      invariant Present(s) == Present(slots)
      decreases |s|
    {
      var j := FirstNone(s);
      PresentRemoveNone(s, j);
      s := s[..j] + s[j + 1..];
    }
    assert forall k :: 0 <= k < |s| ==> s[k].Some? by {
      forall k | 0 <= k < |s| ensures s[k].Some? {
        assert s[k] in s;
      }
    }
    xs := Unwrap(s);
    UnwrapIsPresent(s);
  }

  /**
   * The purge of one list at an epoch boundary: every entry is overwritten
   * with `None`, then the placeholders are removed; nothing is left.
   */
  method Purge<T(==)>(xs: seq<T>) returns (r: seq<T>)
    ensures r == []
  {
    var slots := Wrap(xs);
    for index := 0 to |slots|
      invariant |slots| == |xs|
      invariant forall k :: 0 <= k < index ==> slots[k].None?
    {
      slots := slots[index := None];
    }
    PresentAllNone(slots);
    r := Compact(slots);
  }
}
