// Two streams merged into one, as `select` does: every message of either comes
// once, and the messages of each keep their order.
module Merge {
  import opened Message
  import opened Canon

  function Front(ms: seq<Message>): seq<Message>
    requires ms != []
  {
    ms[..|ms| - 1]
  }

  function Last(ms: seq<Message>): Message
    requires ms != []
  {
    ms[|ms| - 1]
  }

  predicate Merges(whole: seq<Message>, a: seq<Message>, b: seq<Message>)
    decreases |whole|
  {
    if whole == [] then a == [] && b == []
    else
      || (a != [] && Last(a) == Last(whole) && Merges(Front(whole), Front(a), b))
      || (b != [] && Last(b) == Last(whole) && Merges(Front(whole), a, Front(b)))
  }

  lemma {:induction false} MoreOfFirst(whole: seq<Message>, a: seq<Message>, b: seq<Message>, more: seq<Message>)
    requires Merges(whole, a, b)
    ensures Merges(whole + more, a + more, b)
    decreases |more|
  {
    if more == [] {
      assert whole + more == whole && a + more == a;
    } else {
      assert Front(whole + more) == whole + Front(more) && Front(a + more) == a + Front(more);
      MoreOfFirst(whole, a, b, Front(more));
    }
  }

  lemma GrownFirst(whole: seq<Message>, a: seq<Message>, b: seq<Message>, grown: seq<Message>)
    requires Merges(whole, a, b) && a <= grown
    ensures Merges(whole + grown[|a|..], grown, b)
  {
    MoreOfFirst(whole, a, b, grown[|a|..]);
    assert a + grown[|a|..] == grown;
  }

  lemma {:induction false} Swapped(whole: seq<Message>, a: seq<Message>, b: seq<Message>)
    requires Merges(whole, a, b)
    ensures Merges(whole, b, a)
    decreases |whole|
  {
    if whole != [] {
      if a != [] && Last(a) == Last(whole) && Merges(Front(whole), Front(a), b) {
        Swapped(Front(whole), Front(a), b);
      } else {
        Swapped(Front(whole), a, Front(b));
      }
    }
  }

  lemma MoreOfSecond(whole: seq<Message>, a: seq<Message>, b: seq<Message>, more: seq<Message>)
    requires Merges(whole, a, b)
    ensures Merges(whole + more, a, b + more)
  {
    Swapped(whole, a, b);
    MoreOfFirst(whole, b, a, more);
    Swapped(whole + more, b + more, a);
  }

  lemma LastMerged(whole: seq<Message>, a: seq<Message>, b: seq<Message>)
    requires whole != [] && a != [] && Last(whole) == Last(a)
    requires BagOf(Front(whole)) == BagOf(Front(a)) + BagOf(b)
    ensures BagOf(whole) == BagOf(a) + BagOf(b)
  {
    LastInBag(whole);
    LastInBag(a);
  }

  /** What is merged is what there was in the two. */
  lemma {:induction false} MergedBag(whole: seq<Message>, a: seq<Message>, b: seq<Message>)
    requires Merges(whole, a, b)
    ensures BagOf(whole) == BagOf(a) + BagOf(b)
    decreases |whole|
  {
    if whole != [] {
      if a != [] && Last(a) == Last(whole) && Merges(Front(whole), Front(a), b) {
        MergedBag(Front(whole), Front(a), b);
        LastMerged(whole, a, b);
      } else {
        MergedBag(Front(whole), a, Front(b));
        LastMerged(whole, b, a);
      }
    }
  }

  lemma LastInBag(ms: seq<Message>)
    requires ms != []
    ensures BagOf(ms) == BagOf(Front(ms)) + multiset{CanonOf(Last(ms))}
  {
    assert ms == Front(ms) + [Last(ms)];
    BagConcat(Front(ms), [Last(ms)]);
    BagSingle(Last(ms));
  }

  /** Merging with nothing changes nothing. */
  lemma {:induction false} MergedAlone(whole: seq<Message>, a: seq<Message>)
    requires Merges(whole, a, [])
    ensures whole == a
    decreases |whole|
  {
    if whole != [] {
      MergedAlone(Front(whole), Front(a));
      assert whole == Front(whole) + [Last(whole)] && a == Front(a) + [Last(a)];
    }
  }

  lemma {:induction false} MergedFrom(whole: seq<Message>, a: seq<Message>, b: seq<Message>, m: Message)
    requires Merges(whole, a, b) && m in whole
    ensures m in a || m in b
    decreases |whole|
  {
    if m != Last(whole) {
      assert whole == Front(whole) + [Last(whole)];
      if a != [] && Last(a) == Last(whole) && Merges(Front(whole), Front(a), b) {
        MergedFrom(Front(whole), Front(a), b, m);
      } else {
        MergedFrom(Front(whole), a, Front(b), m);
      }
    }
  }
}
