// Equality of replies up to the order inside batches, at every depth.
module Canon {
  import opened Message

  /** A message with every batch read as the multiset of its members. */
  datatype Canon = One(message: Message) | Bag(members: multiset<Canon>)

  function CanonOf(m: Message): Canon
    decreases m, 1
  {
    match m
    case Batch(ms) => Bag(BagOf(ms))
    case _ => One(m)
  }

  function BagOf(ms: seq<Message>): multiset<Canon>
    decreases ms, 0
  {
    if ms == [] then multiset{} else multiset{CanonOf(ms[0])} + BagOf(ms[1..])
  }

  lemma {:induction false} BagConcat(a: seq<Message>, b: seq<Message>)
    ensures BagOf(a + b) == BagOf(a) + BagOf(b)
  {
    if a == [] {
      assert a + b == b;
    } else {
      assert (a + b)[1..] == a[1..] + b;
      BagConcat(a[1..], b);
    }
  }

  lemma {:induction false} BagSize(ms: seq<Message>)
    ensures |BagOf(ms)| == |ms|
  {
    if ms != [] {
      BagSize(ms[1..]);
    }
  }

  lemma BagMiddle(a: seq<Message>, v: seq<Message>, b: seq<Message>)
    ensures BagOf(a + v + b) == BagOf(a + b) + BagOf(v)
  {
    BagConcat(a + v, b);
    BagConcat(a, v);
    BagConcat(a, b);
  }

  lemma BagSingle(m: Message)
    ensures BagOf([m]) == multiset{CanonOf(m)}
  {
    assert [m][1..] == [];
    assert BagOf([]) == multiset{};
  }

  /** Batches of the same members up to order are the same up to order. */
  lemma {:induction false} BagBatch(a: seq<Message>, b: seq<Message>)
    requires BagOf(a) == BagOf(b)
    ensures BagOf([Batch(a)]) == BagOf([Batch(b)]) && |a| == |b|
  {
    BagSize(a);
    BagSize(b);
    BagSingle(Batch(a));
    BagSingle(Batch(b));
  }

  lemma {:induction false} BagMember(ms: seq<Message>, c: Canon) returns (i: nat)
    requires c in BagOf(ms)
    ensures i < |ms| && CanonOf(ms[i]) == c
  {
    if CanonOf(ms[0]) == c {
      i := 0;
    } else {
      var j := BagMember(ms[1..], c);
      i := j + 1;
    }
  }

  lemma {:induction false} MemberInBag(ms: seq<Message>, i: nat)
    requires i < |ms|
    ensures CanonOf(ms[i]) in BagOf(ms)
  {
    if i > 0 {
      MemberInBag(ms[1..], i - 1);
    }
  }

  /** How many of the messages are c up to order. */
  function Occurs(ms: seq<Message>, c: Canon): nat {
    if ms == [] then 0 else (if CanonOf(ms[0]) == c then 1 else 0) + Occurs(ms[1..], c)
  }

  /** A bag has each message as often as the sequence has it, up to order inside
      batches; a message that is no batch is the same as itself only. */
  lemma {:induction false} BagCounts(ms: seq<Message>, c: Canon)
    ensures BagOf(ms)[c] == Occurs(ms, c)
  {
    if ms != [] {
      BagCounts(ms[1..], c);
    }
  }

  lemma SameUpToOrder(m: Message, n: Message)
    ensures CanonOf(m) == CanonOf(n)
            <==> if m.Batch? && n.Batch? then BagOf(m.messages) == BagOf(n.messages) else m == n
  {
  }
}
