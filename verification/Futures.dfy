// Futures, the streams they come in, and the batch channels they send into: the
// combinators do_batch in src/endpoint.rs is built from.
//
// Everything that is proved about a stream is proved about the list of its futures
// in the order polling yields them.
module Futures {
  import opened Wrappers
  import opened Message

  /** A future that yields an optional message: a piece of work, the collector of a
      batch channel, or a future whose message is sent into a batch channel and
      which then yields nothing. */
  datatype Future =
    | Work(out: Option<Message>)
    | Collect(chan: nat)
    | SendTo(chan: nat, inner: Future)

  /** A stream of futures.  OfBatch(c, subs) is the flattened subs, every future of
      which sends into c, chained with the collector of c; each sub-stream that is
      still there owns a sender of c. */
  datatype Stream =
    | Empty
    | Once(future: Future)
    | OfBatch(chan: nat, subs: seq<Stream>)

  /** A batch channel: its capacity, what is in it and what its receiver took out. */
  datatype Chan = Chan(capacity: nat, buffer: seq<Message>, taken: seq<Message>)

  /** Polling a stream once: the next future, if any, and the rest. */
  function Next(s: Stream): (Option<Future>, Stream)
    decreases s, 1
  {
    match s
    case Empty => (None, Empty)
    case Once(f) => (Some(f), Empty)
    case OfBatch(c, subs) => NextOf(c, subs)
  }

  function NextOf(c: nat, subs: seq<Stream>): (Option<Future>, Stream)
    decreases subs, 0
  {
    if subs == [] then (Some(Collect(c)), Empty)
    else
      var (future, rest) := Next(subs[0]);
      match future
      case None => NextOf(c, subs[1..])
      case Some(f) => (Some(SendTo(c, f)), OfBatch(c, [rest] + subs[1..]))
  }

  // ---- One future --------------------------------------------------------

  /** The batch channels a future holds a sender of, outermost first. */
  function Path(f: Future): seq<nat> {
    match f
    case SendTo(c, inner) => [c] + Path(inner)
    case _ => []
  }

  /** What is done before anything is sent. */
  function Leaf(f: Future): Future {
    match f
    case SendTo(_, inner) => Leaf(inner)
    case _ => f
  }

  /** Where a future's message goes: the innermost channel, or out of the stream. */
  function Dest(f: Future): Option<nat> {
    if Path(f) == [] then None else Some(Path(f)[|Path(f)| - 1])
  }

  function Wrap(c: nat, fs: seq<Future>): (r: seq<Future>)
    ensures |r| == |fs|
  {
    if fs == [] then [] else [SendTo(c, fs[0])] + Wrap(c, fs[1..])
  }

  // ---- A stream as a list ------------------------------------------------

  function Flat(s: Stream): seq<Future>
    decreases s, 1
  {
    match s
    case Empty => []
    case Once(f) => [f]
    case OfBatch(c, subs) => Wrap(c, FlatAll(subs)) + [Collect(c)]
  }

  function FlatAll(subs: seq<Stream>): seq<Future>
    decreases subs, 0
  {
    if subs == [] then [] else Flat(subs[0]) + FlatAll(subs[1..])
  }

  /** Polling yields the futures of the list one by one, in order. */
  lemma {:induction false} NextIsHead(s: Stream)
    ensures Next(s).0 == if Flat(s) == [] then None else Some(Flat(s)[0])
    ensures Flat(s) != [] ==> Flat(Next(s).1) == Flat(s)[1..]
    decreases s, 1
  {
    match s
    case Empty =>
    case Once(_) =>
    case OfBatch(c, subs) => NextOfIsHead(c, subs);
  }

  lemma {:induction false} NextOfIsHead(c: nat, subs: seq<Stream>)
    ensures NextOf(c, subs).0 == Some((Wrap(c, FlatAll(subs)) + [Collect(c)])[0])
    ensures Flat(NextOf(c, subs).1) == (Wrap(c, FlatAll(subs)) + [Collect(c)])[1..]
    decreases subs, 0
  {
    if subs != [] {
      NextIsHead(subs[0]);
      if Flat(subs[0]) == [] {
        NextOfIsHead(c, subs[1..]);
        assert FlatAll(subs) == FlatAll(subs[1..]);
      } else {
        var rest := Next(subs[0]).1;
        var fs := FlatAll(subs);
        assert ([rest] + subs[1..])[1..] == subs[1..];
        assert FlatAll([rest] + subs[1..]) == fs[1..];
        assert Wrap(c, fs) == [SendTo(c, fs[0])] + Wrap(c, fs[1..]);
      }
    }
  }

  // ---- Lists of futures --------------------------------------------------

  /** Some future of the list holds a sender of c. */
  predicate Holds(fs: seq<Future>, c: nat) {
    fs != [] && (c in Path(fs[0]) || Holds(fs[1..], c))
  }

  /** The list has a collector of c. */
  predicate Collects(fs: seq<Future>, c: nat) {
    fs != [] && (Leaf(fs[0]) == Collect(c) || Collects(fs[1..], c))
  }

  /** Every collector comes once and after everything that holds a sender of its
      channel, and everything that holds a sender comes before a collector of it. */
  predicate Ordered(fs: seq<Future>) {
    fs == [] || (OrderedHead(fs[0], fs[1..]) && Ordered(fs[1..]))
  }

  predicate OrderedHead(f: Future, rest: seq<Future>) {
    && (forall c | c in Path(f) :: Collects(rest, c))
    && (Leaf(f).Collect? ==> !Holds(rest, Leaf(f).chan) && !Collects(rest, Leaf(f).chan))
  }

  /** All channels of the list are in a range. */
  predicate InRange(fs: seq<Future>, lo: nat, hi: nat) {
    fs == [] || (FutureInRange(fs[0], lo, hi) && InRange(fs[1..], lo, hi))
  }

  predicate FutureInRange(f: Future, lo: nat, hi: nat) {
    && (forall c | c in Path(f) :: lo <= c < hi)
    && (Leaf(f).Collect? ==> lo <= Leaf(f).chan < hi)
  }

  /** How many futures have this destination. */
  function Count(fs: seq<Future>, dest: Option<nat>): nat {
    if fs == [] then 0 else (if Dest(fs[0]) == dest then 1 else 0) + Count(fs[1..], dest)
  }

  /** What a future yields before sending, if each batch gathers what is planned. */
  function Value(f: Future, plan: seq<seq<Message>>): seq<Message> {
    match Leaf(f)
    case Work(Some(m)) => [m]
    case Collect(c) => if c < |plan| && plan[c] != [] then [Batch(plan[c])] else []
    case _ => []
  }

  /** The messages the list yields to a destination, in order. */
  function Values(fs: seq<Future>, dest: Option<nat>, plan: seq<seq<Message>>): seq<Message> {
    if fs == [] then []
    else (if Dest(fs[0]) == dest then Value(fs[0], plan) else []) + Values(fs[1..], dest, plan)
  }

  lemma Single(f: Future, c: nat, dest: Option<nat>, plan: seq<seq<Message>>)
    ensures Holds([f], c) <==> c in Path(f)
    ensures Collects([f], c) <==> Leaf(f) == Collect(c)
    ensures Count([f], dest) == if Dest(f) == dest then 1 else 0
    ensures Values([f], dest, plan) == if Dest(f) == dest then Value(f, plan) else []
  {
    assert [f][1..] == [];
    assert !Holds([], c) && !Collects([], c) && Count([], dest) == 0 && Values([], dest, plan) == [];
  }

  lemma HeadValues(f: Future, rest: seq<Future>, dest: Option<nat>, plan: seq<seq<Message>>)
    ensures Values([f] + rest, dest, plan)
         == (if Dest(f) == dest then Value(f, plan) else []) + Values(rest, dest, plan)
  {
    assert ([f] + rest)[1..] == rest;
  }

  lemma {:induction false} Outside(fs: seq<Future>, lo: nat, hi: nat, c: nat)
    requires InRange(fs, lo, hi) && !(lo <= c < hi)
    ensures !Holds(fs, c) && !Collects(fs, c) && Count(fs, Some(c)) == 0
  {
    if fs != [] {
      Outside(fs[1..], lo, hi, c);
    }
  }

  lemma {:induction false} NothingFor(fs: seq<Future>, dest: Option<nat>, plan: seq<seq<Message>>)
    requires Count(fs, dest) == 0
    ensures Values(fs, dest, plan) == []
  {
    if fs != [] {
      NothingFor(fs[1..], dest, plan);
    }
  }

  lemma {:induction false} Widen(fs: seq<Future>, lo: nat, hi: nat, lo': nat, hi': nat)
    requires InRange(fs, lo, hi) && lo' <= lo && hi <= hi'
    ensures InRange(fs, lo', hi')
  {
    if fs != [] {
      Widen(fs[1..], lo, hi, lo', hi');
    }
  }

  lemma {:induction false} Concat(a: seq<Future>, b: seq<Future>, c: nat)
    ensures Holds(a + b, c) <==> Holds(a, c) || Holds(b, c)
    ensures Collects(a + b, c) <==> Collects(a, c) || Collects(b, c)
  {
    if a == [] {
      assert a + b == b;
    } else {
      assert (a + b)[1..] == a[1..] + b;
      Concat(a[1..], b, c);
    }
  }

  lemma {:induction false} ConcatCount(a: seq<Future>, b: seq<Future>, dest: Option<nat>)
    ensures Count(a + b, dest) == Count(a, dest) + Count(b, dest)
  {
    if a == [] {
      assert a + b == b;
    } else {
      assert (a + b)[1..] == a[1..] + b;
      ConcatCount(a[1..], b, dest);
    }
  }

  lemma {:induction false} ConcatValues(a: seq<Future>, b: seq<Future>, dest: Option<nat>, plan: seq<seq<Message>>)
    ensures Values(a + b, dest, plan) == Values(a, dest, plan) + Values(b, dest, plan)
  {
    if a == [] {
      assert a + b == b;
    } else {
      assert (a + b)[1..] == a[1..] + b;
      ConcatValues(a[1..], b, dest, plan);
    }
  }

  lemma {:induction false} ConcatRange(a: seq<Future>, b: seq<Future>, lo: nat, hi: nat)
    ensures InRange(a + b, lo, hi) <==> InRange(a, lo, hi) && InRange(b, lo, hi)
  {
    if a == [] {
      assert a + b == b;
    } else {
      assert (a + b)[1..] == a[1..] + b;
      ConcatRange(a[1..], b, lo, hi);
    }
  }

  /** Lists over separate channels can be put one after the other. */
  lemma {:induction false} ConcatOrdered(a: seq<Future>, b: seq<Future>, lo: nat, mid: nat, hi: nat)
    requires Ordered(a) && Ordered(b) && InRange(a, lo, mid) && InRange(b, mid, hi)
    ensures Ordered(a + b)
  {
    if a == [] {
      assert a + b == b;
    } else {
      assert (a + b)[1..] == a[1..] + b;
      ConcatOrdered(a[1..], b, lo, mid, hi);
      forall c | c in Path(a[0]) ensures Collects(a[1..] + b, c) {
        Concat(a[1..], b, c);
      }
      if Leaf(a[0]).Collect? {
        Concat(a[1..], b, Leaf(a[0]).chan);
        Outside(b, mid, hi, Leaf(a[0]).chan);
      }
    }
  }

  // ---- Wrapping a list for a batch ----------------------------------------

  lemma {:induction false} WrapHolds(d: nat, fs: seq<Future>, c: nat)
    ensures Holds(Wrap(d, fs), c) <==> (fs != [] && c == d) || Holds(fs, c)
    ensures Collects(Wrap(d, fs), c) <==> Collects(fs, c)
  {
    if fs != [] {
      WrapHolds(d, fs[1..], c);
    }
  }

  lemma {:induction false} WrapRange(d: nat, fs: seq<Future>, lo: nat, hi: nat)
    requires InRange(fs, lo, hi) && lo <= d < hi
    ensures InRange(Wrap(d, fs), lo, hi)
  {
    if fs != [] {
      WrapRange(d, fs[1..], lo, hi);
    }
  }

  lemma WrapDest(d: nat, f: Future)
    ensures Dest(SendTo(d, f)) == if Dest(f) == None then Some(d) else Dest(f)
  {
  }

  lemma {:induction false} WrapCount(d: nat, fs: seq<Future>, dest: Option<nat>)
    ensures Count(Wrap(d, fs), dest)
         == (if dest == None then 0 else Count(fs, dest)) + (if dest == Some(d) then Count(fs, None) else 0)
  {
    if fs != [] {
      WrapDest(d, fs[0]);
      WrapCount(d, fs[1..], dest);
    }
  }

  /** Wrapped futures yield nothing outside; what they yielded outside before goes
      to the batch, and the rest stays where it went. */
  lemma {:induction false} WrapValues(d: nat, fs: seq<Future>, dest: Option<nat>, plan: seq<seq<Message>>)
    requires dest == Some(d) ==> Count(fs, dest) == 0
    ensures Values(Wrap(d, fs), dest, plan)
         == if dest == None then [] else Values(fs, if dest == Some(d) then None else dest, plan)
  {
    if fs != [] {
      WrapDest(d, fs[0]);
      WrapValues(d, fs[1..], dest, plan);
      HeadValues(SendTo(d, fs[0]), Wrap(d, fs[1..]), dest, plan);
      assert Value(SendTo(d, fs[0]), plan) == Value(fs[0], plan);
    }
  }

  /** The futures of a batch followed by its collector: one yields outside. */
  lemma BatchCount(d: nat, fs: seq<Future>, dest: Option<nat>)
    ensures Count(Wrap(d, fs) + [Collect(d)], dest)
         == if dest == None then 1 else Count(fs, dest) + if dest == Some(d) then Count(fs, None) else 0
  {
    ConcatCount(Wrap(d, fs), [Collect(d)], dest);
    WrapCount(d, fs, dest);
    Single(Collect(d), d, dest, []);
  }

  lemma BatchValues(d: nat, fs: seq<Future>, dest: Option<nat>, plan: seq<seq<Message>>)
    requires Count(fs, Some(d)) == 0
    ensures Values(Wrap(d, fs) + [Collect(d)], dest, plan)
         == if dest == None then Value(Collect(d), plan)
            else if dest == Some(d) then Values(fs, None, plan) else Values(fs, dest, plan)
  {
    ConcatValues(Wrap(d, fs), [Collect(d)], dest, plan);
    WrapValues(d, fs, dest, plan);
    Single(Collect(d), d, dest, plan);
  }

  /** And they are in order. */
  lemma {:induction false} WrapOrdered(d: nat, fs: seq<Future>)
    requires Ordered(fs) && !Holds(fs, d) && !Collects(fs, d)
    ensures Ordered(Wrap(d, fs) + [Collect(d)])
  {
    if fs != [] {
      var rest := Wrap(d, fs[1..]) + [Collect(d)];
      assert Wrap(d, fs) + [Collect(d)] == [SendTo(d, fs[0])] + rest;
      WrapOrdered(d, fs[1..]);
      forall c | c in Path(SendTo(d, fs[0])) ensures Collects(rest, c) {
        WrapHolds(d, fs[1..], c);
        Concat(Wrap(d, fs[1..]), [Collect(d)], c);
      }
      if Leaf(fs[0]).Collect? {
        WrapHolds(d, fs[1..], Leaf(fs[0]).chan);
        Concat(Wrap(d, fs[1..]), [Collect(d)], Leaf(fs[0]).chan);
      }
    } else {
      assert Wrap(d, fs) + [Collect(d)] == [Collect(d)];
    }
  }

  lemma BatchOrdered(d: nat, fs: seq<Future>, hi: nat)
    requires InRange(fs, d + 1, hi) && Ordered(fs) && d < hi
    ensures InRange(Wrap(d, fs) + [Collect(d)], d, hi) && Ordered(Wrap(d, fs) + [Collect(d)])
  {
    Outside(fs, d + 1, hi, d);
    Widen(fs, d + 1, hi, d, hi);
    WrapRange(d, fs, d, hi);
    ConcatRange(Wrap(d, fs), [Collect(d)], d, hi);
    WrapOrdered(d, fs);
  }

  /** Every channel of a range gets exactly its planned results, in order. */
  predicate Fills(fs: seq<Future>, lo: nat, hi: nat, plan: seq<seq<Message>>) {
    forall c | lo <= c < hi && c < |plan| :: Values(fs, Some(c), plan) == plan[c]
  }

  lemma ConcatFills(a: seq<Future>, b: seq<Future>, lo: nat, mid: nat, hi: nat, plan: seq<seq<Message>>)
    requires InRange(a, lo, mid) && InRange(b, mid, hi)
    requires Fills(a, lo, mid, plan) && Fills(b, mid, hi, plan)
    ensures Fills(a + b, lo, hi, plan)
  {
    forall c | lo <= c < hi && c < |plan| ensures Values(a + b, Some(c), plan) == plan[c] {
      ConcatValues(a, b, Some(c), plan);
      if c < mid {
        Outside(b, mid, hi, c);
        NothingFor(b, Some(c), plan);
      } else {
        Outside(a, lo, mid, c);
        NothingFor(a, Some(c), plan);
      }
    }
  }

  lemma BatchFills(d: nat, fs: seq<Future>, hi: nat, plan: seq<seq<Message>>)
    requires InRange(fs, d + 1, hi) && Fills(fs, d + 1, hi, plan)
    requires d < |plan| && Values(fs, None, plan) == plan[d]
    ensures Fills(Wrap(d, fs) + [Collect(d)], d, hi, plan)
    ensures Values(Wrap(d, fs) + [Collect(d)], None, plan) == Value(Collect(d), plan)
  {
    Outside(fs, d + 1, hi, d);
    BatchValues(d, fs, None, plan);
    forall c | d <= c < hi && c < |plan| ensures Values(Wrap(d, fs) + [Collect(d)], Some(c), plan) == plan[c] {
      BatchFillsOne(d, fs, hi, plan, c);
    }
  }

  lemma BatchFillsOne(d: nat, fs: seq<Future>, hi: nat, plan: seq<seq<Message>>, c: nat)
    requires Count(fs, Some(d)) == 0 && d <= c < hi && c < |plan|
    requires if c == d then Values(fs, None, plan) == plan[d] else Values(fs, Some(c), plan) == plan[c]
    ensures Values(Wrap(d, fs) + [Collect(d)], Some(c), plan) == plan[c]
  {
    BatchValues(d, fs, Some(c), plan);
  }

  // ---- Who holds a sender ------------------------------------------------

  /** Does a stream own a sender of c: in one of its futures, or because a
      sub-stream of the batch of c is still there. */
  predicate StreamHolds(s: Stream, c: nat)
    decreases s, 1
  {
    match s
    case Empty => false
    case Once(f) => c in Path(f)
    case OfBatch(d, subs) => (c == d && subs != []) || SubsHold(subs, c)
  }

  predicate SubsHold(subs: seq<Stream>, c: nat)
    decreases subs, 0
  {
    subs != [] && (StreamHolds(subs[0], c) || SubsHold(subs[1..], c))
  }

  /** Single-future streams hold no sender of their own. */
  predicate Plain(s: Stream)
    decreases s, 1
  {
    match s
    case Empty => true
    case Once(f) => f.Work?
    case OfBatch(_, subs) => PlainAll(subs)
  }

  predicate PlainAll(subs: seq<Stream>)
    decreases subs, 0
  {
    subs == [] || (Plain(subs[0]) && PlainAll(subs[1..]))
  }

  /** A sender owned by a future of the stream is owned by the stream, and of
      whatever channel the stream owns a sender, it still has the collector. */
  lemma {:induction false} StreamHolders(s: Stream, c: nat)
    requires Plain(s)
    ensures Holds(Flat(s), c) ==> StreamHolds(s, c)
    ensures StreamHolds(s, c) ==> Collects(Flat(s), c)
    decreases s, 1
  {
    match s
    case Empty =>
    case Once(f) => Single(f, c, None, []);
    case OfBatch(d, subs) =>
      SubStreamHolders(subs, c);
      WrapHolds(d, FlatAll(subs), c);
      Concat(Wrap(d, FlatAll(subs)), [Collect(d)], c);
  }

  lemma {:induction false} SubStreamHolders(subs: seq<Stream>, c: nat)
    requires PlainAll(subs)
    ensures Holds(FlatAll(subs), c) ==> SubsHold(subs, c)
    ensures SubsHold(subs, c) ==> Collects(FlatAll(subs), c)
    ensures FlatAll(subs) != [] ==> subs != []
    decreases subs, 0
  {
    if subs != [] {
      StreamHolders(subs[0], c);
      SubStreamHolders(subs[1..], c);
      Concat(Flat(subs[0]), FlatAll(subs[1..]), c);
    }
  }

  lemma {:induction false} NextIsPlain(s: Stream)
    requires Plain(s)
    ensures Plain(Next(s).1)
    decreases s, 1
  {
    if s.OfBatch? {
      NextOfIsPlain(s.chan, s.subs);
    }
  }

  lemma {:induction false} NextOfIsPlain(c: nat, subs: seq<Stream>)
    requires PlainAll(subs)
    ensures Plain(NextOf(c, subs).1)
    decreases subs, 0
  {
    if subs != [] {
      NextIsPlain(subs[0]);
      NextOfIsPlain(c, subs[1..]);
      assert ([Next(subs[0]).1] + subs[1..])[1..] == subs[1..];
    }
  }

  // ---- Removing a finished future ------------------------------------------

  function Remove(fs: seq<Future>, i: nat): seq<Future>
    requires i < |fs|
  {
    fs[..i] + fs[i + 1..]
  }

  lemma {:induction false} RemoveFinds(fs: seq<Future>, i: nat, c: nat)
    requires i < |fs|
    ensures Holds(Remove(fs, i), c) ==> Holds(fs, c)
    ensures Collects(Remove(fs, i), c) ==> Collects(fs, c)
    ensures Leaf(fs[i]) != Collect(c) && Collects(fs, c) ==> Collects(Remove(fs, i), c)
  {
    if i == 0 {
      assert Remove(fs, i) == fs[1..];
    } else {
      RemoveFinds(fs[1..], i - 1, c);
      assert Remove(fs, i)[1..] == Remove(fs[1..], i - 1);
    }
  }

  /** Order survives the removal of work, and of a collector nobody sends to. */
  lemma {:induction false} RemoveOrdered(fs: seq<Future>, i: nat)
    requires i < |fs| && Ordered(fs)
    requires Leaf(fs[i]).Collect? ==> !Holds(fs, Leaf(fs[i]).chan)
    ensures Ordered(Remove(fs, i))
  {
    if i == 0 {
      assert Remove(fs, i) == fs[1..];
    } else {
      var rest := Remove(fs[1..], i - 1);
      assert Remove(fs, i)[1..] == rest;
      RemoveOrdered(fs[1..], i - 1);
      forall c | c in Path(fs[0]) ensures Collects(rest, c) {
        RemoveFinds(fs[1..], i - 1, c);
      }
      if Leaf(fs[0]).Collect? {
        RemoveFinds(fs[1..], i - 1, Leaf(fs[0]).chan);
      }
    }
  }

  lemma {:induction false} RemoveRange(fs: seq<Future>, i: nat, lo: nat, hi: nat)
    requires i < |fs| && InRange(fs, lo, hi)
    ensures InRange(Remove(fs, i), lo, hi) && FutureInRange(fs[i], lo, hi)
  {
    if i == 0 {
      assert Remove(fs, i) == fs[1..];
    } else {
      RemoveRange(fs[1..], i - 1, lo, hi);
      assert Remove(fs, i)[1..] == Remove(fs[1..], i - 1);
    }
  }

  lemma {:induction false} RemoveCount(fs: seq<Future>, i: nat, dest: Option<nat>)
    requires i < |fs|
    ensures Count(fs, dest) == Count(Remove(fs, i), dest) + if Dest(fs[i]) == dest then 1 else 0
  {
    if i == 0 {
      assert Remove(fs, i) == fs[1..];
    } else {
      RemoveCount(fs[1..], i - 1, dest);
      assert Remove(fs, i)[1..] == Remove(fs[1..], i - 1);
    }
  }

  lemma RemoveValues(fs: seq<Future>, i: nat, dest: Option<nat>, plan: seq<seq<Message>>)
    requires i < |fs|
    ensures var v := if Dest(fs[i]) == dest then Value(fs[i], plan) else [];
            && Values(fs, dest, plan) == Values(fs[..i], dest, plan) + v + Values(fs[i + 1..], dest, plan)
            && Values(Remove(fs, i), dest, plan) == Values(fs[..i], dest, plan) + Values(fs[i + 1..], dest, plan)
  {
    assert fs == fs[..i] + [fs[i]] + fs[i + 1..];
    ConcatValues(fs[..i] + [fs[i]], fs[i + 1..], dest, plan);
    ConcatValues(fs[..i], [fs[i]], dest, plan);
    ConcatValues(fs[..i], fs[i + 1..], dest, plan);
    Single(fs[i], 0, dest, plan);
  }

  /** Nothing after a collector, nor the collector itself, sends to its channel or
      collects it again. */
  lemma {:induction false} CollectorIsLast(fs: seq<Future>, i: nat)
    requires i < |fs| && Ordered(fs) && Leaf(fs[i]).Collect?
    ensures !Holds(fs[i..], Leaf(fs[i]).chan) && !Collects(fs[i + 1..], Leaf(fs[i]).chan)
  {
    if i > 0 {
      CollectorIsLast(fs[1..], i - 1);
      assert fs[1..][i - 1..] == fs[i..] && fs[1..][i..] == fs[i + 1..];
    } else {
      assert fs[0..] == fs;
    }
  }

  lemma {:induction false} CountNeedsHolder(fs: seq<Future>, c: nat)
    requires !Holds(fs, c)
    ensures Count(fs, Some(c)) == 0
  {
    if fs != [] {
      CountNeedsHolder(fs[1..], c);
    }
  }

  /** Planning more channels does not change what is planned for these futures. */
  lemma {:induction false} PlanMore(fs: seq<Future>, dest: Option<nat>, plan: seq<seq<Message>>,
                                    more: seq<seq<Message>>)
    requires InRange(fs, 0, |plan|)
    ensures Values(fs, dest, plan + more) == Values(fs, dest, plan)
  {
    if fs != [] {
      PlanMore(fs[1..], dest, plan, more);
    }
  }
}
