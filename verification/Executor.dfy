// The executor: the pipeline of Endpoint::start that maps inbound messages to
// streams of futures, flattens them and runs up to `parallel` of the futures at a
// time (src/endpoint.rs: map(do_msg), flatten, buffer_unordered, filter_map).
//
// Which enabled step comes next is left open: server futures may resolve in any
// order.  A step that is not enabled leaves the state as it is.
module Executor {
  import opened Wrappers
  import opened Message
  import opened Futures
  import opened Dispatch
  import opened Canon

  // ---- State -------------------------------------------------------------

  /** What the outside did to the dispatcher: handed it a message, or stopped the
      server between two messages. */
  datatype Inbound = Got(parsed: Parsed) | Stopped

  datatype State = State(
    parallel: nat,
    ctx: Context,
    stream: Stream,          // the stream of the message being worked on
    inflight: seq<Future>,   // admitted and unfinished, in admission order
    chans: seq<Chan>,        // every batch channel ever opened
    out: seq<Message>,       // the answers, in the order they are emitted
    ended: bool,             // no further message is taken
    seen: seq<Inbound>)      // history: what was taken so far

  function Init(parallel: nat): State {
    State(parallel, Context(false, []), Empty, [], [], [], false, [])
  }

  datatype Event =
    | Pull(parsed: Parsed)  // take the next message and dispatch it
    | Stop                  // the server is stopped from outside
    | End                   // the end of the inbound messages
    | Admit                 // the next future of the stream gets a slot
    | Drain(i: nat)         // collector i takes a message from its channel
    | Finish(i: nat)        // future i resolves

  /** The unfinished futures in the order of their admission. */
  function All(s: State): seq<Future> {
    s.inflight + Flat(s.stream)
  }

  function Sent(c: Chan): seq<Message> {
    c.taken + c.buffer
  }

  // ---- Steps -------------------------------------------------------------

  predicate HasSlot(s: State) {
    |s.inflight| < s.parallel
  }

  predicate CanPull(s: State) {
    !s.ended && HasSlot(s) && Next(s.stream).0 == None
  }

  predicate CanAdmit(s: State) {
    HasSlot(s) && Next(s.stream).0 != None
  }

  /** Some sender of channel c is alive. */
  predicate Held(s: State, c: nat) {
    StreamHolds(s.stream, c) || Holds(s.inflight, c)
  }

  /** Work can always resolve; a collector waits until no sender is alive. */
  predicate Ready(s: State, f: Future) {
    match Leaf(f)
    case Collect(c) => c < |s.chans| && !Held(s, c)
    case _ => true
  }

  /** What a ready future yields before sending it on. */
  function Yield(s: State, f: Future): seq<Message> {
    match Leaf(f)
    case Work(Some(m)) => [m]
    case Collect(c) => if c < |s.chans| then InBatch(Sent(s.chans[c])) else []
    case _ => []
  }

  /** Sending never has to wait: no message, no channel, or room in it. */
  predicate Room(s: State, f: Future) {
    match Dest(f)
    case None => true
    case Some(d) => Yield(s, f) == [] || (d < |s.chans| && |s.chans[d].buffer| < s.chans[d].capacity)
  }

  /** The channel a future sends to has room, whatever it yields. */
  predicate HasRoom(s: State, f: Future) {
    match Dest(f)
    case None => true
    case Some(d) => d < |s.chans| && |s.chans[d].buffer| < s.chans[d].capacity
  }

  predicate CanFinish(s: State, i: nat) {
    i < |s.inflight| && Ready(s, s.inflight[i]) && Room(s, s.inflight[i])
  }

  predicate CanDrain(s: State, i: nat) {
    i < |s.inflight|
    && match Leaf(s.inflight[i])
       case Collect(c) => c < |s.chans| && s.chans[c].buffer != []
       case _ => false
  }

  function Taken(c: Chan): Chan {
    c.(buffer := [], taken := Sent(c))
  }

  function Pushed(c: Chan, ms: seq<Message>): Chan {
    c.(buffer := c.buffer + ms)
  }

  /** The channels after future f has resolved: a collector has taken everything
      from its channel, and the result is in the destination's. */
  function ChansAfter(s: State, f: Future): (chans: seq<Chan>)
    ensures |chans| == |s.chans|
  {
    var taken := match Leaf(f)
      case Collect(c) => if c < |s.chans| then s.chans[c := Taken(s.chans[c])] else s.chans
      case _ => s.chans;
    match Dest(f)
    case Some(d) => if d < |taken| then taken[d := Pushed(taken[d], Yield(s, f))] else taken
    case None => taken
  }

  function PullStep(srv: Server, s: State, parsed: Parsed): State {
    var d := DoMsg(srv, s.ctx, s.chans, parsed);
    s.(ctx := d.ctx, chans := d.chans, stream := d.stream, seen := s.seen + [Got(parsed)])
  }

  function FinishStep(s: State, i: nat): State
    requires i < |s.inflight|
  {
    var f := s.inflight[i];
    s.(inflight := s.inflight[..i] + s.inflight[i + 1..],
       chans := ChansAfter(s, f),
       out := if Dest(f) == None then s.out + Yield(s, f) else s.out)
  }

  function DrainStep(s: State, i: nat): State
    requires CanDrain(s, i)
  {
    var c := Leaf(s.inflight[i]).chan;
    var chan := s.chans[c];
    s.(chans := s.chans[c := chan.(buffer := chan.buffer[1..], taken := chan.taken + [chan.buffer[0]])])
  }

  predicate Enabled(s: State, e: Event) {
    match e
    case Pull(_) => CanPull(s)
    case Stop => !s.ctx.stop
    case End => !s.ended
    case Admit => CanAdmit(s)
    case Drain(i) => CanDrain(s, i)
    case Finish(i) => CanFinish(s, i)
  }

  function Step(srv: Server, s: State, e: Event): State {
    if !Enabled(s, e) then s
    else
      match e
      case Pull(parsed) => PullStep(srv, s, parsed)
      case Stop => s.(ctx := s.ctx.(stop := true), seen := s.seen + [Stopped])
      case End => s.(ended := true)
      case Admit =>
        var (f, rest) := Next(s.stream);
        s.(inflight := s.inflight + [f.value], stream := rest)
      case Drain(i) => DrainStep(s, i)
      case Finish(i) => FinishStep(s, i)
  }

  function Run(srv: Server, s: State, es: seq<Event>): State
    decreases es
  {
    if es == [] then s else Run(srv, Step(srv, s, es[0]), es[1..])
  }

  // ---- The specification over a history ------------------------------------

  datatype History = History(ctx: Context, replies: seq<Message>, plan: seq<seq<Message>>)

  /** In-order replies to everything taken, and the planned batches. */
  function Specified(srv: Server, seen: seq<Inbound>): History {
    if seen == [] then History(Context(false, []), [], [])
    else
      var h := Specified(srv, seen[..|seen| - 1]);
      match seen[|seen| - 1]
      case Stopped => h.(ctx := h.ctx.(stop := true))
      case Got(parsed) =>
        var r := ReplyToParsed(srv, h.ctx, parsed);
        History(r.ctx, h.replies + r.replies, h.plan + PlansOf(srv, h.ctx, parsed))
  }

  // ---- The invariant -----------------------------------------------------

  /** What is sent and what is still to be sent into each batch channel fits, and
      together it is what the batch is specified to gather, up to order. */
  predicate ChanOk(c: nat, chan: Chan, all: seq<Future>, plan: seq<seq<Message>>)
    requires c < |plan|
  {
    && |Sent(chan)| + Count(all, Some(c)) <= chan.capacity
    && BagOf(Sent(chan)) + BagOf(Values(all, Some(c), plan)) == BagOf(plan[c])
  }

  predicate ChansOk(chans: seq<Chan>, all: seq<Future>, plan: seq<seq<Message>>) {
    |chans| == |plan| && forall c | 0 <= c < |chans| :: ChanOk(c, chans[c], all, plan)
  }

  predicate Shape(s: State) {
    && Plain(s.stream)
    && Ordered(All(s))
    && InRange(All(s), 0, |s.chans|)
    && |s.inflight| <= s.parallel
  }

  predicate Inv(srv: Server, s: State) {
    var h := Specified(srv, s.seen);
    && Shape(s)
    && s.ctx == h.ctx
    && ChansOk(s.chans, All(s), h.plan)
    && BagOf(s.out) + BagOf(Values(All(s), None, h.plan)) == BagOf(h.replies)
  }

  lemma InitOk(srv: Server, parallel: nat)
    ensures Inv(srv, Init(parallel))
  {
  }

  lemma SpecifiedStep(srv: Server, seen: seq<Inbound>, x: Inbound)
    ensures var h := Specified(srv, seen);
            Specified(srv, seen + [x]) ==
            match x
            case Stopped => h.(ctx := h.ctx.(stop := true))
            case Got(parsed) =>
              var r := ReplyToParsed(srv, h.ctx, parsed);
              History(r.ctx, h.replies + r.replies, h.plan + PlansOf(srv, h.ctx, parsed))
  {
    assert (seen + [x])[..|seen|] == seen;
  }

  // ---- A collector knows when its batch is done -----------------------------

  /** A collector that has been admitted finds no sender alive exactly if no future
      of its batch is left, neither admitted nor still in the stream: no batch reply
      is early and none waits for nothing. */
  lemma CollectorComplete(s: State, i: nat)
    requires Shape(s) && i < |s.inflight| && Leaf(s.inflight[i]).Collect?
    ensures var c := Leaf(s.inflight[i]).chan; Held(s, c) <==> Holds(All(s), c)
    ensures var c := Leaf(s.inflight[i]).chan; !Holds(All(s)[i..], c)
  {
    var c := Leaf(s.inflight[i]).chan;
    CollectorIsLast(All(s), i);
    assert All(s)[i + 1..] == s.inflight[i + 1..] + Flat(s.stream);
    Concat(s.inflight[i + 1..], Flat(s.stream), c);
    StreamHolders(s.stream, c);
    Concat(s.inflight, Flat(s.stream), c);
  }

  /** So a ready collector has gathered exactly its batch, up to order. */
  lemma YieldIsPlanned(s: State, i: nat, plan: seq<seq<Message>>)
    requires Shape(s) && ChansOk(s.chans, All(s), plan)
    requires i < |s.inflight| && Ready(s, s.inflight[i])
    ensures BagOf(Yield(s, s.inflight[i])) == BagOf(Value(s.inflight[i], plan))
    ensures |Yield(s, s.inflight[i])| <= 1
  {
    var f := s.inflight[i];
    if Leaf(f).Collect? {
      var c := Leaf(f).chan;
      CollectorComplete(s, i);
      CountNeedsHolder(All(s), c);
      NothingFor(All(s), Some(c), plan);
      assert ChanOk(c, s.chans[c], All(s), plan);
      BagBatch(Sent(s.chans[c]), plan[c]);
    }
  }

  /** No send into a batch channel ever has to wait: the channel has room for what
      this future yields, whatever was or was not taken out of it. */
  lemma NoSendBlocks(s: State, i: nat, plan: seq<seq<Message>>)
    requires Shape(s) && ChansOk(s.chans, All(s), plan) && i < |s.inflight|
    ensures Room(s, s.inflight[i]) && HasRoom(s, s.inflight[i])
  {
    var f := s.inflight[i];
    assert All(s)[i] == f;
    RemoveRange(All(s), i, 0, |s.chans|);
    if Dest(f).Some? {
      var d := Dest(f).value;
      assert d in Path(f);
      RemoveCount(All(s), i, Some(d));
      assert ChanOk(d, s.chans[d], All(s), plan);
    }
  }

  /** The oldest admitted future only depends on futures that have finished: it can
      always finish. */
  lemma OldestCanFinish(s: State, plan: seq<seq<Message>>)
    requires Shape(s) && ChansOk(s.chans, All(s), plan) && s.inflight != []
    ensures CanFinish(s, 0)
  {
    NoSendBlocks(s, 0, plan);
    RemoveRange(All(s), 0, 0, |s.chans|);
    if Leaf(s.inflight[0]).Collect? {
      CollectorComplete(s, 0);
      assert All(s)[0..] == All(s);
    }
  }

  // ---- Every step keeps the invariant ---------------------------------------

  lemma RemoveBag(fs: seq<Future>, i: nat, dest: Option<nat>, plan: seq<seq<Message>>)
    requires i < |fs|
    ensures BagOf(Values(fs, dest, plan))
         == BagOf(Values(Remove(fs, i), dest, plan)) + BagOf(if Dest(fs[i]) == dest then Value(fs[i], plan) else [])
  {
    RemoveValues(fs, i, dest, plan);
    var v := if Dest(fs[i]) == dest then Value(fs[i], plan) else [];
    BagMiddle(Values(fs[..i], dest, plan), v, Values(fs[i + 1..], dest, plan));
  }

  lemma RemoveFromAll(s: State, i: nat)
    requires i < |s.inflight|
    ensures All(FinishStep(s, i)) == Remove(All(s), i)
    ensures All(s)[i] == s.inflight[i]
  {
  }

  lemma FinishKeepsShape(s: State, i: nat)
    requires Shape(s) && CanFinish(s, i)
    ensures Shape(FinishStep(s, i))
  {
    RemoveFromAll(s, i);
    RemoveRange(All(s), i, 0, |s.chans|);
    if Leaf(s.inflight[i]).Collect? {
      CollectorComplete(s, i);
    }
    RemoveOrdered(All(s), i);
  }

  /** The effect on one channel: its contents grow by what was sent into it. */
  lemma {:induction false} FinishSends(s: State, i: nat, c: nat)
    requires Shape(s) && CanFinish(s, i) && c < |s.chans|
    ensures var f := s.inflight[i];
            Sent(ChansAfter(s, f)[c]) == Sent(s.chans[c]) + if Dest(f) == Some(c) then Yield(s, f) else []
    ensures ChansAfter(s, s.inflight[i])[c].capacity == s.chans[c].capacity
  {
    var f := s.inflight[i];
    var chan := ChansAfter(s, f)[c];
    if Leaf(f) == Collect(c) {
      assert Sent(Taken(s.chans[c])) == Sent(s.chans[c]);
    }
  }

  lemma FinishKeepsChan(s: State, i: nat, plan: seq<seq<Message>>, c: nat)
    requires Shape(s) && ChansOk(s.chans, All(s), plan) && CanFinish(s, i) && c < |s.chans|
    ensures ChanOk(c, ChansAfter(s, s.inflight[i])[c], Remove(All(s), i), plan)
  {
    var f := s.inflight[i];
    assert All(s)[i] == f;
    FinishSends(s, i, c);
    YieldIsPlanned(s, i, plan);
    RemoveCount(All(s), i, Some(c));
    RemoveBag(All(s), i, Some(c), plan);
    assert ChanOk(c, s.chans[c], All(s), plan);
    BagConcat(Sent(s.chans[c]), if Dest(f) == Some(c) then Yield(s, f) else []);
  }

  lemma FinishKeeps(srv: Server, s: State, i: nat)
    requires Inv(srv, s) && CanFinish(s, i)
    ensures Inv(srv, FinishStep(s, i))
  {
    var plan := Specified(srv, s.seen).plan;
    var t := FinishStep(s, i);
    FinishKeepsShape(s, i);
    RemoveFromAll(s, i);
    forall c | 0 <= c < |t.chans| ensures ChanOk(c, t.chans[c], All(t), plan) {
      FinishKeepsChan(s, i, plan, c);
    }
    YieldIsPlanned(s, i, plan);
    RemoveBag(All(s), i, None, plan);
    BagConcat(s.out, Yield(s, s.inflight[i]));
  }

  /** A message that a collector takes stays with its channel. */
  lemma DrainKeepsSent(s: State, i: nat, c: nat)
    requires CanDrain(s, i) && c < |s.chans|
    ensures Sent(DrainStep(s, i).chans[c]) == Sent(s.chans[c])
    ensures DrainStep(s, i).chans[c].capacity == s.chans[c].capacity
  {
    if c == Leaf(s.inflight[i]).chan {
      var b := s.chans[c].buffer;
      assert b == [b[0]] + b[1..];
    }
  }

  lemma {:induction false} DrainKeeps(srv: Server, s: State, i: nat)
    requires Inv(srv, s) && CanDrain(s, i)
    ensures Inv(srv, DrainStep(s, i))
  {
    var plan := Specified(srv, s.seen).plan;
    var t := DrainStep(s, i);
    forall c | 0 <= c < |t.chans| ensures ChanOk(c, t.chans[c], All(t), plan) {
      assert ChanOk(c, s.chans[c], All(s), plan);
      DrainKeepsSent(s, i, c);
    }
  }

  lemma AdmitMovesHead(srv: Server, s: State)
    requires CanAdmit(s)
    ensures All(Step(srv, s, Admit)) == All(s)
    ensures Plain(s.stream) ==> Plain(Step(srv, s, Admit).stream)
  {
    NextIsHead(s.stream);
    MoveHead(s.inflight, Flat(s.stream));
    if Plain(s.stream) {
      NextIsPlain(s.stream);
    }
  }

  lemma MoveHead(a: seq<Future>, b: seq<Future>)
    requires b != []
    ensures a + [b[0]] + b[1..] == a + b
  {
  }

  /** Taking a message appends its futures, which use new channels only. */
  lemma PullShape(srv: Server, s: State, parsed: Parsed)
    requires Shape(s) && CanPull(s)
    ensures Shape(PullStep(srv, s, parsed))
    ensures All(s) == s.inflight
  {
    var t := PullStep(srv, s, parsed);
    var fs := Flat(t.stream);
    NextIsHead(s.stream);
    assert s.inflight + [] == s.inflight;
    DispatchFacts(srv, s.ctx, s.chans, parsed);
    ConcatOrdered(s.inflight, fs, 0, |s.chans|, |t.chans|);
    Widen(s.inflight, 0, |s.chans|, 0, |t.chans|);
    Widen(fs, |s.chans|, |t.chans|, 0, |t.chans|);
    ConcatRange(s.inflight, fs, 0, |t.chans|);
  }

  lemma PullChan(srv: Server, s: State, parsed: Parsed, plan: seq<seq<Message>>, c: nat)
    requires Shape(s) && CanPull(s) && ChansOk(s.chans, All(s), plan)
    requires c < |PullStep(srv, s, parsed).chans|
    ensures |plan + PlansOf(srv, s.ctx, parsed)| == |PullStep(srv, s, parsed).chans|
    ensures var t := PullStep(srv, s, parsed);
            ChanOk(c, t.chans[c], All(t), plan + PlansOf(srv, s.ctx, parsed))
  {
    var t := PullStep(srv, s, parsed);
    var plan' := plan + PlansOf(srv, s.ctx, parsed);
    var fs := Flat(t.stream);
    PullShape(srv, s, parsed);
    DispatchFacts(srv, s.ctx, s.chans, parsed);
    DispatchYields(srv, s.ctx, s.chans, parsed, plan');
    ConcatCount(s.inflight, fs, Some(c));
    ConcatValues(s.inflight, fs, Some(c), plan');
    if c < |s.chans| {
      assert ChanOk(c, s.chans[c], All(s), plan);
      assert t.chans[c] == s.chans[c];
      PlanMore(s.inflight, Some(c), plan, PlansOf(srv, s.ctx, parsed));
      Outside(fs, |s.chans|, |t.chans|, c);
      NothingFor(fs, Some(c), plan');
      assert Values(s.inflight, Some(c), plan) + [] == Values(s.inflight, Some(c), plan);
    } else {
      Outside(s.inflight, 0, |s.chans|, c);
      NothingFor(s.inflight, Some(c), plan');
      assert [] + Values(fs, Some(c), plan') == plan'[c];
      assert Sent(t.chans[c]) == [];
    }
  }

  lemma PullKeeps(srv: Server, s: State, parsed: Parsed)
    requires Inv(srv, s) && CanPull(s)
    ensures Inv(srv, PullStep(srv, s, parsed))
  {
    var h := Specified(srv, s.seen);
    var t := PullStep(srv, s, parsed);
    var plan' := h.plan + PlansOf(srv, s.ctx, parsed);
    SpecifiedStep(srv, s.seen, Got(parsed));
    PullShape(srv, s, parsed);
    DispatchFacts(srv, s.ctx, s.chans, parsed);
    forall c | 0 <= c < |t.chans| ensures ChanOk(c, t.chans[c], All(t), plan') {
      PullChan(srv, s, parsed, h.plan, c);
    }
    DispatchYields(srv, s.ctx, s.chans, parsed, plan');
    ConcatValues(s.inflight, Flat(t.stream), None, plan');
    PlanMore(s.inflight, None, h.plan, PlansOf(srv, s.ctx, parsed));
    var replies := ReplyToParsed(srv, s.ctx, parsed).replies;
    BagConcat(Values(s.inflight, None, plan'), replies);
    BagConcat(h.replies, replies);
  }

  lemma EndKeeps(srv: Server, s: State)
    requires Inv(srv, s)
    ensures Inv(srv, s.(ended := true))
  {
    assert All(s.(ended := true)) == All(s);
  }

  lemma StepKeeps(srv: Server, s: State, e: Event)
    requires Inv(srv, s)
    ensures Inv(srv, Step(srv, s, e))
  {
    if Enabled(s, e) {
      match e
      case Pull(parsed) => PullKeeps(srv, s, parsed);
      case Stop => SpecifiedStep(srv, s.seen, Stopped);
      case End => EndKeeps(srv, s);
      case Admit => AdmitMovesHead(srv, s);
      case Drain(i) => DrainKeeps(srv, s, i);
      case Finish(i) => FinishKeeps(srv, s, i);
    }
  }

  /** Answers are only ever added at the end. */
  lemma OutGrows(srv: Server, s: State, e: Event)
    ensures s.out <= Step(srv, s, e).out
  {
  }

  lemma {:induction false} RunKeeps(srv: Server, s: State, es: seq<Event>)
    requires Inv(srv, s)
    ensures Inv(srv, Run(srv, s, es))
    decreases es
  {
    if es != [] {
      StepKeeps(srv, s, es[0]);
      RunKeeps(srv, Step(srv, s, es[0]), es[1..]);
    }
  }
}
