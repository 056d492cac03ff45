// Dispatching one inbound message: do_msg, do_batch, do_request, do_notification
// and do_response of src/endpoint.rs, as functions from a message to a stream of
// futures, and the in-order specification of the replies.
module Dispatch {
  import opened Wrappers
  import opened Json
  import opened Message
  import opened Futures
  import Life

  // ---- The server --------------------------------------------------------

  /** What a callback can do to the connection through its control and clients. */
  predicate ByUser(e: Life.Event) {
    !e.Respond? && !e.EndOfInput? && !e.TakeQueued? && !e.TransmitEnd?
  }

  type Act = e: Life.Event | ByUser(e) witness Life.Terminate

  datatype Callback = OnRequest(request: Request) | OnNotification(notification: Notification)

  /** What dispatching does besides producing futures, in the order it happens. */
  datatype Effect = Called(callback: Callback, acts: seq<Act>) | Routed(response: Response)

  /** What a request callback does, and what its future resolves to if it accepts. */
  datatype Reaction = Reaction(acts: seq<Act>, answer: Option<Result<Json, RpcError>>)

  /** An arbitrary server: its reactions are functions of the effects dispatched so
      far.  A server may also look at clocks or at what users do; whatever it answered
      in one run, some server here answers the same in that run, so that a statement
      about all servers covers it. */
  datatype Server = Server(
    rpc: (seq<Effect>, Request) -> Reaction,
    notification: (seq<Effect>, Notification) -> seq<Act>)

  /** The part of the state dispatching reads and writes: the stop flag and the
      effects so far. */
  datatype Context = Context(stop: bool, log: seq<Effect>)

  predicate StopsServer(acts: seq<Act>) {
    exists a | a in acts :: Life.Stops(a)
  }

  function AfterCall(ctx: Context, callback: Callback, acts: seq<Act>): Context {
    Context(ctx.stop || StopsServer(acts), ctx.log + [Called(callback, acts)])
  }

  function AfterRoute(ctx: Context, response: Response): Context {
    ctx.(log := ctx.log + [Routed(response)])
  }

  function AfterRequest(srv: Server, ctx: Context, request: Request): Context {
    AfterCall(ctx, OnRequest(request), srv.rpc(ctx.log, request).acts)
  }

  function AfterNotification(srv: Server, ctx: Context, n: Notification): Context {
    AfterCall(ctx, OnNotification(n), srv.notification(ctx.log, n))
  }

  /** The reply to a request: its id with the server's result, its error, or
      "method not found" if the server refuses. */
  function RequestReply(srv: Server, ctx: Context, request: Request): (reply: Message)
    ensures reply.ResponseMsg? && reply.response.id == request.id
    ensures var answer := srv.rpc(ctx.log, request).answer;
            if answer.Some? then reply.response.result == answer.value
            else reply.response.result == Err(RpcError(-32601, "Method not found", Some(Str(request.rpcMethod))))
  {
    match srv.rpc(ctx.log, request).answer
    case None => ErrorTo(request, MethodNotFound(request.rpcMethod))
    case Some(Err(e)) => ErrorTo(request, e)
    case Some(Ok(value)) => ReplyTo(request, value)
  }

  // ---- Dispatch ----------------------------------------------------------

  datatype Dispatched = Dispatched(ctx: Context, chans: seq<Chan>, stream: Stream)

  datatype DispatchedSubs = DispatchedSubs(ctx: Context, chans: seq<Chan>, streams: seq<Stream>)

  function DoMsg(srv: Server, ctx: Context, chans: seq<Chan>, parsed: Parsed): Dispatched {
    match parsed
    case Err(broken) => DoBroken(ctx, chans, broken)
    case Ok(m) => DoMessage(srv, ctx, chans, m)
  }

  function DoBroken(ctx: Context, chans: seq<Chan>, broken: Broken): Dispatched {
    if ctx.stop then Dispatched(ctx, chans, Empty)
    else Dispatched(ctx, chans, Once(Work(Some(BrokenReply(broken)))))
  }

  function DoMessage(srv: Server, ctx: Context, chans: seq<Chan>, m: Message): Dispatched
    decreases m, 1
  {
    if ctx.stop then
      match m
      case ResponseMsg(response) => Dispatched(AfterRoute(ctx, response), chans, Empty)
      case _ => Dispatched(ctx, chans, Empty)
    else
      match m
      case RequestMsg(request) =>
        Dispatched(AfterRequest(srv, ctx, request), chans, Once(Work(Some(RequestReply(srv, ctx, request)))))
      case NotificationMsg(n) =>
        Dispatched(AfterNotification(srv, ctx, n), chans, Once(Work(None)))
      case Batch(ms) =>
        var subs := DoSubs(srv, ctx, chans + [Chan(|ms|, [], [])], ms);
        Dispatched(subs.ctx, subs.chans, OfBatch(|chans|, subs.streams))
      case UnmatchedSub(value) => DoBroken(ctx, chans, Unmatched(value))
      case ResponseMsg(response) => Dispatched(AfterRoute(ctx, response), chans, Empty)
  }

  /** The sub-messages of a batch are dispatched eagerly, left to right. */
  function DoSubs(srv: Server, ctx: Context, chans: seq<Chan>, ms: seq<Message>): DispatchedSubs
    decreases ms, 0
  {
    if ms == [] then DispatchedSubs(ctx, chans, [])
    else
      var first := DoMessage(srv, ctx, chans, ms[0]);
      var rest := DoSubs(srv, first.ctx, first.chans, ms[1..]);
      DispatchedSubs(rest.ctx, rest.chans, [first.stream] + rest.streams)
  }

  // ---- The replies, specified --------------------------------------------

  datatype Replied = Replied(ctx: Context, replies: seq<Message>)

  /** At most one reply: one per request with its id, one null-id error per broken
      part, none for notifications and responses, and for a batch one batch of its
      replies unless there are none. */
  function ReplyToParsed(srv: Server, ctx: Context, parsed: Parsed): Replied {
    match parsed
    case Err(broken) => Replied(ctx, if ctx.stop then [] else [BrokenReply(broken)])
    case Ok(m) => ReplyToMessage(srv, ctx, m)
  }

  function ReplyToMessage(srv: Server, ctx: Context, m: Message): Replied
    decreases m, 1
  {
    if ctx.stop && !m.ResponseMsg? then Replied(ctx, [])
    else
      match m
      case RequestMsg(request) => Replied(AfterRequest(srv, ctx, request), [RequestReply(srv, ctx, request)])
      case NotificationMsg(n) => Replied(AfterNotification(srv, ctx, n), [])
      case UnmatchedSub(value) => Replied(ctx, [BrokenReply(Unmatched(value))])
      case Batch(ms) =>
        var all := RepliesToAll(srv, ctx, ms);
        Replied(all.ctx, InBatch(all.replies))
      case ResponseMsg(response) => Replied(AfterRoute(ctx, response), [])
  }

  function RepliesToAll(srv: Server, ctx: Context, ms: seq<Message>): Replied
    decreases ms, 0
  {
    if ms == [] then Replied(ctx, [])
    else
      var first := ReplyToMessage(srv, ctx, ms[0]);
      var rest := RepliesToAll(srv, first.ctx, ms[1..]);
      Replied(rest.ctx, first.replies + rest.replies)
  }

  function InBatch(results: seq<Message>): seq<Message> {
    if results == [] then [] else [Batch(results)]
  }

  /** For every channel the dispatch of m opens, in that order, the results its
      batch is specified to gather. */
  function Plans(srv: Server, ctx: Context, m: Message): seq<seq<Message>>
    decreases m, 1
  {
    match m
    case Batch(ms) =>
      if ctx.stop then [] else [RepliesToAll(srv, ctx, ms).replies] + PlansOfAll(srv, ctx, ms)
    case _ => []
  }

  function PlansOfAll(srv: Server, ctx: Context, ms: seq<Message>): seq<seq<Message>>
    decreases ms, 0
  {
    if ms == [] then []
    else Plans(srv, ctx, ms[0]) + PlansOfAll(srv, ReplyToMessage(srv, ctx, ms[0]).ctx, ms[1..])
  }

  // ---- What dispatching yields -------------------------------------------
  //
  // Each fact is proved for one message and for the sub-messages of a batch.

  /** n empty channels were opened after those there were, which are as they were. */
  predicate Opened(before: seq<Chan>, after: seq<Chan>, n: nat) {
    && |after| == |before| + n
    && after[..|before|] == before
    && (forall c | |before| <= c < |after| :: after[c].buffer == [] == after[c].taken)
  }

  lemma OpenedTrans(a: seq<Chan>, b: seq<Chan>, c: seq<Chan>, m: nat, n: nat)
    requires Opened(a, b, m) && Opened(b, c, n)
    ensures Opened(a, c, m + n)
  {
    assert c[..|a|] == c[..|b|][..|a|];
    assert forall i | |a| <= i < |b| :: c[i] == c[..|b|][i];
  }

  /** The dispatch has the effects the specification has, and opens one empty
      channel per plan. */
  lemma {:induction false} Opens(srv: Server, ctx: Context, chans: seq<Chan>, m: Message)
    ensures var d := DoMessage(srv, ctx, chans, m);
            && d.ctx == ReplyToMessage(srv, ctx, m).ctx
            && Opened(chans, d.chans, |Plans(srv, ctx, m)|)
            && Plain(d.stream)
    decreases m, 1
  {
    if m.Batch? && !ctx.stop {
      var grown := chans + [Chan(|m.messages|, [], [])];
      OpensAll(srv, ctx, grown, m.messages);
      OpenedTrans(chans, grown, DoSubs(srv, ctx, grown, m.messages).chans, 1, |PlansOfAll(srv, ctx, m.messages)|);
    }
  }

  lemma {:induction false} OpensAll(srv: Server, ctx: Context, chans: seq<Chan>, ms: seq<Message>)
    ensures var d := DoSubs(srv, ctx, chans, ms);
            && d.ctx == RepliesToAll(srv, ctx, ms).ctx
            && Opened(chans, d.chans, |PlansOfAll(srv, ctx, ms)|)
            && PlainAll(d.streams)
    decreases ms, 0
  {
    if ms != [] {
      var first := DoMessage(srv, ctx, chans, ms[0]);
      var rest := DoSubs(srv, first.ctx, first.chans, ms[1..]);
      Opens(srv, ctx, chans, ms[0]);
      OpensAll(srv, first.ctx, first.chans, ms[1..]);
      OpenedTrans(chans, first.chans, rest.chans,
                  |Plans(srv, ctx, ms[0])|, |PlansOfAll(srv, first.ctx, ms[1..])|);
      assert [first.stream] + rest.streams != [] && ([first.stream] + rest.streams)[1..] == rest.streams;
    }
  }

  /** The futures use the channels just opened, in a proper order. */
  lemma {:induction false} Orders(srv: Server, ctx: Context, chans: seq<Chan>, m: Message)
    ensures var d := DoMessage(srv, ctx, chans, m);
            InRange(Flat(d.stream), |chans|, |d.chans|) && Ordered(Flat(d.stream))
    decreases m, 1
  {
    var d := DoMessage(srv, ctx, chans, m);
    if m.Batch? && !ctx.stop {
      var c := |chans|;
      var grown := chans + [Chan(|m.messages|, [], [])];
      OpensAll(srv, ctx, grown, m.messages);
      OrdersAll(srv, ctx, grown, m.messages);
      BatchOrdered(c, FlatAll(d.stream.subs), |d.chans|);
    }
  }

  lemma {:induction false} OrdersAll(srv: Server, ctx: Context, chans: seq<Chan>, ms: seq<Message>)
    ensures var d := DoSubs(srv, ctx, chans, ms);
            InRange(FlatAll(d.streams), |chans|, |d.chans|) && Ordered(FlatAll(d.streams))
    decreases ms, 0
  {
    if ms != [] {
      var first := DoMessage(srv, ctx, chans, ms[0]);
      var rest := DoSubs(srv, first.ctx, first.chans, ms[1..]);
      Opens(srv, ctx, chans, ms[0]);
      OpensAll(srv, first.ctx, first.chans, ms[1..]);
      Orders(srv, ctx, chans, ms[0]);
      OrdersAll(srv, first.ctx, first.chans, ms[1..]);
      var a, b := Flat(first.stream), FlatAll(rest.streams);
      ConcatOrdered(a, b, |chans|, |first.chans|, |rest.chans|);
      Widen(a, |chans|, |first.chans|, |chans|, |rest.chans|);
      Widen(b, |first.chans|, |rest.chans|, |chans|, |rest.chans|);
      ConcatRange(a, b, |chans|, |rest.chans|);
    }
  }

  /** At most one future of a message yields outside of it, and each batch channel
      has at least the capacity for all that will ever be sent into it. */
  lemma {:induction false} AtMostOne(srv: Server, ctx: Context, chans: seq<Chan>, m: Message)
    ensures var d := DoMessage(srv, ctx, chans, m);
            && Count(Flat(d.stream), None) <= 1
            && forall c | |chans| <= c < |d.chans| :: Count(Flat(d.stream), Some(c)) <= d.chans[c].capacity
    decreases m, 1
  {
    var d := DoMessage(srv, ctx, chans, m);
    if m.Batch? && !ctx.stop {
      var ms := m.messages;
      var grown := chans + [Chan(|ms|, [], [])];
      OpensAll(srv, ctx, grown, ms);
      OrdersAll(srv, ctx, grown, ms);
      AtMostOneEach(srv, ctx, grown, ms);
      var fs := FlatAll(d.stream.subs);
      Outside(fs, |grown|, |d.chans|, |chans|);
      BatchCount(|chans|, fs, None);
      assert d.chans[|chans|] == grown[|chans|];
      forall c | |chans| <= c < |d.chans| ensures Count(Flat(d.stream), Some(c)) <= d.chans[c].capacity {
        BatchCount(|chans|, fs, Some(c));
      }
    } else {
      match d.stream
      case Empty =>
      case Once(f) =>
        Single(f, 0, None, []);
        assert |d.chans| == |chans|;
    }
  }

  lemma {:induction false} AtMostOneEach(srv: Server, ctx: Context, chans: seq<Chan>, ms: seq<Message>)
    ensures var d := DoSubs(srv, ctx, chans, ms);
            && Count(FlatAll(d.streams), None) <= |ms|
            && forall c | |chans| <= c < |d.chans| :: Count(FlatAll(d.streams), Some(c)) <= d.chans[c].capacity
    decreases ms, 0
  {
    if ms != [] {
      var first := DoMessage(srv, ctx, chans, ms[0]);
      var rest := DoSubs(srv, first.ctx, first.chans, ms[1..]);
      Opens(srv, ctx, chans, ms[0]);
      OpensAll(srv, first.ctx, first.chans, ms[1..]);
      Orders(srv, ctx, chans, ms[0]);
      OrdersAll(srv, first.ctx, first.chans, ms[1..]);
      AtMostOne(srv, ctx, chans, ms[0]);
      AtMostOneEach(srv, first.ctx, first.chans, ms[1..]);
      var a, b := Flat(first.stream), FlatAll(rest.streams);
      ConcatCount(a, b, None);
      forall c | |chans| <= c < |rest.chans| ensures Count(a + b, Some(c)) <= rest.chans[c].capacity {
        ConcatCount(a, b, Some(c));
        if c < |first.chans| {
          Outside(b, |first.chans|, |rest.chans|, c);
          assert rest.chans[c] == first.chans[c];
        } else {
          Outside(a, |chans|, |first.chans|, c);
        }
      }
    }
  }

  /** Does a plan for all channels agree with the plans of the channels from lo. */
  predicate Extends(plan: seq<seq<Message>>, lo: nat, plans: seq<seq<Message>>) {
    lo + |plans| <= |plan| && plan[lo..lo + |plans|] == plans
  }

  lemma ExtendsSplit(plan: seq<seq<Message>>, lo: nat, p: seq<seq<Message>>, q: seq<seq<Message>>)
    requires Extends(plan, lo, p + q)
    ensures Extends(plan, lo, p) && Extends(plan, lo + |p|, q)
  {
    assert p == plan[lo..lo + |p + q|][..|p|];
    assert q == plan[lo..lo + |p + q|][|p|..];
  }

  /** In order, the futures yield the specified reply outside and the planned
      results into each batch channel. */
  lemma ExtendsHead(plan: seq<seq<Message>>, lo: nat, p: seq<Message>, q: seq<seq<Message>>)
    requires Extends(plan, lo, [p] + q)
    ensures lo < |plan| && plan[lo] == p && Extends(plan, lo + 1, q)
  {
    ExtendsSplit(plan, lo, [p], q);
    assert plan[lo] == plan[lo..lo + 1][0];
  }

  lemma {:induction false} YieldsReply(srv: Server, ctx: Context, chans: seq<Chan>, m: Message, plan: seq<seq<Message>>)
    requires Extends(plan, |chans|, Plans(srv, ctx, m))
    ensures var d := DoMessage(srv, ctx, chans, m);
            && Values(Flat(d.stream), None, plan) == ReplyToMessage(srv, ctx, m).replies
            && Fills(Flat(d.stream), |chans|, |d.chans|, plan)
    decreases m, 1
  {
    if m.Batch? && !ctx.stop {
      var ms := m.messages;
      ExtendsHead(plan, |chans|, RepliesToAll(srv, ctx, ms).replies, PlansOfAll(srv, ctx, ms));
      YieldsReplies(srv, ctx, chans + [Chan(|ms|, [], [])], ms, plan);
      YieldsBatch(srv, ctx, chans, ms, plan);
    } else {
      YieldsAtOnce(srv, ctx, chans, m, plan);
    }
  }

  lemma YieldsAtOnce(srv: Server, ctx: Context, chans: seq<Chan>, m: Message, plan: seq<seq<Message>>)
    requires !m.Batch? || ctx.stop
    ensures var d := DoMessage(srv, ctx, chans, m);
            && Values(Flat(d.stream), None, plan) == ReplyToMessage(srv, ctx, m).replies
            && d.chans == chans
  {
    var d := DoMessage(srv, ctx, chans, m);
    match d.stream
    case Empty =>
    case Once(f) => Single(f, 0, None, plan);
  }

  lemma YieldsBatch(srv: Server, ctx: Context, chans: seq<Chan>, ms: seq<Message>, plan: seq<seq<Message>>)
    requires !ctx.stop && |chans| < |plan| && plan[|chans|] == RepliesToAll(srv, ctx, ms).replies
    requires var d := DoSubs(srv, ctx, chans + [Chan(|ms|, [], [])], ms);
             && Values(FlatAll(d.streams), None, plan) == RepliesToAll(srv, ctx, ms).replies
             && Fills(FlatAll(d.streams), |chans| + 1, |d.chans|, plan)
    ensures var d := DoMessage(srv, ctx, chans, Batch(ms));
            && Values(Flat(d.stream), None, plan) == ReplyToMessage(srv, ctx, Batch(ms)).replies
            && Fills(Flat(d.stream), |chans|, |d.chans|, plan)
  {
    var d := DoSubs(srv, ctx, chans + [Chan(|ms|, [], [])], ms);
    OrdersAll(srv, ctx, chans + [Chan(|ms|, [], [])], ms);
    BatchFills(|chans|, FlatAll(d.streams), |d.chans|, plan);
    BatchDispatch(srv, ctx, chans, ms);
  }

  lemma BatchDispatch(srv: Server, ctx: Context, chans: seq<Chan>, ms: seq<Message>)
    requires !ctx.stop
    ensures var subs := DoSubs(srv, ctx, chans + [Chan(|ms|, [], [])], ms);
            var d := DoMessage(srv, ctx, chans, Batch(ms));
            d.chans == subs.chans && Flat(d.stream) == Wrap(|chans|, FlatAll(subs.streams)) + [Collect(|chans|)]
    ensures ReplyToMessage(srv, ctx, Batch(ms)).replies == InBatch(RepliesToAll(srv, ctx, ms).replies)
  {
  }

  lemma {:induction false} YieldsReplies(srv: Server, ctx: Context, chans: seq<Chan>, ms: seq<Message>,
                                         plan: seq<seq<Message>>)
    requires Extends(plan, |chans|, PlansOfAll(srv, ctx, ms))
    ensures var d := DoSubs(srv, ctx, chans, ms);
            && Values(FlatAll(d.streams), None, plan) == RepliesToAll(srv, ctx, ms).replies
            && Fills(FlatAll(d.streams), |chans|, |d.chans|, plan)
    decreases ms, 0
  {
    if ms != [] {
      var first := DoMessage(srv, ctx, chans, ms[0]);
      var rest := DoSubs(srv, first.ctx, first.chans, ms[1..]);
      Opens(srv, ctx, chans, ms[0]);
      Orders(srv, ctx, chans, ms[0]);
      OrdersAll(srv, first.ctx, first.chans, ms[1..]);
      ExtendsSplit(plan, |chans|, Plans(srv, ctx, ms[0]), PlansOfAll(srv, first.ctx, ms[1..]));
      YieldsReply(srv, ctx, chans, ms[0], plan);
      YieldsReplies(srv, first.ctx, first.chans, ms[1..], plan);
      ConcatValues(Flat(first.stream), FlatAll(rest.streams), None, plan);
      ConcatFills(Flat(first.stream), FlatAll(rest.streams), |chans|, |first.chans|, |rest.chans|, plan);
    }
  }

  /** A size of a message: one per message in it, at any depth. */
  function Size(m: Message): nat
    decreases m, 1
  {
    match m
    case Batch(ms) => 1 + SizeAll(ms)
    case _ => 1
  }

  function SizeAll(ms: seq<Message>): nat
    decreases ms, 0
  {
    if ms == [] then 0 else Size(ms[0]) + SizeAll(ms[1..])
  }

  /** The work a message makes is bounded by its size. */
  lemma {:induction false} BoundedWork(srv: Server, ctx: Context, chans: seq<Chan>, m: Message)
    ensures |Flat(DoMessage(srv, ctx, chans, m).stream)| <= Size(m)
    decreases m, 1
  {
    if m.Batch? && !ctx.stop {
      BoundedWorkAll(srv, ctx, chans + [Chan(|m.messages|, [], [])], m.messages);
    }
  }

  lemma {:induction false} BoundedWorkAll(srv: Server, ctx: Context, chans: seq<Chan>, ms: seq<Message>)
    ensures |FlatAll(DoSubs(srv, ctx, chans, ms).streams)| <= SizeAll(ms)
    decreases ms, 0
  {
    if ms != [] {
      var first := DoMessage(srv, ctx, chans, ms[0]);
      BoundedWork(srv, ctx, chans, ms[0]);
      BoundedWorkAll(srv, first.ctx, first.chans, ms[1..]);
    }
  }

  // ---- The same for what comes in ------------------------------------------

  function PlansOf(srv: Server, ctx: Context, parsed: Parsed): seq<seq<Message>> {
    match parsed
    case Ok(m) => Plans(srv, ctx, m)
    case Err(_) => []
  }

  function SizeOf(parsed: Parsed): nat {
    match parsed
    case Ok(m) => Size(m)
    case Err(_) => 1
  }

  /** All of the above about one inbound item. */
  lemma DispatchFacts(srv: Server, ctx: Context, chans: seq<Chan>, parsed: Parsed)
    ensures var d := DoMsg(srv, ctx, chans, parsed);
            && d.ctx == ReplyToParsed(srv, ctx, parsed).ctx
            && Opened(chans, d.chans, |PlansOf(srv, ctx, parsed)|)
            && Plain(d.stream)
            && InRange(Flat(d.stream), |chans|, |d.chans|) && Ordered(Flat(d.stream))
            && Count(Flat(d.stream), None) <= 1
            && (forall c | |chans| <= c < |d.chans| :: Count(Flat(d.stream), Some(c)) <= d.chans[c].capacity)
            && |Flat(d.stream)| <= SizeOf(parsed)
  {
    match parsed
    case Ok(m) =>
      Opens(srv, ctx, chans, m);
      Orders(srv, ctx, chans, m);
      AtMostOne(srv, ctx, chans, m);
      BoundedWork(srv, ctx, chans, m);
    case Err(broken) =>
      var d := DoBroken(ctx, chans, broken);
      assert |d.chans| == |chans|;
      if !ctx.stop {
        assert Flat(d.stream)[1..] == [];
      }
  }

  lemma {:induction false} DispatchYields(srv: Server, ctx: Context, chans: seq<Chan>, parsed: Parsed,
                                          plan: seq<seq<Message>>)
    requires |chans| <= |plan| && plan[|chans|..] == PlansOf(srv, ctx, parsed)
    ensures var d := DoMsg(srv, ctx, chans, parsed);
            && Values(Flat(d.stream), None, plan) == ReplyToParsed(srv, ctx, parsed).replies
            && Fills(Flat(d.stream), |chans|, |d.chans|, plan)
  {
    match parsed
    case Ok(m) => MessageYields(srv, ctx, chans, m, plan);
    case Err(broken) => BrokenYields(ctx, chans, broken, plan);
  }

  lemma MessageYields(srv: Server, ctx: Context, chans: seq<Chan>, m: Message, plan: seq<seq<Message>>)
    requires |chans| <= |plan| && plan[|chans|..] == Plans(srv, ctx, m)
    ensures var d := DoMessage(srv, ctx, chans, m);
            && Values(Flat(d.stream), None, plan) == ReplyToMessage(srv, ctx, m).replies
            && Fills(Flat(d.stream), |chans|, |d.chans|, plan)
  {
    assert plan[|chans|..|chans| + |plan[|chans|..]|] == plan[|chans|..];
    YieldsReply(srv, ctx, chans, m, plan);
  }

  lemma BrokenYields(ctx: Context, chans: seq<Chan>, broken: Broken, plan: seq<seq<Message>>)
    ensures var d := DoBroken(ctx, chans, broken);
            && Values(Flat(d.stream), None, plan) == (if ctx.stop then [] else [BrokenReply(broken)])
            && Fills(Flat(d.stream), |chans|, |d.chans|, plan)
  {
    if !ctx.stop {
      Single(Work(Some(BrokenReply(broken))), 0, None, plan);
    }
  }
}
