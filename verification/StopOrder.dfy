// The order in which one inbound message has its effects, and what a stop in the
// middle of a batch leaves of the rest (src/endpoint.rs: do_msg, do_batch).
module StopOrder {
  import opened Wrappers
  import opened Json
  import opened Message
  import opened Futures
  import opened Dispatch

  datatype Item = Invoke(callback: Callback) | Route(response: Response) | Reject(value: Json)

  /** An item of a message with its place: the indices that lead to it. */
  datatype Placed = Placed(path: seq<nat>, item: Item)

  /** Every callback, response and unmatched part of a message, depth first and left
      to right. */
  function Items(m: Message, at: seq<nat>): seq<Placed>
    decreases m, 1
  {
    match m
    case RequestMsg(request) => [Placed(at, Invoke(OnRequest(request)))]
    case NotificationMsg(n) => [Placed(at, Invoke(OnNotification(n)))]
    case ResponseMsg(response) => [Placed(at, Route(response))]
    case Batch(ms) => ItemsAll(ms, at, 0)
    case UnmatchedSub(value) => [Placed(at, Reject(value))]
  }

  function ItemsAll(ms: seq<Message>, at: seq<nat>, i: nat): seq<Placed>
    decreases ms, 0
  {
    if ms == [] then [] else Items(ms[0], at + [i]) + ItemsAll(ms[1..], at, i + 1)
  }

  function Perform(srv: Server, ctx: Context, item: Item): Context {
    match item
    case Invoke(OnRequest(request)) => AfterRequest(srv, ctx, request)
    case Invoke(OnNotification(n)) => AfterNotification(srv, ctx, n)
    case Route(response) => AfterRoute(ctx, response)
    case Reject(_) => ctx
  }

  /** Performing items until one of them stops the server; how many were. */
  function UntilStop(srv: Server, ctx: Context, items: seq<Placed>): (r: (Context, nat))
    ensures r.1 <= |items|
    ensures !r.0.stop ==> r.1 == |items|
    ensures !ctx.stop && r.0.stop ==> r.1 > 0
    decreases items
  {
    if ctx.stop || items == [] then (ctx, 0)
    else
      var rest := UntilStop(srv, Perform(srv, ctx, items[0].item), items[1..]);
      (rest.0, rest.1 + 1)
  }

  /** The batch an item at p directly belongs to is one that encloses q. */
  predicate InOpenBatch(p: seq<nat>, q: seq<nat>) {
    0 < |p| <= |q| && p[..|p| - 1] == q[..|p| - 1]
  }

  /** The responses of batches that were being dispatched when the item at q was. */
  function StillRouted(items: seq<Placed>, q: seq<nat>): seq<Response> {
    if items == [] then []
    else
      (match items[0].item
       case Route(response) => if InOpenBatch(items[0].path, q) then [response] else []
       case _ => [])
      + StillRouted(items[1..], q)
  }

  function RouteAll(ctx: Context, responses: seq<Response>): Context
    decreases responses
  {
    if responses == [] then ctx else RouteAll(AfterRoute(ctx, responses[0]), responses[1..])
  }

  function AfterItems(srv: Server, ctx: Context, items: seq<Placed>): Context {
    var (c, n) := UntilStop(srv, ctx, items);
    if c.stop && n > 0 then RouteAll(c, StillRouted(items[n..], items[n - 1].path)) else c
  }

  // ---- Proof -----------------------------------------------------------------

  lemma {:induction false} UntilStopConcat(srv: Server, ctx: Context, a: seq<Placed>, b: seq<Placed>)
    ensures var (c, n) := UntilStop(srv, ctx, a);
            UntilStop(srv, ctx, a + b) ==
            if c.stop then (c, n) else (UntilStop(srv, c, b).0, n + UntilStop(srv, c, b).1)
    decreases a
  {
    if a == [] {
      assert a + b == b;
    } else if !ctx.stop {
      assert (a + b)[1..] == a[1..] + b;
      UntilStopConcat(srv, Perform(srv, ctx, a[0].item), a[1..], b);
    }
  }

  lemma {:induction false} StillRoutedConcat(a: seq<Placed>, b: seq<Placed>, q: seq<nat>)
    ensures StillRouted(a + b, q) == StillRouted(a, q) + StillRouted(b, q)
  {
    if a == [] {
      assert a + b == b;
    } else {
      assert (a + b)[1..] == a[1..] + b;
      StillRoutedConcat(a[1..], b, q);
    }
  }

  lemma {:induction false} RouteAllConcat(ctx: Context, a: seq<Response>, b: seq<Response>)
    ensures RouteAll(ctx, a + b) == RouteAll(RouteAll(ctx, a), b)
    ensures RouteAll(ctx, a).stop == ctx.stop
    decreases a
  {
    if a == [] {
      assert a + b == b;
    } else {
      assert (a + b)[1..] == a[1..] + b;
      RouteAllConcat(AfterRoute(ctx, a[0]), a[1..], b);
    }
  }

  /** All items of a message are placed below it. */
  predicate Below(items: seq<Placed>, at: seq<nat>) {
    forall p | p in items :: |p.path| >= |at| && p.path[..|at|] == at
  }

  lemma {:induction false} ItemsBelow(m: Message, at: seq<nat>)
    ensures Below(Items(m, at), at)
    ensures m.Batch? ==> forall p | p in Items(m, at) :: |p.path| > |at|
    decreases m, 1
  {
    if m.Batch? {
      ItemsAllBelow(m.messages, at, 0);
    }
  }

  lemma {:induction false} ItemsAllBelow(ms: seq<Message>, at: seq<nat>, i: nat)
    ensures Below(ItemsAll(ms, at, i), at)
    ensures forall p | p in ItemsAll(ms, at, i) :: |p.path| > |at|
    decreases ms, 0
  {
    if ms != [] {
      ItemsBelow(ms[0], at + [i]);
      ItemsAllBelow(ms[1..], at, i + 1);
      forall p | p in Items(ms[0], at + [i]) ensures |p.path| > |at| && p.path[..|at|] == at {
        assert p.path[..|at|] == p.path[..|at| + 1][..|at|];
      }
    }
  }

  lemma OpenAgrees(p: seq<nat>, q: seq<nat>, k: nat)
    requires InOpenBatch(p, q) && k + 1 < |p|
    ensures p[k] == q[k]
  {
    assert p[..|p| - 1][k] == q[..|p| - 1][k];
  }

  /** Nothing inside another sub-batch is in an open batch. */
  lemma {:induction false} NothingDeeper(items: seq<Placed>, at: seq<nat>, j: nat, q: seq<nat>)
    requires Below(items, at + [j]) && forall p | p in items :: |p.path| > |at| + 1
    requires |q| > |at| && q[|at|] != j
    ensures StillRouted(items, q) == []
  {
    if items != [] {
      var p := items[0].path;
      assert items[0] in items;
      assert p[|at|] == p[..|at| + 1][|at|] == j;
      if InOpenBatch(p, q) {
        OpenAgrees(p, q, |at|);
      }
      NothingDeeper(items[1..], at, j, q);
    }
  }

  function DirectResponse(m: Message): seq<Response> {
    match m
    case ResponseMsg(r) => [r]
    case _ => []
  }

  function DirectResponses(ms: seq<Message>): seq<Response> {
    if ms == [] then [] else DirectResponse(ms[0]) + DirectResponses(ms[1..])
  }

  /** Of a later sibling in an open batch nothing is left but a direct response. */
  lemma SiblingLeft(m: Message, at: seq<nat>, j: nat, q: seq<nat>)
    requires |q| > |at| && q[..|at|] == at && q[|at|] < j
    ensures StillRouted(Items(m, at + [j]), q) == DirectResponse(m)
  {
    var items := Items(m, at + [j]);
    ItemsBelow(m, at + [j]);
    match m
    case Batch(_) => NothingDeeper(items, at, j, q);
    case ResponseMsg(r) => assert (at + [j])[..|at|] == at && items[1..] == [];
    case _ => assert items[1..] == [];
  }

  /** Of the later siblings in an open batch, the direct responses are left. */
  lemma {:induction false} SiblingsLeft(ms: seq<Message>, at: seq<nat>, j: nat, q: seq<nat>)
    requires |q| > |at| && q[..|at|] == at && q[|at|] < j
    ensures StillRouted(ItemsAll(ms, at, j), q) == DirectResponses(ms)
    decreases ms, 0
  {
    if ms != [] {
      StillRoutedConcat(Items(ms[0], at + [j]), ItemsAll(ms[1..], at, j + 1), q);
      SiblingLeft(ms[0], at, j, q);
      SiblingsLeft(ms[1..], at, j + 1, q);
      assert ItemsAll(ms, at, j) == Items(ms[0], at + [j]) + ItemsAll(ms[1..], at, j + 1);
    }
  }

  /** A stopped server still routes the direct responses and does nothing else. */
  lemma {:induction false} StoppedSubs(srv: Server, ctx: Context, ms: seq<Message>)
    requires ctx.stop
    ensures RepliesToAll(srv, ctx, ms) == Replied(RouteAll(ctx, DirectResponses(ms)), [])
    decreases ms
  {
    if ms != [] {
      var c := ReplyToMessage(srv, ctx, ms[0]).ctx;
      StoppedSubs(srv, c, ms[1..]);
      match ms[0]
      case ResponseMsg(r) => assert ([r] + DirectResponses(ms[1..]))[1..] == DirectResponses(ms[1..]);
      case _ => assert [] + DirectResponses(ms[1..]) == DirectResponses(ms[1..]);
    }
  }

  lemma {:induction false} EffectsOf(srv: Server, ctx: Context, m: Message, at: seq<nat>)
    requires !ctx.stop
    ensures ReplyToMessage(srv, ctx, m).ctx == AfterItems(srv, ctx, Items(m, at))
    ensures AfterItems(srv, ctx, Items(m, at)).stop == UntilStop(srv, ctx, Items(m, at)).0.stop
    decreases m, 1
  {
    var items := Items(m, at);
    var (c, n) := UntilStop(srv, ctx, items);
    match m
    case Batch(ms) => EffectsOfAll(srv, ctx, ms, at, 0);
    case _ =>
      var after := Perform(srv, ctx, items[0].item);
      assert UntilStop(srv, after, []) == (after, 0);
      assert items[1..] == [] && (c, n) == (after, 1);
      assert StillRouted([], items[0].path) == [] && RouteAll(c, []) == c;
  }

  lemma {:induction false} EffectsOfAll(srv: Server, ctx: Context, ms: seq<Message>, at: seq<nat>, i: nat)
    requires !ctx.stop
    ensures RepliesToAll(srv, ctx, ms).ctx == AfterItems(srv, ctx, ItemsAll(ms, at, i))
    ensures AfterItems(srv, ctx, ItemsAll(ms, at, i)).stop == UntilStop(srv, ctx, ItemsAll(ms, at, i)).0.stop
    decreases ms, 0
  {
    if ms != [] {
      var a, b := Items(ms[0], at + [i]), ItemsAll(ms[1..], at, i + 1);
      var (c, n) := UntilStop(srv, ctx, a);
      EffectsOf(srv, ctx, ms[0], at + [i]);
      UntilStopConcat(srv, ctx, a, b);
      if c.stop {
        StopsInFirst(srv, ctx, ms, at, i);
      } else {
        EffectsOfAll(srv, c, ms[1..], at, i + 1);
        AfterRest(srv, ctx, a, b);
      }
    }
  }

  lemma AfterRest(srv: Server, ctx: Context, a: seq<Placed>, b: seq<Placed>)
    requires !UntilStop(srv, ctx, a).0.stop
    ensures AfterItems(srv, ctx, a + b) == AfterItems(srv, UntilStop(srv, ctx, a).0, b)
    ensures UntilStop(srv, ctx, a + b).0 == UntilStop(srv, UntilStop(srv, ctx, a).0, b).0
  {
    UntilStopConcat(srv, ctx, a, b);
    var k := UntilStop(srv, UntilStop(srv, ctx, a).0, b).1;
    if k > 0 {
      assert (a + b)[|a| + k..] == b[k..] && (a + b)[|a| + k - 1] == b[k - 1];
    }
  }

  lemma {:induction false} StopsInFirst(srv: Server, ctx: Context, ms: seq<Message>, at: seq<nat>, i: nat)
    requires !ctx.stop && ms != []
    requires ReplyToMessage(srv, ctx, ms[0]).ctx == AfterItems(srv, ctx, Items(ms[0], at + [i]))
    requires UntilStop(srv, ctx, Items(ms[0], at + [i])).0.stop
    ensures RepliesToAll(srv, ctx, ms).ctx == AfterItems(srv, ctx, ItemsAll(ms, at, i))
    ensures RepliesToAll(srv, ctx, ms).ctx.stop
  {
    var a, b := Items(ms[0], at + [i]), ItemsAll(ms[1..], at, i + 1);
    var (c, n) := UntilStop(srv, ctx, a);
    var q := a[n - 1].path;
    var later, siblings := StillRouted(a[n..], q), DirectResponses(ms[1..]);
    UntilStopConcat(srv, ctx, a, b);
    LeftAfterFirst(ms, at, i, n);
    assert (a + b)[n - 1] == a[n - 1];
    RouteAllConcat(c, later, siblings);
    StoppedSubs(srv, RouteAll(c, later), ms[1..]);
    RouteAllConcat(c, later + siblings, []);
  }

  /** What is still routed after item n of the first sub-message. */
  lemma LeftAfterFirst(ms: seq<Message>, at: seq<nat>, i: nat, n: nat)
    requires ms != [] && 0 < n <= |Items(ms[0], at + [i])|
    ensures var a, b := Items(ms[0], at + [i]), ItemsAll(ms[1..], at, i + 1);
            StillRouted((a + b)[n..], a[n - 1].path) == StillRouted(a[n..], a[n - 1].path) + DirectResponses(ms[1..])
  {
    var a, b := Items(ms[0], at + [i]), ItemsAll(ms[1..], at, i + 1);
    var q := a[n - 1].path;
    ItemsBelow(ms[0], at + [i]);
    assert a[n - 1] in a;
    assert q[..|at|] == q[..|at| + 1][..|at|] && q[|at|] == q[..|at| + 1][|at|];
    SiblingsLeft(ms[1..], at, i + 1, q);
    assert (a + b)[n..] == a[n..] + b;
    StillRoutedConcat(a[n..], b, q);
  }

  /** Dispatching a message to a server that is not stopped performs its callbacks
      and routes its responses depth first and left to right, up to the first
      callback that stops the server.  After that no callback is made, and exactly
      those later responses are routed that directly belong to a batch that was
      already being dispatched; batches that come later are dropped whole. */
  lemma DispatchEffects(srv: Server, ctx: Context, chans: seq<Chan>, m: Message)
    requires !ctx.stop
    ensures DoMessage(srv, ctx, chans, m).ctx == AfterItems(srv, ctx, Items(m, []))
  {
    Opens(srv, ctx, chans, m);
    EffectsOf(srv, ctx, m, []);
  }

  /** A stopped server only routes a response, and makes no work. */
  lemma StoppedDispatch(srv: Server, ctx: Context, chans: seq<Chan>, parsed: Parsed)
    requires ctx.stop
    ensures var d := DoMsg(srv, ctx, chans, parsed);
            && d.chans == chans && Flat(d.stream) == []
            && d.ctx == if parsed.Ok? && parsed.value.ResponseMsg? then AfterRoute(ctx, parsed.value.response) else ctx
  {
  }
}
