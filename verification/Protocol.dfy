// The specified replies against the rules of JSON-RPC 2.0, sections 4.1, 5 and 6: who
// is answered, with what, and in what; also if a callback stops the server midway.
module Protocol {
  import opened Wrappers
  import opened Json
  import opened Message
  import opened Futures
  import opened Dispatch
  import opened StopOrder

  /** Whether a message calls for an answer: a request does, something unmatched
      does, a batch does if a part of it does; notifications and responses do not. */
  predicate Answerable(m: Message) {
    match m
    case RequestMsg(_) => true
    case UnmatchedSub(_) => true
    case Batch(ms) => exists i | 0 <= i < |ms| :: Answerable(ms[i])
    case _ => false
  }

  /** A reply that answers m: the request's id, the null id with "invalid request",
      or a batch of the answers to its parts that call for one, in their order. */
  predicate Answers(m: Message, reply: Message)
    decreases m, 1
  {
    match m
    case RequestMsg(request) => reply.ResponseMsg? && reply.response.id == request.id
    case UnmatchedSub(_) => reply == ResponseMsg(Response(Err(RpcError(-32600, "Invalid request", None)), Null))
    case Batch(ms) => reply.Batch? && reply.messages != [] && AnswersAll(ms, reply.messages)
    case _ => false
  }

  /** One answer for each message that calls for one, in order, and no other. */
  predicate AnswersAll(ms: seq<Message>, replies: seq<Message>)
    decreases ms, 0
  {
    if ms == [] then replies == []
    else if Answerable(ms[0]) then
      replies != [] && Answers(ms[0], replies[0]) && AnswersAll(ms[1..], replies[1..])
    else AnswersAll(ms[1..], replies)
  }

  // ---- The part of a message that is reached ---------------------------------

  /** How many callbacks, responses and unmatched parts a message has. */
  function Width(m: Message): nat
    decreases m, 1
  {
    match m
    case Batch(ms) => WidthAll(ms)
    case _ => 1
  }

  function WidthAll(ms: seq<Message>): nat
    decreases ms, 0
  {
    if ms == [] then 0 else Width(ms[0]) + WidthAll(ms[1..])
  }

  /** A message with only its first n items left, in their batches; a message that is
      no batch is left or gone. */
  function Reached(m: Message, n: nat): seq<Message>
    decreases m, 1
  {
    match m
    case Batch(ms) => [Batch(ReachedAll(ms, n))]
    case _ => if n == 0 then [] else [m]
  }

  function ReachedAll(ms: seq<Message>, n: nat): seq<Message>
    decreases ms, 0
  {
    if ms == [] then []
    else
      var k := if n < Width(ms[0]) then n else Width(ms[0]);
      Reached(ms[0], k) + ReachedAll(ms[1..], n - k)
  }

  /** How many of the items are performed: all, or those up to the one that stops. */
  function Performed(srv: Server, ctx: Context, m: Message): nat {
    UntilStop(srv, ctx, Items(m, [])).1
  }

  lemma {:induction false} WidthIsItems(m: Message, at: seq<nat>)
    ensures |Items(m, at)| == Width(m)
    decreases m, 1
  {
    if m.Batch? {
      WidthIsItemsAll(m.messages, at, 0);
    }
  }

  lemma {:induction false} WidthIsItemsAll(ms: seq<Message>, at: seq<nat>, i: nat)
    ensures |ItemsAll(ms, at, i)| == WidthAll(ms)
    decreases ms, 0
  {
    if ms != [] {
      WidthIsItems(ms[0], at + [i]);
      WidthIsItemsAll(ms[1..], at, i + 1);
    }
  }

  /** With all its items left a message is whole. */
  lemma {:induction false} AllReached(m: Message)
    ensures Reached(m, Width(m)) == [m]
    decreases m, 1
  {
    if m.Batch? {
      AllReachedEach(m.messages);
    }
  }

  lemma {:induction false} AllReachedEach(ms: seq<Message>)
    ensures ReachedAll(ms, WidthAll(ms)) == ms
    decreases ms, 0
  {
    if ms != [] {
      AllReached(ms[0]);
      AllReachedEach(ms[1..]);
    }
  }

  lemma {:induction false} NoneReached(m: Message)
    ensures AnswersAll(Reached(m, 0), [])
    decreases m, 1
  {
    if m.Batch? {
      NoneReachedEach(m.messages);
      var rest := ReachedAll(m.messages, 0);
      AnsweredIff(rest, []);
      assert [Batch(rest)][1..] == [];
    }
  }

  lemma {:induction false} NoneReachedEach(ms: seq<Message>)
    ensures AnswersAll(ReachedAll(ms, 0), [])
    decreases ms, 0
  {
    if ms != [] {
      NoneReached(ms[0]);
      NoneReachedEach(ms[1..]);
      var none: seq<Message> := [];
      AnswersConcat(Reached(ms[0], 0), none, ReachedAll(ms[1..], 0), none);
      assert none + none == none;
    }
  }

  // ---- Answers -----------------------------------------------------------------

  lemma {:induction false} AnswersConcat(a: seq<Message>, r: seq<Message>, b: seq<Message>, s: seq<Message>)
    requires AnswersAll(a, r) && AnswersAll(b, s)
    ensures AnswersAll(a + b, r + s)
  {
    if a == [] {
      assert a + b == b && r + s == s;
    } else {
      assert (a + b)[1..] == a[1..] + b;
      if Answerable(a[0]) {
        assert (r + s)[1..] == r[1..] + s;
        AnswersConcat(a[1..], r[1..], b, s);
      } else {
        AnswersConcat(a[1..], r, b, s);
      }
    }
  }

  /** Nothing is answered exactly if nothing calls for an answer. */
  lemma {:induction false} AnsweredIff(ms: seq<Message>, replies: seq<Message>)
    requires AnswersAll(ms, replies)
    ensures replies == [] <==> forall i | 0 <= i < |ms| :: !Answerable(ms[i])
  {
    if ms != [] {
      assert forall i | 1 <= i < |ms| :: ms[i] == ms[1..][i - 1];
      if !Answerable(ms[0]) {
        AnsweredIff(ms[1..], replies);
        assert forall i | 0 <= i < |ms| - 1 :: ms[1..][i] == ms[i + 1];
      }
    }
  }

  lemma BatchAnswered(ms: seq<Message>, replies: seq<Message>)
    requires AnswersAll(ms, replies)
    ensures AnswersAll([Batch(ms)], InBatch(replies))
  {
    AnsweredIff(ms, replies);
    assert [Batch(ms)][1..] == [] && InBatch(replies)[if replies == [] then 0 else 1..] == [];
  }

  lemma {:induction false} ReachedIsAnswered(srv: Server, ctx: Context, m: Message, at: seq<nat>)
    ensures AnswersAll(Reached(m, UntilStop(srv, ctx, Items(m, at)).1), ReplyToMessage(srv, ctx, m).replies)
    decreases m, 1
  {
    if ctx.stop {
      NoneReached(m);
    } else {
      match m
      case Batch(ms) =>
        ReachedAreAnswered(srv, ctx, ms, at, 0);
        BatchAnswered(ReachedAll(ms, UntilStop(srv, ctx, Items(m, at)).1), RepliesToAll(srv, ctx, ms).replies);
      case _ =>
        assert Reached(m, 1)[1..] == [] && UntilStop(srv, ctx, Items(m, at)).1 == 1;
    }
  }

  lemma {:induction false} ReachedAreAnswered(srv: Server, ctx: Context, ms: seq<Message>, at: seq<nat>, i: nat)
    ensures AnswersAll(ReachedAll(ms, UntilStop(srv, ctx, ItemsAll(ms, at, i)).1), RepliesToAll(srv, ctx, ms).replies)
    decreases ms, 0
  {
    if ctx.stop {
      StoppedSubs(srv, ctx, ms);
      NoneReachedEach(ms);
    } else if ms != [] {
      var after := ReplyToMessage(srv, ctx, ms[0]).ctx;
      ReachedIsAnswered(srv, ctx, ms[0], at + [i]);
      if after.stop {
        StoppedAfterFirst(srv, ctx, ms, at, i);
      } else {
        ReachedAreAnswered(srv, after, ms[1..], at, i + 1);
        OnAfterFirst(srv, ctx, ms, at, i);
      }
    }
  }

  lemma StoppedAfterFirst(srv: Server, ctx: Context, ms: seq<Message>, at: seq<nat>, i: nat)
    requires !ctx.stop && ms != [] && ReplyToMessage(srv, ctx, ms[0]).ctx.stop
    requires AnswersAll(Reached(ms[0], UntilStop(srv, ctx, Items(ms[0], at + [i])).1),
                        ReplyToMessage(srv, ctx, ms[0]).replies)
    ensures AnswersAll(ReachedAll(ms, UntilStop(srv, ctx, ItemsAll(ms, at, i)).1), RepliesToAll(srv, ctx, ms).replies)
  {
    var first := ReplyToMessage(srv, ctx, ms[0]);
    var k := UntilStop(srv, ctx, Items(ms[0], at + [i])).1;
    ReachedSplits(srv, ctx, ms, at, i);
    StoppedSubs(srv, first.ctx, ms[1..]);
    NoneReachedEach(ms[1..]);
    AnswersConcat(Reached(ms[0], k), first.replies, ReachedAll(ms[1..], 0), []);
  }

  lemma OnAfterFirst(srv: Server, ctx: Context, ms: seq<Message>, at: seq<nat>, i: nat)
    requires !ctx.stop && ms != [] && !ReplyToMessage(srv, ctx, ms[0]).ctx.stop
    requires AnswersAll(Reached(ms[0], UntilStop(srv, ctx, Items(ms[0], at + [i])).1),
                        ReplyToMessage(srv, ctx, ms[0]).replies)
    requires var after := ReplyToMessage(srv, ctx, ms[0]).ctx;
             AnswersAll(ReachedAll(ms[1..], UntilStop(srv, after, ItemsAll(ms[1..], at, i + 1)).1),
                        RepliesToAll(srv, after, ms[1..]).replies)
    ensures AnswersAll(ReachedAll(ms, UntilStop(srv, ctx, ItemsAll(ms, at, i)).1), RepliesToAll(srv, ctx, ms).replies)
  {
    var first := ReplyToMessage(srv, ctx, ms[0]);
    var k := UntilStop(srv, ctx, Items(ms[0], at + [i])).1;
    var rest := UntilStop(srv, first.ctx, ItemsAll(ms[1..], at, i + 1)).1;
    ReachedSplits(srv, ctx, ms, at, i);
    AnswersConcat(Reached(ms[0], k), first.replies,
                  ReachedAll(ms[1..], rest), RepliesToAll(srv, first.ctx, ms[1..]).replies);
  }

  /** What is performed of a batch: all of its first message and then of the others, or
      only of its first message if that stops the server. */
  lemma ReachedSplits(srv: Server, ctx: Context, ms: seq<Message>, at: seq<nat>, i: nat)
    requires !ctx.stop && ms != []
    ensures var first := ReplyToMessage(srv, ctx, ms[0]);
            var k := UntilStop(srv, ctx, Items(ms[0], at + [i])).1;
            var n := UntilStop(srv, ctx, ItemsAll(ms, at, i)).1;
            && n == k + (if first.ctx.stop then 0 else UntilStop(srv, first.ctx, ItemsAll(ms[1..], at, i + 1)).1)
            && ReachedAll(ms, n) == Reached(ms[0], k) + ReachedAll(ms[1..], n - k)
  {
    WidthIsItems(ms[0], at + [i]);
    UntilStopConcat(srv, ctx, Items(ms[0], at + [i]), ItemsAll(ms[1..], at, i + 1));
    EffectsOf(srv, ctx, ms[0], at + [i]);
  }

  // ---- The answers one by one ----------------------------------------------------

  /** The single answers in replies, out of their batches. */
  function Leaves(replies: seq<Message>): seq<Message> {
    if replies == [] then []
    else (match replies[0] case Batch(ms) => Leaves(ms) case _ => [replies[0]]) + Leaves(replies[1..])
  }

  /** What the server's future resolves to for a request, an error for an unmatched
      part, and nothing else. */
  function AnswerTo(srv: Server, ctx: Context, item: Item): seq<Message> {
    match item
    case Invoke(OnRequest(request)) => [RequestReply(srv, ctx, request)]
    case Reject(value) => [BrokenReply(Unmatched(value))]
    case _ => []
  }

  /** The answers to items performed one after another until one stops the server. */
  function AnswersTo(srv: Server, ctx: Context, items: seq<Placed>): seq<Message>
    decreases items
  {
    if ctx.stop || items == [] then []
    else AnswerTo(srv, ctx, items[0].item) + AnswersTo(srv, Perform(srv, ctx, items[0].item), items[1..])
  }

  lemma {:induction false} AnswersToConcat(srv: Server, ctx: Context, a: seq<Placed>, b: seq<Placed>)
    ensures AnswersTo(srv, ctx, a + b) == AnswersTo(srv, ctx, a) + AnswersTo(srv, UntilStop(srv, ctx, a).0, b)
    decreases a
  {
    if a == [] {
      assert a + b == b;
    } else if !ctx.stop {
      assert (a + b)[1..] == a[1..] + b;
      AnswersToConcat(srv, Perform(srv, ctx, a[0].item), a[1..], b);
    }
  }

  lemma {:induction false} LeavesConcat(a: seq<Message>, b: seq<Message>)
    ensures Leaves(a + b) == Leaves(a) + Leaves(b)
  {
    if a == [] {
      assert a + b == b;
    } else {
      assert (a + b)[1..] == a[1..] + b;
      LeavesConcat(a[1..], b);
    }
  }

  lemma {:induction false} LeavesAreAnswers(srv: Server, ctx: Context, m: Message, at: seq<nat>)
    ensures Leaves(ReplyToMessage(srv, ctx, m).replies) == AnswersTo(srv, ctx, Items(m, at))
    decreases m, 1
  {
    var replies := ReplyToMessage(srv, ctx, m).replies;
    match m
    case Batch(ms) =>
      if !ctx.stop {
        AllLeavesAreAnswers(srv, ctx, ms, at, 0);
        if replies != [] {
          assert replies[1..] == [];
        }
      }
    case _ =>
      assert Items(m, at)[1..] == [];
      assert Leaves(replies) == replies;
  }

  lemma {:induction false} AllLeavesAreAnswers(srv: Server, ctx: Context, ms: seq<Message>, at: seq<nat>, i: nat)
    ensures Leaves(RepliesToAll(srv, ctx, ms).replies) == AnswersTo(srv, ctx, ItemsAll(ms, at, i))
    decreases ms, 0
  {
    if ctx.stop {
      StoppedSubs(srv, ctx, ms);
    } else if ms != [] {
      var a, b := Items(ms[0], at + [i]), ItemsAll(ms[1..], at, i + 1);
      var first := ReplyToMessage(srv, ctx, ms[0]);
      LeavesAreAnswers(srv, ctx, ms[0], at + [i]);
      LeavesConcat(first.replies, RepliesToAll(srv, first.ctx, ms[1..]).replies);
      AnswersToConcat(srv, ctx, a, b);
      EffectsOf(srv, ctx, ms[0], at + [i]);
      AllLeavesAreAnswers(srv, first.ctx, ms[1..], at, i + 1);
      if first.ctx.stop {
        StoppedSubs(srv, first.ctx, ms[1..]);
      }
    }
  }

  /** The batch without messages gets no answer, unlike in the examples of section 7. */
  lemma EmptyBatchUnanswered(srv: Server, ctx: Context)
    ensures Parse(Arr([])) == Ok(Batch([]))
    ensures ReplyToParsed(srv, ctx, Parse(Arr([]))).replies == []
  {
  }

  /** The errors of section 5.1, with the null id: what is answered to input that is no
      JSON, or JSON that is no message. */
  lemma BrokenIsAnswered(srv: Server, ctx: Context, text: string, value: Json)
    requires !ctx.stop
    ensures ReplyToParsed(srv, ctx, Err(SyntaxError(text))).replies
         == [ResponseMsg(Response(Err(RpcError(-32700, "Parse error", Some(Str(text)))), Null))]
    ensures ReplyToParsed(srv, ctx, Err(Unmatched(value))).replies
         == [ResponseMsg(Response(Err(RpcError(-32600, "Invalid request", None)), Null))]
  {
  }

  // ---- Main results ----------------------------------------------------------------

  /** What is answered, whether or not the server is stopped before or meanwhile: the
      part of the message that is performed, by the rules, in its batches; and one by
      one, exactly the requests whose callback was made and the unmatched parts
      reached, each once and in order.  In particular a batch that is empty, or
      stopped before anything in it calls for an answer, is not answered at all. */
  lemma RepliesFollowRules(srv: Server, ctx: Context, parsed: Parsed)
    ensures var replies := ReplyToParsed(srv, ctx, parsed).replies;
            && (parsed.Err? ==> replies == if ctx.stop then [] else [BrokenReply(parsed.error)])
            && (parsed.Ok? ==> AnswersAll(Reached(parsed.value, Performed(srv, ctx, parsed.value)), replies))
            && (parsed.Ok? ==> Leaves(replies) == AnswersTo(srv, ctx, Items(parsed.value, [])))
  {
    if parsed.Ok? {
      ReachedIsAnswered(srv, ctx, parsed.value, []);
      LeavesAreAnswers(srv, ctx, parsed.value, []);
    }
  }

  /** Unless its dispatch stops the server, all of a message is performed: it is
      answered exactly if it calls for an answer, by exactly one reply. */
  lemma UnstoppedIsAnswered(srv: Server, ctx: Context, m: Message)
    requires !ReplyToMessage(srv, ctx, m).ctx.stop
    ensures var replies := ReplyToMessage(srv, ctx, m).replies;
            && Reached(m, Performed(srv, ctx, m)) == [m]
            && if Answerable(m) then |replies| == 1 && Answers(m, replies[0]) else replies == []
  {
    WidthIsItems(m, []);
    AllReached(m);
    if ctx.stop {
      StoppedStays(srv, ctx, m);
    } else {
      EffectsOf(srv, ctx, m, []);
    }
    ReachedIsAnswered(srv, ctx, m, []);
    assert [m][1..] == [];
  }

  lemma StoppedStays(srv: Server, ctx: Context, m: Message)
    requires ctx.stop
    ensures ReplyToMessage(srv, ctx, m).ctx.stop
  {
  }

  function CallbackOf(e: Effect): seq<Callback> {
    match e
    case Called(callback, _) => [callback]
    case Routed(_) => []
  }

  /** The callbacks in a log, and those among items. */
  function Callbacks(log: seq<Effect>): seq<Callback> {
    if log == [] then [] else CallbackOf(log[0]) + Callbacks(log[1..])
  }

  function InvokedBy(p: Placed): seq<Callback> {
    match p.item
    case Invoke(callback) => [callback]
    case _ => []
  }

  function Invoked(items: seq<Placed>): seq<Callback> {
    if items == [] then [] else InvokedBy(items[0]) + Invoked(items[1..])
  }

  lemma {:induction false} CallbacksAppend(log: seq<Effect>, e: Effect)
    ensures Callbacks(log + [e]) == Callbacks(log) + CallbackOf(e)
  {
    if log == [] {
      assert log + [e] == [e] && [e][1..] == [];
    } else {
      assert (log + [e])[1..] == log[1..] + [e];
      CallbacksAppend(log[1..], e);
    }
  }

  lemma PerformedIsCalled(srv: Server, ctx: Context, p: Placed)
    ensures Callbacks(Perform(srv, ctx, p.item).log) == Callbacks(ctx.log) + InvokedBy(p)
  {
    var next := Perform(srv, ctx, p.item);
    if |next.log| > |ctx.log| {
      CallbacksAppend(ctx.log, next.log[|ctx.log|]);
    }
  }

  lemma {:induction false} PerformedAreCalled(srv: Server, ctx: Context, items: seq<Placed>)
    ensures var (c, n) := UntilStop(srv, ctx, items); Callbacks(c.log) == Callbacks(ctx.log) + Invoked(items[..n])
    decreases items
  {
    if !ctx.stop && items != [] {
      var next := Perform(srv, ctx, items[0].item);
      var n := UntilStop(srv, ctx, items).1;
      PerformedAreCalled(srv, next, items[1..]);
      PerformedIsCalled(srv, ctx, items[0]);
      assert items[..n] == [items[0]] + items[1..][..n - 1];
    }
  }

  lemma {:induction false} RoutingCallsNothing(ctx: Context, responses: seq<Response>)
    ensures Callbacks(RouteAll(ctx, responses).log) == Callbacks(ctx.log)
    decreases responses
  {
    if responses != [] {
      CallbacksAppend(ctx.log, Routed(responses[0]));
      RoutingCallsNothing(AfterRoute(ctx, responses[0]), responses[1..]);
    }
  }

  /** And the items performed are those whose callbacks the server saw. */
  lemma CallbacksMade(srv: Server, ctx: Context, chans: seq<Chan>, m: Message)
    ensures Callbacks(DoMessage(srv, ctx, chans, m).ctx.log)
         == Callbacks(ctx.log) + Invoked(Items(m, [])[..Performed(srv, ctx, m)])
  {
    if ctx.stop {
      StoppedDispatch(srv, ctx, chans, Ok(m));
      if m.ResponseMsg? {
        CallbacksAppend(ctx.log, Routed(m.response));
      }
    } else {
      var items := Items(m, []);
      var (c, n) := UntilStop(srv, ctx, items);
      DispatchEffects(srv, ctx, chans, m);
      PerformedAreCalled(srv, ctx, items);
      if c.stop && n > 0 {
        RoutingCallsNothing(c, StillRouted(items[n..], items[n - 1].path));
      }
    }
  }
}
