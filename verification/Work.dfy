// How much work a message is, exactly: its futures and the room of its batch channels.
module Work {
  import opened Wrappers
  import opened Message
  import opened Futures
  import opened Dispatch
  import opened StopOrder

  /** The callbacks and unmatched parts performed, up to the one that stops the server. */
  function Works(srv: Server, ctx: Context, items: seq<Placed>): nat
    decreases items
  {
    if ctx.stop || items == [] then 0
    else (if items[0].item.Route? then 0 else 1) + Works(srv, Perform(srv, ctx, items[0].item), items[1..])
  }

  lemma {:induction false} WorksConcat(srv: Server, ctx: Context, a: seq<Placed>, b: seq<Placed>)
    ensures Works(srv, ctx, a + b) == Works(srv, ctx, a) + Works(srv, UntilStop(srv, ctx, a).0, b)
    decreases a
  {
    if a == [] {
      assert a + b == b;
    } else if !ctx.stop {
      assert (a + b)[1..] == a[1..] + b;
      WorksConcat(srv, Perform(srv, ctx, a[0].item), a[1..], b);
    }
  }

  lemma {:induction false} StoppedMakesNothing(srv: Server, ctx: Context, chans: seq<Chan>, ms: seq<Message>)
    requires ctx.stop
    ensures FlatAll(DoSubs(srv, ctx, chans, ms).streams) == [] && DoSubs(srv, ctx, chans, ms).chans == chans
    decreases ms
  {
    if ms != [] {
      var first := DoMessage(srv, ctx, chans, ms[0]);
      StoppedMakesNothing(srv, first.ctx, first.chans, ms[1..]);
      var streams := [first.stream] + DoSubs(srv, first.ctx, first.chans, ms[1..]).streams;
      assert streams[1..] == DoSubs(srv, first.ctx, first.chans, ms[1..]).streams;
    }
  }

  /** A message makes one future for each callback made and each unmatched part reached,
      and one collector for each channel it opens; and no other. */
  lemma {:induction false} ExactWork(srv: Server, ctx: Context, chans: seq<Chan>, m: Message, at: seq<nat>)
    ensures var d := DoMessage(srv, ctx, chans, m);
            |Flat(d.stream)| + |chans| == Works(srv, ctx, Items(m, at)) + |d.chans|
    decreases m, 1
  {
    if m.Batch? && !ctx.stop {
      ExactWorkAll(srv, ctx, chans + [Chan(|m.messages|, [], [])], m.messages, at, 0);
    } else if !m.Batch? {
      assert Items(m, at)[1..] == [];
    }
  }

  lemma {:induction false} ExactWorkAll(srv: Server, ctx: Context, chans: seq<Chan>, ms: seq<Message>, at: seq<nat>,
                                        i: nat)
    ensures var d := DoSubs(srv, ctx, chans, ms);
            |FlatAll(d.streams)| + |chans| == Works(srv, ctx, ItemsAll(ms, at, i)) + |d.chans|
    decreases ms, 0
  {
    if ctx.stop {
      StoppedMakesNothing(srv, ctx, chans, ms);
    } else if ms != [] {
      var a, b := Items(ms[0], at + [i]), ItemsAll(ms[1..], at, i + 1);
      var first := DoMessage(srv, ctx, chans, ms[0]);
      ExactWork(srv, ctx, chans, ms[0], at + [i]);
      ExactWorkAll(srv, first.ctx, first.chans, ms[1..], at, i + 1);
      WorksConcat(srv, ctx, a, b);
      SameFrom(srv, ctx, chans, ms[0], at + [i], b);
    }
  }

  /** What is performed of the rest depends on what the first part did, responses aside. */
  lemma SameFrom(srv: Server, ctx: Context, chans: seq<Chan>, m: Message, at: seq<nat>, b: seq<Placed>)
    requires !ctx.stop
    ensures Works(srv, DoMessage(srv, ctx, chans, m).ctx, b) == Works(srv, UntilStop(srv, ctx, Items(m, at)).0, b)
  {
    Opens(srv, ctx, chans, m);
    EffectsOf(srv, ctx, m, at);
  }

  // ---- The room of a batch channel -----------------------------------------------------

  lemma {:induction false} ValuesAtMostCount(fs: seq<Future>, dest: Option<nat>, plan: seq<seq<Message>>)
    ensures |Values(fs, dest, plan)| <= Count(fs, dest)
  {
    if fs != [] {
      ValuesAtMostCount(fs[1..], dest, plan);
    }
  }

  lemma AllPartsSend(srv: Server, ctx: Context, chans: seq<Chan>, ms: seq<Message>)
    requires |RepliesToAll(srv, ctx, ms).replies| == |ms|
    ensures Count(FlatAll(DoSubs(srv, ctx, chans, ms).streams), None) == |ms|
  {
    var plans := PlansOfAll(srv, ctx, ms);
    var plan := seq(|chans|, i => []) + plans;
    assert plan[|chans|..|chans| + |plans|] == plans;
    YieldsReplies(srv, ctx, chans, ms, plan);
    ValuesAtMostCount(FlatAll(DoSubs(srv, ctx, chans, ms).streams), None, plan);
    AtMostOneEach(srv, ctx, chans, ms);
  }

  /** The capacity of a batch channel is not only enough but exact: if each part of the
      batch is answered, as many futures send into the channel as it has room for. */
  lemma CapacityIsTight(srv: Server, ctx: Context, chans: seq<Chan>, ms: seq<Message>)
    requires !ctx.stop && |RepliesToAll(srv, ctx, ms).replies| == |ms|
    ensures var d := DoMessage(srv, ctx, chans, Batch(ms));
            && |chans| < |d.chans|
            && Count(Flat(d.stream), Some(|chans|)) == d.chans[|chans|].capacity == |ms|
  {
    var grown := chans + [Chan(|ms|, [], [])];
    var subs := DoSubs(srv, ctx, grown, ms);
    AllPartsSend(srv, ctx, grown, ms);
    OpensAll(srv, ctx, grown, ms);
    assert subs.chans[|chans|] == subs.chans[..|grown|][|chans|] == grown[|chans|];
    OrdersAll(srv, ctx, grown, ms);
    Outside(FlatAll(subs.streams), |grown|, |subs.chans|, |chans|);
    BatchCount(|chans|, FlatAll(subs.streams), Some(|chans|));
  }
}
