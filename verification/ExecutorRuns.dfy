// What holds of every run of the executor, whatever the schedule.
module ExecutorRuns {
  import opened Wrappers
  import opened Message
  import opened Futures
  import opened Dispatch
  import opened Canon
  import opened Executor

  function RunFrom(srv: Server, parallel: nat, es: seq<Event>): State {
    Run(srv, Init(parallel), es)
  }

  /** Nothing is left to do for what was taken so far. */
  predicate Quiet(s: State) {
    s.inflight == [] && Flat(s.stream) == []
  }

  lemma Reachable(srv: Server, parallel: nat, es: seq<Event>)
    ensures Inv(srv, RunFrom(srv, parallel, es)) && RunFrom(srv, parallel, es).parallel == parallel
  {
    InitOk(srv, parallel);
    RunKeeps(srv, Init(parallel), es);
    ParallelStays(srv, Init(parallel), es);
  }

  lemma {:induction false} ParallelStays(srv: Server, s: State, es: seq<Event>)
    ensures Run(srv, s, es).parallel == s.parallel
    decreases es
  {
    if es != [] {
      ParallelStays(srv, Step(srv, s, es[0]), es[1..]);
    }
  }

  // ---- Deadlock freedom ----------------------------------------------------

  lemma AllHaveRoom(srv: Server, s: State)
    requires Inv(srv, s)
    ensures forall i | 0 <= i < |s.inflight| :: HasRoom(s, s.inflight[i])
  {
    var plan := Specified(srv, s.seen).plan;
    forall i | 0 <= i < |s.inflight| ensures HasRoom(s, s.inflight[i]) {
      NoSendBlocks(s, i, plan);
    }
  }

  lemma SomethingEnabled(srv: Server, s: State)
    requires Inv(srv, s)
    ensures s.inflight != [] ==> CanFinish(s, 0)
    ensures s.inflight == [] && !Quiet(s) && s.parallel > 0 ==> CanAdmit(s)
  {
    if s.inflight != [] {
      OldestCanFinish(s, Specified(srv, s.seen).plan);
    } else {
      NextIsHead(s.stream);
    }
  }

  /** For every tree of nested batches and every schedule: the channel a future in
      flight sends to has room, the oldest future in flight can finish at once, and
      if none is in flight the next one of the stream can be admitted, provided
      there is a slot at all.  Never are more than `parallel` in flight. */
  lemma NoDeadlock(srv: Server, parallel: nat, es: seq<Event>)
    ensures var s := RunFrom(srv, parallel, es);
            && |s.inflight| <= parallel
            && (forall i | 0 <= i < |s.inflight| :: HasRoom(s, s.inflight[i]))
            && (s.inflight != [] ==> CanFinish(s, 0))
            && (s.inflight == [] && !Quiet(s) && parallel > 0 ==> CanAdmit(s))
  {
    var s := RunFrom(srv, parallel, es);
    Reachable(srv, parallel, es);
    AllHaveRoom(srv, s);
    SomethingEnabled(srv, s);
  }

  /** No message was taken between these histories. */
  predicate OnlyStopped(before: seq<Inbound>, after: seq<Inbound>) {
    before <= after && forall x | x in after[|before|..] :: x == Stopped
  }

  lemma OnlyStoppedTrans(a: seq<Inbound>, b: seq<Inbound>, c: seq<Inbound>)
    requires OnlyStopped(a, b) && OnlyStopped(b, c)
    ensures OnlyStopped(a, c)
  {
    assert c[|a|..] == b[|a|..] + c[|b|..];
  }

  /** Without a slot nothing is ever taken, so nothing is ever answered: the setter
      does not exclude `parallel == 0`.  All that can still happen is that the server
      is stopped from outside and that the input ends. */
  lemma {:induction false} NothingWithoutSlots(srv: Server, s: State, es: seq<Event>)
    requires s.parallel == 0 && s.inflight == []
    ensures var t := Run(srv, s, es);
            && t == s.(ctx := t.ctx, ended := t.ended, seen := t.seen)
            && t.ctx.log == s.ctx.log
            && OnlyStopped(s.seen, t.seen)
    decreases es
  {
    if es != [] {
      var u := Step(srv, s, es[0]);
      var t := Run(srv, u, es[1..]);
      OneStepWithoutSlots(srv, s, es[0]);
      NothingWithoutSlots(srv, u, es[1..]);
      OnlyStoppedTrans(s.seen, u.seen, t.seen);
    }
  }

  lemma OneStepWithoutSlots(srv: Server, s: State, e: Event)
    requires s.parallel == 0 && s.inflight == []
    ensures var t := Step(srv, s, e);
            && t == s.(ctx := t.ctx, ended := t.ended, seen := t.seen)
            && t.ctx.log == s.ctx.log
            && OnlyStopped(s.seen, t.seen)
  {
  }

  /** With a slot the executor never stalls, and only then: in every reachable state
      with nothing left to do the next message can be taken exactly if there is a
      slot, and with something left to do there is one and a step of work is enabled. */
  lemma WorksExactlyWithSlots(srv: Server, parallel: nat, es: seq<Event>)
    ensures var s := RunFrom(srv, parallel, es);
            && (Quiet(s) && !s.ended ==> (CanPull(s) <==> parallel > 0))
            && (!Quiet(s) ==> parallel > 0 && (CanAdmit(s) || CanFinish(s, 0)))
  {
    var s := RunFrom(srv, parallel, es);
    NoDeadlock(srv, parallel, es);
    Reachable(srv, parallel, es);
    NextIsHead(s.stream);
    if parallel == 0 {
      NothingWithoutSlots(srv, Init(0), es);
    }
  }

  /** What can be done, in every reachable state, in terms of the futures in their order:
      a message is taken exactly if a slot is free and none is left in the stream; the
      next one is admitted exactly if a slot is free; any piece of work in flight can
      resolve, in whatever order, and a collector exactly if no future of its batch is
      left anywhere. */
  lemma EnabledExactly(srv: Server, parallel: nat, es: seq<Event>, i: nat)
    ensures var s := RunFrom(srv, parallel, es);
            && (CanPull(s) <==> !s.ended && |s.inflight| < parallel && Flat(s.stream) == [])
            && (CanAdmit(s) <==> |s.inflight| < parallel && Flat(s.stream) != [])
            && (CanFinish(s, i)
                <==> i < |s.inflight|
                     && (Leaf(s.inflight[i]).Collect? ==>
                           !Holds(s.inflight + Flat(s.stream), Leaf(s.inflight[i]).chan)))
  {
    var s := RunFrom(srv, parallel, es);
    Reachable(srv, parallel, es);
    NextIsHead(s.stream);
    if i < |s.inflight| {
      NoSendBlocks(s, i, Specified(srv, s.seen).plan);
      if Leaf(s.inflight[i]).Collect? {
        CollectorComplete(s, i);
        RemoveRange(All(s), i, 0, |s.chans|);
      }
    }
  }

  /** Admission is first in, first out. */
  lemma AdmitsNext(srv: Server, s: State)
    requires CanAdmit(s)
    ensures var t := Step(srv, s, Admit);
            && Flat(s.stream) != [] && t.inflight == s.inflight + [Flat(s.stream)[0]]
            && Flat(t.stream) == Flat(s.stream)[1..]
  {
    NextIsHead(s.stream);
  }

  // ---- Replies do not depend on the schedule --------------------------------

  /** At any time the answers emitted are, up to order inside batches, among the
      specified replies; once nothing is left to do they are exactly those. */
  lemma RepliesAsSpecified(srv: Server, parallel: nat, es: seq<Event>)
    ensures var s := RunFrom(srv, parallel, es);
            var replies := Specified(srv, s.seen).replies;
            && BagOf(s.out) <= BagOf(replies)
            && (Quiet(s) ==> BagOf(s.out) == BagOf(replies))
  {
    Reachable(srv, parallel, es);
  }

  /** Two runs over the same inbound history answer the same, whatever their
      schedules and their parallelism. */
  lemma ScheduleIndependent(srv: Server, p: nat, es: seq<Event>, q: nat, fs: seq<Event>)
    requires RunFrom(srv, p, es).seen == RunFrom(srv, q, fs).seen
    requires Quiet(RunFrom(srv, p, es)) && Quiet(RunFrom(srv, q, fs))
    ensures BagOf(RunFrom(srv, p, es).out) == BagOf(RunFrom(srv, q, fs).out)
  {
    RepliesAsSpecified(srv, p, es);
    RepliesAsSpecified(srv, q, fs);
  }

  // ---- One slot: everything in order ----------------------------------------

  predicate ExactChan(c: nat, chan: Chan, all: seq<Future>, plan: seq<seq<Message>>)
    requires c < |plan|
  {
    Sent(chan) + Values(all, Some(c), plan) == plan[c]
  }

  /** With at most one future in flight the invariant is one of sequences. */
  predicate Exact(srv: Server, s: State) {
    var h := Specified(srv, s.seen);
    && Inv(srv, s) && s.parallel == 1
    && (forall c | 0 <= c < |s.chans| :: ExactChan(c, s.chans[c], All(s), h.plan))
    && s.out + Values(All(s), None, h.plan) == h.replies
  }

  lemma ExactYield(srv: Server, s: State)
    requires Exact(srv, s) && CanFinish(s, 0)
    ensures Yield(s, s.inflight[0]) == Value(s.inflight[0], Specified(srv, s.seen).plan)
  {
    var plan := Specified(srv, s.seen).plan;
    var f := s.inflight[0];
    if Leaf(f).Collect? {
      var c := Leaf(f).chan;
      CollectorComplete(s, 0);
      CountNeedsHolder(All(s), c);
      NothingFor(All(s), Some(c), plan);
      assert ExactChan(c, s.chans[c], All(s), plan);
      assert Sent(s.chans[c]) + [] == Sent(s.chans[c]);
    }
  }

  /** The first future goes, and what it yields with it. */
  lemma FirstYields(s: State, dest: Option<nat>, plan: seq<seq<Message>>)
    requires s.inflight != [] && Yield(s, s.inflight[0]) == Value(s.inflight[0], plan)
    ensures Values(All(s), dest, plan)
         == (if Dest(s.inflight[0]) == dest then Yield(s, s.inflight[0]) else [])
            + Values(All(FinishStep(s, 0)), dest, plan)
  {
    assert All(s) == [s.inflight[0]] + All(FinishStep(s, 0));
    HeadValues(s.inflight[0], All(FinishStep(s, 0)), dest, plan);
  }

  lemma FinishExactChan(s: State, plan: seq<seq<Message>>, c: nat)
    requires Shape(s) && CanFinish(s, 0) && c < |s.chans| == |plan|
    requires Yield(s, s.inflight[0]) == Value(s.inflight[0], plan)
    requires ExactChan(c, s.chans[c], All(s), plan)
    ensures ExactChan(c, FinishStep(s, 0).chans[c], All(FinishStep(s, 0)), plan)
  {
    FinishSends(s, 0, c);
    FirstYields(s, Some(c), plan);
  }

  lemma FinishExactOut(s: State, plan: seq<seq<Message>>)
    requires Shape(s) && CanFinish(s, 0)
    requires Yield(s, s.inflight[0]) == Value(s.inflight[0], plan)
    ensures FinishStep(s, 0).out + Values(All(FinishStep(s, 0)), None, plan) == s.out + Values(All(s), None, plan)
  {
    FirstYields(s, None, plan);
  }

  lemma FinishExact(srv: Server, s: State)
    requires Exact(srv, s) && CanFinish(s, 0)
    ensures Exact(srv, FinishStep(s, 0))
  {
    var plan := Specified(srv, s.seen).plan;
    var t := FinishStep(s, 0);
    FinishKeeps(srv, s, 0);
    ExactYield(srv, s);
    forall c | 0 <= c < |t.chans| ensures ExactChan(c, t.chans[c], All(t), plan) {
      FinishExactChan(s, plan, c);
    }
    FinishExactOut(s, plan);
  }

  lemma {:induction false} DrainExact(srv: Server, s: State, i: nat)
    requires Exact(srv, s) && CanDrain(s, i)
    ensures Exact(srv, DrainStep(s, i))
  {
    var plan := Specified(srv, s.seen).plan;
    var t := DrainStep(s, i);
    DrainKeeps(srv, s, i);
    forall c | 0 <= c < |t.chans| ensures ExactChan(c, t.chans[c], All(t), plan) {
      DrainKeepsSent(s, i, c);
      assert ExactChan(c, s.chans[c], All(s), plan);
    }
  }

  lemma PullExactChan(srv: Server, s: State, parsed: Parsed, plan: seq<seq<Message>>, c: nat)
    requires Shape(s) && CanPull(s) && s.inflight == []
    requires c < |s.chans| == |plan| ==> ExactChan(c, s.chans[c], All(s), plan)
    requires c < |PullStep(srv, s, parsed).chans| && |s.chans| == |plan|
    ensures |plan + PlansOf(srv, s.ctx, parsed)| == |PullStep(srv, s, parsed).chans|
    ensures var t := PullStep(srv, s, parsed);
            ExactChan(c, t.chans[c], All(t), plan + PlansOf(srv, s.ctx, parsed))
  {
    var t := PullStep(srv, s, parsed);
    var plan' := plan + PlansOf(srv, s.ctx, parsed);
    PullShape(srv, s, parsed);
    assert All(t) == Flat(t.stream);
    DispatchFacts(srv, s.ctx, s.chans, parsed);
    DispatchYields(srv, s.ctx, s.chans, parsed, plan');
    if c < |s.chans| {
      assert t.chans[c] == s.chans[c];
      Outside(Flat(t.stream), |s.chans|, |t.chans|, c);
      NothingFor(Flat(t.stream), Some(c), plan');
    }
  }

  lemma PullExactOut(srv: Server, s: State, parsed: Parsed, plan: seq<seq<Message>>, replies: seq<Message>)
    requires Shape(s) && CanPull(s) && s.inflight == [] && |s.chans| == |plan|
    requires s.out + Values(All(s), None, plan) == replies
    ensures var t := PullStep(srv, s, parsed);
            s.out + Values(All(t), None, plan + PlansOf(srv, s.ctx, parsed))
            == replies + ReplyToParsed(srv, s.ctx, parsed).replies
  {
    var t := PullStep(srv, s, parsed);
    NextIsHead(s.stream);
    assert All(s) == [] && All(t) == Flat(t.stream);
    assert s.out + [] == s.out;
    DispatchYields(srv, s.ctx, s.chans, parsed, plan + PlansOf(srv, s.ctx, parsed));
  }

  lemma {:induction false} PullExact(srv: Server, s: State, parsed: Parsed)
    requires Exact(srv, s) && CanPull(s)
    ensures Exact(srv, PullStep(srv, s, parsed))
  {
    var h := Specified(srv, s.seen);
    var t := PullStep(srv, s, parsed);
    PullKeeps(srv, s, parsed);
    PullShape(srv, s, parsed);
    SpecifiedStep(srv, s.seen, Got(parsed));
    PullExactOut(srv, s, parsed, h.plan, h.replies);
    forall c | 0 <= c < |t.chans| ensures ExactChan(c, t.chans[c], All(t), h.plan + PlansOf(srv, s.ctx, parsed)) {
      PullExactChan(srv, s, parsed, h.plan, c);
    }
  }

  lemma AdmitExact(srv: Server, s: State)
    requires Exact(srv, s) && CanAdmit(s)
    ensures Exact(srv, Step(srv, s, Admit))
  {
    StepKeeps(srv, s, Admit);
    AdmitMovesHead(srv, s);
  }

  lemma StopExact(srv: Server, s: State)
    requires Exact(srv, s) && !s.ctx.stop
    ensures Exact(srv, Step(srv, s, Stop))
  {
    StepKeeps(srv, s, Stop);
    SpecifiedStep(srv, s.seen, Stopped);
  }

  lemma {:induction false} StepExact(srv: Server, s: State, e: Event)
    requires Exact(srv, s)
    ensures Exact(srv, Step(srv, s, e))
  {
    StepKeeps(srv, s, e);
    if Enabled(s, e) {
      match e
      case Pull(parsed) => PullExact(srv, s, parsed);
      case Stop => StopExact(srv, s);
      case End =>
      case Admit => AdmitExact(srv, s);
      case Drain(i) => DrainExact(srv, s, i);
      case Finish(_) => FinishExact(srv, s);
    }
  }

  lemma {:induction false} RunExact(srv: Server, s: State, es: seq<Event>)
    requires Exact(srv, s)
    ensures Exact(srv, Run(srv, s, es))
    decreases es
  {
    if es != [] {
      StepExact(srv, s, es[0]);
      RunExact(srv, Step(srv, s, es[0]), es[1..]);
    }
  }

  /** With one slot, the default, the answers come in the order of the messages and
      inside each batch in the order of its requests. */
  lemma InOrder(srv: Server, es: seq<Event>)
    ensures var s := RunFrom(srv, 1, es);
            var replies := Specified(srv, s.seen).replies;
            s.out <= replies && (Quiet(s) ==> s.out == replies)
  {
    InitOk(srv, 1);
    RunExact(srv, Init(1), es);
    var s := RunFrom(srv, 1, es);
    assert s.out + [] == s.out;
  }

  // ---- Termination -----------------------------------------------------------

  function Buffered(chans: seq<Chan>): nat {
    if chans == [] then 0 else |chans[0].buffer| + Buffered(chans[1..])
  }

  /** Steps still to be made: each future is admitted, finished, and its message
      taken out of a channel at most once. */
  function Measure(s: State): nat {
    3 * |Flat(s.stream)| + 2 * |s.inflight| + Buffered(s.chans)
  }

  /** The steps a history can ever cause. */
  function Cost(seen: seq<Inbound>): nat {
    if seen == [] then 0
    else Cost(seen[..|seen| - 1]) + match seen[|seen| - 1]
      case Got(parsed) => 1 + 3 * SizeOf(parsed)
      case Stopped => 0
  }

  predicate WorkStep(e: Event) {
    e.Pull? || e.Admit? || e.Drain? || e.Finish?
  }

  /** How many of the events were steps of work that could be made. */
  function WorkDone(srv: Server, s: State, es: seq<Event>): nat
    decreases es
  {
    if es == [] then 0
    else (if WorkStep(es[0]) && Enabled(s, es[0]) then 1 else 0) + WorkDone(srv, Step(srv, s, es[0]), es[1..])
  }

  lemma {:induction false} BufferedUpdate(chans: seq<Chan>, i: nat, c: Chan)
    requires i < |chans|
    ensures Buffered(chans[i := c]) == Buffered(chans) - |chans[i].buffer| + |c.buffer|
  {
    if i == 0 {
      assert chans[i := c][1..] == chans[1..];
    } else {
      assert chans[i := c][1..] == chans[1..][i - 1 := c];
      BufferedUpdate(chans[1..], i - 1, c);
    }
  }

  /** Empty channels at the end do not count. */
  lemma {:induction false} BufferedGrown(chans: seq<Chan>, grown: seq<Chan>)
    requires |chans| <= |grown| && grown[..|chans|] == chans
    requires forall c | |chans| <= c < |grown| :: grown[c].buffer == []
    ensures Buffered(grown) == Buffered(chans)
    decreases |grown|
  {
    if chans != [] {
      assert grown[0] == grown[..|chans|][0] && grown[1..][..|chans| - 1] == grown[..|chans|][1..];
      BufferedGrown(chans[1..], grown[1..]);
    } else if grown != [] {
      BufferedGrown([], grown[1..]);
    }
  }

  lemma FinishMeasure(s: State, i: nat)
    requires i < |s.inflight|
    ensures Measure(FinishStep(s, i)) < Measure(s)
  {
    var f := s.inflight[i];
    var taken := match Leaf(f)
      case Collect(c) => if c < |s.chans| then s.chans[c := Taken(s.chans[c])] else s.chans
      case _ => s.chans;
    if Leaf(f).Collect? && Leaf(f).chan < |s.chans| {
      BufferedUpdate(s.chans, Leaf(f).chan, Taken(s.chans[Leaf(f).chan]));
    }
    assert Buffered(taken) <= Buffered(s.chans);
    if Dest(f).Some? && Dest(f).value < |taken| {
      BufferedUpdate(taken, Dest(f).value, Pushed(taken[Dest(f).value], Yield(s, f)));
    }
  }

  lemma PullMeasure(srv: Server, s: State, parsed: Parsed)
    requires CanPull(s)
    ensures Measure(PullStep(srv, s, parsed)) <= Measure(s) + 3 * SizeOf(parsed)
  {
    DispatchFacts(srv, s.ctx, s.chans, parsed);
    NextIsHead(s.stream);
    BufferedGrown(s.chans, PullStep(srv, s, parsed).chans);
  }

  /** Every step of work but taking a message strictly decreases the measure, and no
      step other than taking a message increases it. */
  lemma StepMeasure(srv: Server, s: State, e: Event)
    requires Enabled(s, e)
    ensures var t := Step(srv, s, e);
            && (WorkStep(e) && !e.Pull? ==> Measure(t) < Measure(s))
            && (!WorkStep(e) ==> Measure(t) == Measure(s))
            && Measure(t) + (if WorkStep(e) then 1 else 0) + Cost(s.seen) <= Measure(s) + Cost(t.seen)
  {
    match e
    case Pull(parsed) =>
      PullMeasure(srv, s, parsed);
      assert (s.seen + [Got(parsed)])[..|s.seen|] == s.seen;
    case Stop => assert (s.seen + [Stopped])[..|s.seen|] == s.seen;
    case End =>
    case Admit => NextIsHead(s.stream);
    case Drain(i) =>
      var c := Leaf(s.inflight[i]).chan;
      BufferedUpdate(s.chans, c, DrainStep(s, i).chans[c]);
    case Finish(i) => FinishMeasure(s, i);
  }

  lemma {:induction false} RunMeasure(srv: Server, s: State, es: seq<Event>)
    ensures WorkDone(srv, s, es) + Measure(Run(srv, s, es)) + Cost(s.seen) <= Measure(s) + Cost(Run(srv, s, es).seen)
    decreases es
  {
    if es != [] {
      if Enabled(s, es[0]) {
        StepMeasure(srv, s, es[0]);
      }
      RunMeasure(srv, Step(srv, s, es[0]), es[1..]);
    }
  }

  /** The work of a whole run is bounded by the sizes of the messages it took. */
  lemma BoundedRun(srv: Server, parallel: nat, es: seq<Event>)
    ensures WorkDone(srv, Init(parallel), es) <= Cost(RunFrom(srv, parallel, es).seen)
  {
    RunMeasure(srv, Init(parallel), es);
  }

  /** From every reachable state with a slot the pending work can be completed
      without taking anything new, within the measure; and since every step of work
      decreases the measure, however it is scheduled it will be. */
  lemma {:induction false} CanComplete(srv: Server, s: State) returns (es: seq<Event>)
    requires Inv(srv, s) && s.parallel > 0
    ensures Quiet(Run(srv, s, es)) && |es| <= Measure(s)
    ensures forall e | e in es :: e.Admit? || e.Finish?
    ensures Run(srv, s, es).seen == s.seen
    decreases Measure(s)
  {
    if Quiet(s) {
      es := [];
    } else {
      var e := if s.inflight != [] then Finish(0) else Admit;
      if s.inflight != [] {
        OldestCanFinish(s, Specified(srv, s.seen).plan);
      } else {
        NextIsHead(s.stream);
      }
      StepMeasure(srv, s, e);
      StepKeeps(srv, s, e);
      var rest := CanComplete(srv, Step(srv, s, e));
      es := [e] + rest;
      assert es[1..] == rest;
    }
  }
}
