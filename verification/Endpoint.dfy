// The whole endpoint: the executor and the connection's life cycle joined the way
// Endpoint::start joins them (src/endpoint.rs).
//
// Inbound messages are dispatched to the executor and act on the life cycle through
// their callbacks and responses; answers and queued client messages go out on one
// wire; the end of the input, the fired terminator, a kill or an error end it.
module Endpoint {
  import opened Wrappers
  import opened Message
  import opened Futures
  import opened Dispatch
  import opened Canon
  import opened Merge
  import X = Executor
  import R = ExecutorRuns
  import L = Life
  import LR = LifeRuns
  import StopOrder

  datatype State = State(
    exec: X.State,
    life: L.State,
    wire: seq<Message>)   // what was handed to the sink

  function Init(parallel: nat): State {
    State(X.Init(parallel), L.INIT, [])
  }

  datatype Event =
    | User(act: Act)            // a client, a call's owner or a holder of the control acts
    | Inbound(parsed: Parsed)   // the next message is taken from the input
    | EndOfInput                // the input is exhausted: the cleaner runs
    | Terminated                // the fired terminator ends the inbound stream
    | Progress(e: X.Event)      // Admit, Drain or Finish
    | TakeQueued                // a client's message goes to the sink
    | AllSent                   // the outbound stream is over
    | Killed                    // the kill signal is seen
    | Failed                    // the input or the sink fails

  // ---- Steps -----------------------------------------------------------------

  /** The effects of a dispatch on the life cycle, in their order. */
  function Apply(life: L.State, effects: seq<Effect>): L.State
    decreases effects
  {
    if effects == [] then life
    else
      var next := match effects[0]
        case Called(_, acts) => L.Run(life, acts)
        case Routed(response) => L.Step(life, L.Respond(response));
      Apply(next, effects[1..])
  }

  predicate Running(s: State) {
    s.life.channel.transmit.Running?
  }

  predicate Internal(e: X.Event) {
    e.Admit? || e.Drain? || e.Finish?
  }

  predicate Enabled(s: State, e: Event) {
    match e
    case User(_) => true
    case Inbound(_) => Running(s) && X.CanPull(s.exec)
    case EndOfInput => Running(s) && X.CanPull(s.exec)
    case Terminated => Running(s) && X.CanPull(s.exec) && s.life.handles.fired > 0
    case Progress(x) => Running(s) && Internal(x) && X.Enabled(s.exec, x)
    case TakeQueued => Running(s) && s.life.channel.queue != []
    case AllSent =>
      Running(s) && s.exec.ended && R.Quiet(s.exec) && s.life.channel.queue == [] && s.life.handles.senders == 0
    case Killed => Running(s) && s.life.killed
    case Failed => Running(s)
  }

  /** The dispatcher reads the control's stop flag. */
  function SyncStop(srv: Server, exec: X.State, life: L.State): X.State {
    if life.control.stop then X.Step(srv, exec, X.Stop) else exec
  }

  function Step(srv: Server, s: State, e: Event): State {
    if !Enabled(s, e) then s
    else
      match e
      case User(act) =>
        var life := L.Step(s.life, act);
        s.(life := life, exec := SyncStop(srv, s.exec, life))
      case Inbound(parsed) =>
        var exec := X.PullStep(srv, s.exec, parsed);
        s.(exec := exec, life := Apply(s.life, NewEffects(s.exec.ctx, exec.ctx)))
      case EndOfInput =>
        var life := L.Step(s.life, L.EndOfInput);
        s.(life := life, exec := SyncStop(srv, s.exec, life).(ended := true))
      case Terminated => s.(exec := s.exec.(ended := true))
      case Progress(x) =>
        var exec := X.Step(srv, s.exec, x);
        s.(exec := exec, wire := s.wire + NewOut(s.exec, exec))
      case TakeQueued =>
        s.(life := L.Step(s.life, L.TakeQueued), wire := s.wire + [s.life.channel.queue[0]])
      case AllSent => s.(life := L.Step(s.life, L.TransmitEnd(true)))
      case Killed => s.(life := L.Step(s.life, L.TransmitEnd(true)))
      case Failed => s.(life := L.Step(s.life, L.TransmitEnd(false)))
  }

  /** What dispatching added to the log. */
  function NewEffects(before: Context, after: Context): seq<Effect> {
    if |before.log| <= |after.log| then after.log[|before.log|..] else []
  }

  function NewOut(before: X.State, after: X.State): seq<Message> {
    if |before.out| <= |after.out| then after.out[|before.out|..] else []
  }

  function Run(srv: Server, s: State, es: seq<Event>): State
    decreases es
  {
    if es == [] then s else Run(srv, Step(srv, s, es[0]), es[1..])
  }

  // ---- Dispatch and the stop flag ----------------------------------------------

  predicate EffectsStop(effects: seq<Effect>) {
    effects != [] && ((effects[0].Called? && StopsServer(effects[0].acts)) || EffectsStop(effects[1..]))
  }

  lemma {:induction false} EffectsStopConcat(a: seq<Effect>, b: seq<Effect>)
    ensures EffectsStop(a + b) <==> EffectsStop(a) || EffectsStop(b)
  {
    if a == [] {
      assert a + b == b;
    } else {
      assert (a + b)[1..] == a[1..] + b;
      EffectsStopConcat(a[1..], b);
    }
  }

  /** after comes from before by more effects, which account for the stop. */
  predicate Grows(before: Context, after: Context) {
    && before.log <= after.log
    && (after.stop <==> before.stop || EffectsStop(after.log[|before.log|..]))
  }

  lemma GrowsTrans(a: Context, b: Context, c: Context)
    requires Grows(a, b) && Grows(b, c)
    ensures Grows(a, c)
  {
    assert c.log[|a.log|..] == b.log[|a.log|..] + c.log[|b.log|..];
    EffectsStopConcat(b.log[|a.log|..], c.log[|b.log|..]);
  }

  lemma GrowsByOne(a: Context, e: Effect)
    ensures (a.log + [e])[|a.log|..] == [e]
    ensures EffectsStop([e]) <==> e.Called? && StopsServer(e.acts)
  {
    assert [e][1..] == [];
  }

  lemma {:induction false} DispatchGrows(srv: Server, ctx: Context, m: Message)
    ensures Grows(ctx, ReplyToMessage(srv, ctx, m).ctx)
    decreases m, 1
  {
    match m
    case RequestMsg(r) => GrowsByOne(ctx, Called(OnRequest(r), srv.rpc(ctx.log, r).acts));
    case NotificationMsg(n) => GrowsByOne(ctx, Called(OnNotification(n), srv.notification(ctx.log, n)));
    case ResponseMsg(r) => GrowsByOne(ctx, Routed(r));
    case Batch(ms) => if !ctx.stop { DispatchAllGrows(srv, ctx, ms); }
    case UnmatchedSub(_) =>
  }

  lemma {:induction false} DispatchAllGrows(srv: Server, ctx: Context, ms: seq<Message>)
    ensures Grows(ctx, RepliesToAll(srv, ctx, ms).ctx)
    decreases ms, 0
  {
    if ms != [] {
      var c := ReplyToMessage(srv, ctx, ms[0]).ctx;
      DispatchGrows(srv, ctx, ms[0]);
      DispatchAllGrows(srv, c, ms[1..]);
      GrowsTrans(ctx, c, RepliesToAll(srv, c, ms[1..]).ctx);
    }
  }

  /** Applying effects stops the control exactly if one of them does. */
  lemma {:induction false} ApplyFacts(life: L.State, effects: seq<Effect>)
    requires L.Inv(life)
    ensures L.Inv(Apply(life, effects))
    ensures Apply(life, effects).control.stop <==> life.control.stop || EffectsStop(effects)
    ensures Apply(life, effects).channel.written == life.channel.written
    ensures Apply(life, effects).channel.transmit == life.channel.transmit
    decreases effects
  {
    if effects != [] {
      match effects[0] {
        case Called(_, acts) =>
          L.RunKeeps(life, acts);
          LR.StopHistory(life, acts);
          ActsKeepWire(life, acts);
          ApplyFacts(L.Run(life, acts), effects[1..]);
        case Routed(response) =>
          L.StepKeeps(life, L.Respond(response));
          LR.StopStep(life, L.Respond(response));
          RespondKeepsWire(life, response);
          ApplyFacts(L.Step(life, L.Respond(response)), effects[1..]);
      }
    }
  }

  lemma RespondKeepsWire(life: L.State, response: Response)
    ensures L.Step(life, L.Respond(response)).channel == life.channel
    ensures L.Step(life, L.Respond(response)).handles == life.handles
  {
  }

  lemma ActKeepsWire(life: L.State, act: Act)
    ensures L.Step(life, act).channel.written == life.channel.written
    ensures L.Step(life, act).channel.transmit == life.channel.transmit
  {
    if L.CallEvent(act) {
      assert L.Step(life, act) == L.CallStep(life, act);
    } else if L.ClientEvent(act) {
      assert L.Step(life, act) == L.ClientStep(life, act);
    } else {
      assert act.Terminate? || act.Kill?;
    }
  }

  lemma {:induction false} ActsKeepWire(life: L.State, acts: seq<Act>)
    ensures L.Run(life, acts).channel.written == life.channel.written
    ensures L.Run(life, acts).channel.transmit == life.channel.transmit
    decreases acts
  {
    if acts != [] {
      ActKeepsWire(life, acts[0]);
      ActsKeepWire(L.Step(life, acts[0]), acts[1..]);
    }
  }

  // ---- The invariant -----------------------------------------------------------

  predicate Inv(srv: Server, s: State) {
    && X.Inv(srv, s.exec)
    && L.Inv(s.life)
    && s.exec.ctx.stop == s.life.control.stop
    && Merges(s.wire, s.exec.out, s.life.channel.written)
  }

  lemma SyncKeeps(srv: Server, exec: X.State, life: L.State)
    requires X.Inv(srv, exec) && (exec.ctx.stop ==> life.control.stop)
    ensures var t := SyncStop(srv, exec, life);
            X.Inv(srv, t) && t.ctx.stop == life.control.stop && t.out == exec.out
    ensures var t := SyncStop(srv, exec, life); t == exec.(ctx := t.ctx, seen := t.seen)
  {
    X.StepKeeps(srv, exec, X.Stop);
  }

  lemma InboundKeeps(srv: Server, s: State, parsed: Parsed)
    requires Inv(srv, s) && Enabled(s, Inbound(parsed))
    ensures Inv(srv, Step(srv, s, Inbound(parsed)))
    ensures Grows(s.exec.ctx, X.PullStep(srv, s.exec, parsed).ctx)
  {
    var exec := X.PullStep(srv, s.exec, parsed);
    X.StepKeeps(srv, s.exec, X.Pull(parsed));
    DispatchFacts(srv, s.exec.ctx, s.exec.chans, parsed);
    if parsed.Ok? {
      DispatchGrows(srv, s.exec.ctx, parsed.value);
    }
    ApplyFacts(s.life, NewEffects(s.exec.ctx, exec.ctx));
  }

  lemma ProgressKeeps(srv: Server, s: State, x: X.Event)
    requires Inv(srv, s) && Enabled(s, Progress(x))
    ensures Inv(srv, Step(srv, s, Progress(x)))
  {
    X.StepKeeps(srv, s.exec, x);
    X.OutGrows(srv, s.exec, x);
    ProgressKeepsContext(srv, s.exec, x);
    NewExecKeeps(srv, s, X.Step(srv, s.exec, x));
  }

  lemma NewExecKeeps(srv: Server, s: State, exec: X.State)
    requires Inv(srv, s) && X.Inv(srv, exec) && exec.ctx == s.exec.ctx && s.exec.out <= exec.out
    ensures Inv(srv, s.(exec := exec, wire := s.wire + NewOut(s.exec, exec)))
  {
    GrownFirst(s.wire, s.exec.out, s.life.channel.written, exec.out);
  }

  lemma ProgressKeepsContext(srv: Server, exec: X.State, x: X.Event)
    requires Internal(x)
    ensures X.Step(srv, exec, x).ctx == exec.ctx
  {
  }

  lemma UserKeeps(srv: Server, s: State, act: Act)
    requires Inv(srv, s)
    ensures Inv(srv, Step(srv, s, User(act)))
  {
    L.StepKeeps(s.life, act);
    LR.StopStep(s.life, act);
    ActKeepsWire(s.life, act);
    SyncKeeps(srv, s.exec, L.Step(s.life, act));
  }

  lemma EndOfInputKeeps(srv: Server, s: State)
    requires Inv(srv, s) && Enabled(s, EndOfInput)
    ensures Inv(srv, Step(srv, s, EndOfInput))
  {
    var life := L.Step(s.life, L.EndOfInput);
    L.StepKeeps(s.life, L.EndOfInput);
    LR.StopStep(s.life, L.EndOfInput);
    EndOfInputKeepsWire(s.life);
    SyncKeeps(srv, s.exec, life);
    X.EndKeeps(srv, SyncStop(srv, s.exec, life));
  }

  lemma EndOfInputKeepsWire(life: L.State)
    ensures L.Step(life, L.EndOfInput).channel == life.channel
  {
  }

  lemma TakeQueuedKeeps(srv: Server, s: State)
    requires Inv(srv, s) && Enabled(s, TakeQueued)
    ensures Inv(srv, Step(srv, s, TakeQueued))
  {
    L.StepKeeps(s.life, L.TakeQueued);
    MoreOfSecond(s.wire, s.exec.out, s.life.channel.written, [s.life.channel.queue[0]]);
    TakeQueuedMoves(s.life);
  }

  lemma TakeQueuedMoves(life: L.State)
    requires life.channel.transmit.Running? && life.channel.queue != []
    ensures var t := L.Step(life, L.TakeQueued);
            t.channel.written == life.channel.written + [life.channel.queue[0]] && t.control == life.control
  {
  }

  lemma EndKeeps(srv: Server, s: State, ok: bool)
    requires Inv(srv, s)
    ensures Inv(srv, s.(life := L.Step(s.life, L.TransmitEnd(ok))))
  {
    L.StepKeeps(s.life, L.TransmitEnd(ok));
    EndKeepsControl(s.life, ok);
  }

  lemma EndKeepsControl(life: L.State, ok: bool)
    ensures L.Step(life, L.TransmitEnd(ok)).control == life.control
    ensures L.Step(life, L.TransmitEnd(ok)).channel.written == life.channel.written
  {
  }

  lemma StepKeeps(srv: Server, s: State, e: Event)
    requires Inv(srv, s)
    ensures Inv(srv, Step(srv, s, e))
  {
    if Enabled(s, e) {
      match e
      case User(act) => UserKeeps(srv, s, act);
      case Inbound(parsed) => InboundKeeps(srv, s, parsed);
      case EndOfInput => EndOfInputKeeps(srv, s);
      case Terminated => X.EndKeeps(srv, s.exec);
      case Progress(x) => ProgressKeeps(srv, s, x);
      case TakeQueued => TakeQueuedKeeps(srv, s);
      case AllSent => EndKeeps(srv, s, true);
      case Killed => EndKeeps(srv, s, true);
      case Failed => EndKeeps(srv, s, false);
    }
  }

  lemma {:induction false} RunKeeps(srv: Server, s: State, es: seq<Event>)
    requires Inv(srv, s)
    ensures Inv(srv, Run(srv, s, es))
    decreases es
  {
    if es != [] {
      StepKeeps(srv, s, es[0]);
      RunKeeps(srv, Step(srv, s, es[0]), es[1..]);
    }
  }

  lemma Reachable(srv: Server, parallel: nat, es: seq<Event>)
    ensures Inv(srv, Run(srv, Init(parallel), es))
  {
    X.InitOk(srv, parallel);
    L.InitOk();
    RunKeeps(srv, Init(parallel), es);
  }

  // ---- Graceful shutdown ---------------------------------------------------------

  /** Nobody can put anything into the outbound queue any more, and the inbound
      stream is over or can be ended. */
  predicate Closing(s: State) {
    Running(s) && s.life.handles.senders == 0 && (s.life.handles.fired > 0 || s.exec.ended)
  }

  /** The steps the endpoint takes by itself while it closes. */
  predicate OwnStep(e: Event) {
    e.Progress? || e.Terminated? || e.TakeQueued? || e.AllSent?
  }

  /** Unadmitted and in-flight futures, undelivered batch results, queued messages,
      the end of the inbound stream and the end of the transmission. */
  function ToDo(s: State): nat {
    R.Measure(s.exec) + |s.life.channel.queue| + (if s.exec.ended then 0 else 1) + (if Running(s) then 1 else 0)
  }

  /** Once the terminator has fired no sender is left anywhere, so the endpoint is
      closing. */
  lemma FiredIsClosing(srv: Server, s: State)
    requires Inv(srv, s) && Running(s) && s.life.handles.fired > 0
    ensures Closing(s)
  {
    L.FiredMeansAlone(s.life);
  }

  /** Its own next step, as long as it is not finished. */
  function NextOwn(s: State): Event {
    if s.life.channel.queue != [] then TakeQueued
    else if s.exec.inflight != [] then Progress(X.Finish(0))
    else if !R.Quiet(s.exec) then Progress(X.Admit)
    else if !s.exec.ended then Terminated
    else AllSent
  }

  /** While it is closing some step of its own is always enabled. */
  lemma ClosingProgresses(srv: Server, s: State)
    requires Inv(srv, s) && Closing(s) && s.exec.parallel > 0
    ensures Enabled(s, NextOwn(s)) && OwnStep(NextOwn(s))
  {
    if s.life.channel.queue == [] {
      if s.exec.inflight != [] {
        X.OldestCanFinish(s.exec, X.Specified(srv, s.exec.seen).plan);
      } else {
        NextIsHead(s.exec.stream);
      }
    }
  }

  /** Every step of its own brings it closer to the end. */
  lemma OwnStepsDecrease(srv: Server, s: State, e: Event)
    requires Inv(srv, s) && Closing(s) && OwnStep(e) && Enabled(s, e)
    ensures ToDo(Step(srv, s, e)) < ToDo(s)
    ensures Step(srv, s, e).exec.seen == s.exec.seen && Step(srv, s, e).exec.parallel == s.exec.parallel
    ensures if e.AllSent? then Step(srv, s, e).life.channel.transmit == L.Finished(true) else Closing(Step(srv, s, e))
  {
    match e
    case Progress(x) => ProgressDecreases(srv, s, x);
    case Terminated => TerminatedDecreases(srv, s);
    case TakeQueued => TakeQueuedDecreases(srv, s);
    case AllSent => AllSentEnds(srv, s);
  }

  lemma TakeQueuedDecreases(srv: Server, s: State)
    requires Closing(s) && Enabled(s, TakeQueued)
    ensures var t := Step(srv, s, TakeQueued);
            ToDo(t) < ToDo(s) && Closing(t) && t.exec == s.exec
  {
  }

  lemma AllSentEnds(srv: Server, s: State)
    requires Enabled(s, AllSent)
    ensures var t := Step(srv, s, AllSent);
            && ToDo(t) < ToDo(s) && t.exec == s.exec && t.wire == s.wire
            && t.life.channel == L.Channel([], s.life.channel.written, L.Finished(true))
  {
  }

  lemma ProgressDecreases(srv: Server, s: State, x: X.Event)
    requires Closing(s) && Enabled(s, Progress(x))
    ensures var t := Step(srv, s, Progress(x));
            ToDo(t) < ToDo(s) && t.life == s.life && Closing(t)
            && t.exec.seen == s.exec.seen && t.exec.parallel == s.exec.parallel
  {
    R.StepMeasure(srv, s.exec, x);
    var exec := X.Step(srv, s.exec, x);
    assert exec.ended == s.exec.ended && exec.seen == s.exec.seen && exec.parallel == s.exec.parallel;
  }

  lemma TerminatedDecreases(srv: Server, s: State)
    requires Inv(srv, s) && Closing(s) && Enabled(s, Terminated)
    ensures var t := Step(srv, s, Terminated);
            ToDo(t) < ToDo(s) && Closing(t)
            && t.exec.seen == s.exec.seen && t.exec.parallel == s.exec.parallel
  {
  }

  /** And no step of anybody else moves it away from the end or reopens it: users
      can only kill it, and a message still taken from the input makes no work. */
  lemma OthersDoNotDelay(srv: Server, s: State, e: Event)
    requires Inv(srv, s) && Closing(s) && !OwnStep(e)
    ensures ToDo(Step(srv, s, e)) <= ToDo(s)
    ensures Running(Step(srv, s, e)) ==> Closing(Step(srv, s, e))
  {
    if Enabled(s, e) {
      match e
      case User(act) => UserWhileClosing(srv, s, act);
      case Inbound(parsed) => InboundWhileClosing(srv, s, parsed);
      case EndOfInput => EndWhileClosing(srv, s);
      case Killed => EndsAtOnce(s.life, true);
      case Failed => EndsAtOnce(s.life, false);
    }
  }

  lemma EndsAtOnce(life: L.State, ok: bool)
    requires life.channel.transmit.Running?
    ensures L.Step(life, L.TransmitEnd(ok)).channel == L.Channel([], life.channel.written, L.Finished(ok))
  {
  }

  lemma NobodySends(life: L.State)
    requires L.Inv(life) && life.handles.senders == 0
    ensures life.clients == 0 && life.notifying == [] && !life.control.sender
    ensures forall n | 0 <= n < |life.calls| :: !L.Sending(life, n)
  {
    NoTally(life.calls);
  }

  lemma {:induction false} NoTally(calls: seq<L.Call>)
    requires L.Tally(calls, L.CallSenders) == 0
    ensures forall n | 0 <= n < |calls| :: L.CallSenders(calls[n]) == 0
  {
    if calls != [] {
      NoTally(calls[1..]);
      assert forall n | 1 <= n < |calls| :: calls[n] == calls[1..][n - 1];
    }
  }

  lemma FiredStays(life: L.State, e: L.Event)
    requires L.Inv(life)
    ensures life.handles.fired > 0 ==> L.Step(life, e).handles.fired > 0
  {
    if life.handles.fired > 0 {
      L.FiredStep(life, e);
    }
  }

  /** A user without a sender gets none, and queues nothing. */
  lemma ActWhileClosing(life: L.State, act: Act)
    requires L.Inv(life) && life.handles.senders == 0
    ensures L.Step(life, act).handles.senders == 0 && L.Step(life, act).channel == life.channel
  {
    NobodySends(life);
    if L.CallEvent(act) {
      assert L.Step(life, act) == L.CallStep(life, act);
    } else if L.ClientEvent(act) {
      assert L.Step(life, act) == L.ClientStep(life, act);
    } else {
      assert act.Terminate? || act.Kill?;
    }
  }

  lemma UserWhileClosing(srv: Server, s: State, act: Act)
    requires Inv(srv, s) && Closing(s)
    ensures ToDo(Step(srv, s, User(act))) == ToDo(s) && Closing(Step(srv, s, User(act)))
  {
    ActWhileClosing(s.life, act);
    FiredStays(s.life, act);
    LR.StopStep(s.life, act);
    SyncKeeps(srv, s.exec, L.Step(s.life, act));
  }

  /** A message that is still taken then makes no work; a response is routed. */
  lemma InboundKeepsChannel(srv: Server, s: State, parsed: Parsed)
    requires Inv(srv, s) && Closing(s) && Enabled(s, Inbound(parsed))
    ensures var t := Step(srv, s, Inbound(parsed));
            && t.life.channel == s.life.channel && t.life.handles == s.life.handles
            && t.exec.chans == s.exec.chans && Flat(t.exec.stream) == []
  {
    NobodySends(s.life);
    StopOrder.StoppedDispatch(srv, s.exec.ctx, s.exec.chans, parsed);
    var effects := NewEffects(s.exec.ctx, X.PullStep(srv, s.exec, parsed).ctx);
    if parsed.Ok? && parsed.value.ResponseMsg? {
      var response := parsed.value.response;
      assert effects == [Routed(response)];
      RespondKeepsWire(s.life, response);
      assert [Routed(response)][1..] == [];
      assert Apply(s.life, effects) == Apply(L.Step(s.life, L.Respond(response)), []);
    } else {
      assert effects == [];
    }
  }

  lemma InboundWhileClosing(srv: Server, s: State, parsed: Parsed)
    requires Inv(srv, s) && Closing(s) && Enabled(s, Inbound(parsed))
    ensures ToDo(Step(srv, s, Inbound(parsed))) == ToDo(s) && Closing(Step(srv, s, Inbound(parsed)))
  {
    InboundKeepsChannel(srv, s, parsed);
    NextIsHead(s.exec.stream);
  }

  lemma EndOfInputWhileClosing(life: L.State)
    requires !life.control.sender
    ensures var t := L.Step(life, L.EndOfInput);
            t.handles.senders == life.handles.senders && t.channel == life.channel && t.control.stop
  {
  }

  lemma EndWhileClosing(srv: Server, s: State)
    requires Inv(srv, s) && Closing(s) && Enabled(s, EndOfInput)
    ensures ToDo(Step(srv, s, EndOfInput)) <= ToDo(s) && Closing(Step(srv, s, EndOfInput))
  {
    NobodySends(s.life);
    FiredStays(s.life, L.EndOfInput);
    EndOfInputWhileClosing(s.life);
    SyncKeeps(srv, s.exec, L.Step(s.life, L.EndOfInput));
  }

  /** Everything is out: the wire merges the messages of the clients in their order
      with answers that are the specified replies, up to order. */
  predicate AllOut(srv: Server, s: State) {
    && Merges(s.wire, s.exec.out, s.life.channel.written)
    && BagOf(s.exec.out) == BagOf(X.Specified(srv, s.exec.seen).replies)
    && BagOf(s.wire) == BagOf(X.Specified(srv, s.exec.seen).replies) + BagOf(s.life.channel.written)
  }

  /** The outbound stream is over only when everything is out. */
  lemma AllSentMeansAll(srv: Server, s: State)
    requires Inv(srv, s) && Enabled(s, AllSent)
    ensures AllOut(srv, s) && s.life.channel.queue == []
  {
    assert X.All(s.exec) == [];
    MergedBag(s.wire, s.exec.out, s.life.channel.written);
  }

  /** t ended well, having written everything there was in s. */
  predicate EndsWell(srv: Server, s: State, t: State) {
    && t.life.channel.transmit == L.Finished(true)
    && t.exec.seen == s.exec.seen
    && t.life.channel.written == s.life.channel.written + s.life.channel.queue
    && AllOut(srv, t)
  }

  lemma {:induction false} OwnStepFacts(srv: Server, s: State)
    requires Inv(srv, s) && Closing(s) && s.exec.parallel > 0
    ensures var e := NextOwn(s);
            var t := Step(srv, s, e);
            && OwnStep(e) && ToDo(t) < ToDo(s)
            && Inv(srv, t) && t.exec.seen == s.exec.seen && t.exec.parallel == s.exec.parallel
            && t.life.channel.written + t.life.channel.queue == s.life.channel.written + s.life.channel.queue
            && (if e.AllSent? then EndsWell(srv, s, t) else Closing(t))
  {
    var e := NextOwn(s);
    ClosingProgresses(srv, s);
    OwnStepsDecrease(srv, s, e);
    StepKeeps(srv, s, e);
    OwnStepKeepsQueue(srv, s, e);
    if e.AllSent? {
      AllSentMeansAll(srv, s);
      AllSentEnds(srv, s);
    }
  }

  /** Graceful shutdown: from every reachable closing state, in particular whenever
      the terminator has fired, the endpoint's own steps finish the transmission,
      with every answer and every queued message on the wire. */
  lemma {:induction false} GracefulShutdown(srv: Server, s: State) returns (es: seq<Event>)
    requires Inv(srv, s) && Closing(s) && s.exec.parallel > 0
    ensures |es| <= ToDo(s) && forall e | e in es :: OwnStep(e)
    ensures EndsWell(srv, s, Run(srv, s, es))
    decreases ToDo(s)
  {
    var e := NextOwn(s);
    var t := Step(srv, s, e);
    OwnStepFacts(srv, s);
    var rest := [];
    if e.AllSent? {
      assert Run(srv, t, []) == t;
    } else {
      rest := GracefulShutdown(srv, t);
    }
    es := [e] + rest;
    assert es[1..] == rest;
  }

  lemma OwnStepKeepsQueue(srv: Server, s: State, e: Event)
    requires OwnStep(e) && Enabled(s, e)
    ensures var t := Step(srv, s, e);
            t.life.channel.written + t.life.channel.queue == s.life.channel.written + s.life.channel.queue
  {
    if e.TakeQueued? {
      var q := s.life.channel.queue;
      assert q == [q[0]] + q[1..];
    }
  }
}
