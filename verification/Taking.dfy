// What taking one message from the input does to the connection: responses reach the
// calls that wait for them, and callbacks act on the connection.
module Taking {
  import opened Wrappers
  import opened Json
  import opened Message
  import opened Dispatch
  import opened Endpoint
  import opened Callbacks
  import X = Executor
  import L = Life
  import LR = LifeRuns
  import CL = CallLaws
  import EndToEnd

  // ---- Effects are performed one after another ------------------------------------------

  /** The connection after one effect: a callback acts through its control and clients, a
      response is handed to whoever waits for it. */
  predicate Performed(before: L.State, e: Effect, after: L.State) {
    match e
    case Called(_, acts) => after == L.Run(before, acts)
    case Routed(response) => after == L.Step(before, L.Respond(response))
  }

  predicate PerformsAll(lives: seq<L.State>, effects: seq<Effect>) {
    |lives| == |effects| + 1 && forall i | 0 <= i < |effects| :: Performed(lives[i], effects[i], lives[i + 1])
  }

  lemma {:induction false} ApplyPerforms(life: L.State, effects: seq<Effect>) returns (lives: seq<L.State>)
    ensures PerformsAll(lives, effects) && lives[0] == life && lives[|effects|] == Apply(life, effects)
    decreases effects
  {
    if effects == [] {
      lives := [life];
    } else {
      var next := match effects[0]
        case Called(_, acts) => L.Run(life, acts)
        case Routed(response) => L.Step(life, L.Respond(response));
      var rest := ApplyPerforms(next, effects[1..]);
      lives := [life] + rest;
      forall i | 0 <= i < |effects| ensures Performed(lives[i], effects[i], lives[i + 1]) {
        if i > 0 {
          assert Performed(rest[i - 1], effects[1..][i - 1], rest[i]);
        }
      }
    }
  }

  /** The log of a step: what was dispatched, by the server. */
  lemma TakingLogs(srv: Server, s: State, parsed: Parsed)
    requires Enabled(s, Inbound(parsed))
    ensures var t := Step(srv, s, Inbound(parsed));
            Logged(srv, s.exec.ctx, t.exec.ctx) && t.exec.ctx == DoMsg(srv, s.exec.ctx, s.exec.chans, parsed).ctx
  {
    CallbacksAreServers(srv, s.exec.ctx, s.exec.chans, parsed);
  }

  /** Taking a message performs exactly what is newly logged, in that order. */
  lemma TakingPerforms(srv: Server, s: State, parsed: Parsed) returns (lives: seq<L.State>)
    requires Enabled(s, Inbound(parsed))
    ensures var t := Step(srv, s, Inbound(parsed));
            && s.exec.ctx.log <= t.exec.ctx.log
            && PerformsAll(lives, t.exec.ctx.log[|s.exec.ctx.log|..])
            && lives[0] == s.life && lives[|lives| - 1] == t.life
  {
    TakingLogs(srv, s, parsed);
    lives := ApplyPerforms(s.life, NewEffects(s.exec.ctx, X.PullStep(srv, s.exec, parsed).ctx));
  }

  // ---- One message -----------------------------------------------------------------------

  lemma TakingOne(srv: Server, s: State, parsed: Parsed, e: Effect)
    requires Enabled(s, Inbound(parsed))
    requires DoMsg(srv, s.exec.ctx, s.exec.chans, parsed).ctx.log == s.exec.ctx.log + [e]
    ensures Performed(s.life, e, Step(srv, s, Inbound(parsed)).life)
  {
    var lives := TakingPerforms(srv, s, parsed);
    TakingLogs(srv, s, parsed);
    assert (s.exec.ctx.log + [e])[|s.exec.ctx.log|..] == [e];
    assert Performed(lives[0], [e][0], lives[1]);
  }

  lemma TakingNone(srv: Server, s: State, parsed: Parsed)
    requires Enabled(s, Inbound(parsed))
    requires DoMsg(srv, s.exec.ctx, s.exec.chans, parsed).ctx.log == s.exec.ctx.log
    ensures Step(srv, s, Inbound(parsed)).life == s.life
  {
    var lives := TakingPerforms(srv, s, parsed);
    TakingLogs(srv, s, parsed);
  }

  /** A response goes to the call that waits under its id, stopped or not, and touches no
      other call. */
  lemma ResponseIsDelivered(srv: Server, s: State, response: Response, n: nat)
    requires Inv(srv, s) && Enabled(s, Inbound(Ok(ResponseMsg(response)))) && n < |s.life.calls|
    ensures var t := Step(srv, s, Inbound(Ok(ResponseMsg(response))));
            && |t.life.calls| == |s.life.calls|
            && t.life == s.life.(calls := t.life.calls, idmap := t.life.idmap)
            && t.life.calls[n] == if s.life.calls[n].progress.Waiting? && response.id == Str(s.life.calls[n].id)
                                  then s.life.calls[n].(progress := L.Filled(response)) else s.life.calls[n]
  {
    ResponseIsRouted(srv, s.exec.ctx, s.exec.chans, response);
    TakingOne(srv, s, Ok(ResponseMsg(response)), Routed(response));
    LifeDelivers(s.life, response, n);
  }

  lemma LifeDelivers(life: L.State, response: Response, n: nat)
    requires L.Inv(life) && n < |life.calls|
    ensures var t := L.Step(life, L.Respond(response));
            && |t.calls| == |life.calls| && t == life.(calls := t.calls, idmap := t.idmap)
            && t.calls[n] == if life.calls[n].progress.Waiting? && response.id == Str(life.calls[n].id)
                             then life.calls[n].(progress := L.Filled(response)) else life.calls[n]
  {
    L.ResponseReachesOne(life, response, n);
  }

  /** A request or notification makes its callback act on the connection, unless it is
      stopped. */
  lemma RequestActs(srv: Server, s: State, request: Request)
    requires Inv(srv, s) && Enabled(s, Inbound(Ok(RequestMsg(request))))
    ensures Step(srv, s, Inbound(Ok(RequestMsg(request)))).life
         == if s.life.control.stop then s.life else L.Run(s.life, srv.rpc(s.exec.ctx.log, request).acts)
  {
    OneCallback(srv, s.exec.ctx, s.exec.chans, request, Notification("", None));
    if s.exec.ctx.stop {
      TakingNone(srv, s, Ok(RequestMsg(request)));
    } else {
      TakingOne(srv, s, Ok(RequestMsg(request)), Called(OnRequest(request), srv.rpc(s.exec.ctx.log, request).acts));
    }
  }

  lemma NotificationActs(srv: Server, s: State, n: Notification)
    requires Inv(srv, s) && Enabled(s, Inbound(Ok(NotificationMsg(n))))
    ensures Step(srv, s, Inbound(Ok(NotificationMsg(n)))).life
         == if s.life.control.stop then s.life else L.Run(s.life, srv.notification(s.exec.ctx.log, n))
  {
    OneCallback(srv, s.exec.ctx, s.exec.chans, Request("", None, Null), n);
    if s.exec.ctx.stop {
      TakingNone(srv, s, Ok(NotificationMsg(n)));
    } else {
      TakingOne(srv, s, Ok(NotificationMsg(n)), Called(OnNotification(n), srv.notification(s.exec.ctx.log, n)));
    }
  }

  // ---- Any message, however nested -------------------------------------------------------

  lemma EffectKeeps(before: L.State, e: Effect, after: L.State, n: nat)
    requires Performed(before, e, after) && L.Inv(before) && n < |before.calls|
    ensures L.Inv(after) && n < |after.calls| && after.calls[n].id == before.calls[n].id
    ensures !before.calls[n].progress.Waiting? ==> !after.calls[n].progress.Waiting?
  {
    match e
    case Called(_, acts) =>
      L.RunKeeps(before, acts);
      L.OutcomeIsFinal(before, acts, n);
    case Routed(response) =>
      L.StepKeeps(before, L.Respond(response));
      L.OneStepIsFinal(before, L.Respond(response), n);
  }

  /** While a message is taken, calls keep their ids and none starts waiting again. */
  lemma {:induction false} AlongEffects(lives: seq<L.State>, effects: seq<Effect>, i: nat, j: nat, n: nat)
    requires PerformsAll(lives, effects) && i <= j <= |effects| && L.Inv(lives[i]) && n < |lives[i].calls|
    ensures L.Inv(lives[j]) && n < |lives[j].calls| && lives[j].calls[n].id == lives[i].calls[n].id
    ensures !lives[i].calls[n].progress.Waiting? ==> !lives[j].calls[n].progress.Waiting?
    decreases j
  {
    if i < j {
      AlongEffects(lives, effects, i, j - 1, n);
      EffectKeeps(lives[j - 1], effects[j - 1], lives[j], n);
    }
  }

  lemma RoutedEndsWaiting(before: L.State, response: Response, after: L.State, n: nat)
    requires Performed(before, Routed(response), after) && L.Inv(before)
    requires n < |before.calls| && response.id == Str(before.calls[n].id)
    ensures n < |after.calls| && !after.calls[n].progress.Waiting?
    ensures before.calls[n].progress.Waiting? ==> Holds(after, n, response)
  {
    L.ResponseReachesOne(before, response, n);
  }

  /** Each response found anywhere in the message leaves no call of before waiting under
      its id. */
  lemma ResponsesEndWaiting(srv: Server, s: State, parsed: Parsed, k: nat, n: nat)
    requires Inv(srv, s) && Enabled(s, Inbound(parsed)) && n < |s.life.calls|
    requires var log := Step(srv, s, Inbound(parsed)).exec.ctx.log;
             |s.exec.ctx.log| <= k < |log| && log[k].Routed? && log[k].response.id == Str(s.life.calls[n].id)
    ensures var t := Step(srv, s, Inbound(parsed));
            n < |t.life.calls| && !t.life.calls[n].progress.Waiting?
  {
    var lives := TakingPerforms(srv, s, parsed);
    var log := Step(srv, s, Inbound(parsed)).exec.ctx.log;
    EndsWaitingAmong(lives, log[|s.exec.ctx.log|..], k - |s.exec.ctx.log|, n);
  }

  lemma EndsWaitingAmong(lives: seq<L.State>, effects: seq<Effect>, i: nat, n: nat)
    requires PerformsAll(lives, effects) && L.Inv(lives[0]) && n < |lives[0].calls|
    requires i < |effects| && effects[i].Routed? && effects[i].response.id == Str(lives[0].calls[n].id)
    ensures n < |lives[|effects|].calls| && !lives[|effects|].calls[n].progress.Waiting?
  {
    AlongEffects(lives, effects, 0, i, n);
    RoutedEndsWaiting(lives[i], effects[i].response, lives[i + 1], n);
    EffectKeeps(lives[i], effects[i], lives[i + 1], n);
    AlongEffects(lives, effects, i + 1, |effects|, n);
  }

  // ---- Which response a call gets ----------------------------------------------------------

  /** Somebody gives up on call n. */
  predicate GivesUp(a: L.Event, n: nat) {
    a == L.TimeOut(n) || a == L.DropCall(n) || a == L.CallSendGone(n)
  }

  predicate Untouched(acts: seq<L.Event>, n: nat) {
    forall a | a in acts :: !GivesUp(a, n)
  }

  predicate Holds(life: L.State, n: nat, response: Response) {
    n < |life.calls| && L.HasAnswer(life.calls[n]) && L.AnswerOf(life.calls[n]) == response
  }

  lemma StepHolds(life: L.State, e: L.Event, n: nat, response: Response)
    requires Holds(life, n, response) && !GivesUp(e, n)
    ensures Holds(L.Step(life, e), n, response)
  {
    if life.calls[n].progress.Filled? {
      CL.StaysUntilPolled(life, e, n);
      if L.Step(life, e).calls[n].progress.Done? {
        CL.StepResolves(life, e, n, L.Step(life, e).calls[n].progress.outcome);
      }
    } else {
      L.OneStepIsFinal(life, e, n);
    }
  }

  lemma {:induction false} RunHolds(life: L.State, es: seq<L.Event>, n: nat, response: Response)
    requires Holds(life, n, response) && Untouched(es, n)
    ensures Holds(L.Run(life, es), n, response)
    decreases es
  {
    if es != [] {
      assert es[0] in es && forall a | a in es[1..] :: a in es;
      StepHolds(life, es[0], n, response);
      RunHolds(L.Step(life, es[0]), es[1..], n, response);
    }
  }

  predicate Waits(life: L.State, n: nat, id: string) {
    n < |life.calls| && life.calls[n].progress.Waiting? && life.calls[n].id == id
  }

  lemma {:induction false} RunWaits(life: L.State, acts: seq<Act>, n: nat, id: string)
    requires L.Inv(life) && Waits(life, n, id) && Untouched(acts, n)
    ensures L.Inv(L.Run(life, acts)) && Waits(L.Run(life, acts), n, id)
    decreases acts
  {
    if acts != [] {
      assert acts[0] in acts && forall a | a in acts[1..] :: a in acts;
      L.StepKeeps(life, acts[0]);
      L.OneStepIsFinal(life, acts[0], n);
      L.WaitsExactlyUntil(life, acts[0], n);
      RunWaits(L.Step(life, acts[0]), acts[1..], n, id);
    }
  }

  /** An effect in which nobody gives up on call n. */
  predicate Spares(e: Effect, n: nat) {
    e.Called? ==> Untouched(e.acts, n)
  }

  predicate AnswersTo(e: Effect, id: string) {
    e.Routed? && e.response.id == Str(id)
  }

  lemma EffectWaits(before: L.State, e: Effect, after: L.State, n: nat, id: string)
    requires Performed(before, e, after) && L.Inv(before) && Waits(before, n, id) && Spares(e, n) && !AnswersTo(e, id)
    ensures L.Inv(after) && Waits(after, n, id)
  {
    match e
    case Called(_, acts) => RunWaits(before, acts, n, id);
    case Routed(other) =>
      L.StepKeeps(before, L.Respond(other));
      L.ResponseReachesOne(before, other, n);
  }

  lemma EffectHolds(before: L.State, e: Effect, after: L.State, n: nat, response: Response)
    requires Performed(before, e, after) && Holds(before, n, response) && Spares(e, n)
    ensures Holds(after, n, response)
  {
    match e
    case Called(_, acts) => RunHolds(before, acts, n, response);
    case Routed(other) => StepHolds(before, L.Respond(other), n, response);
  }

  predicate AllSpare(effects: seq<Effect>, n: nat) {
    forall i | 0 <= i < |effects| :: Spares(effects[i], n)
  }

  /** Effect k is the first response under the id. */
  predicate FirstFor(effects: seq<Effect>, k: nat, id: string) {
    k < |effects| && AnswersTo(effects[k], id) && forall i | 0 <= i < k :: !AnswersTo(effects[i], id)
  }

  lemma {:induction false} WaitsUntilFirst(lives: seq<L.State>, effects: seq<Effect>, k: nat, n: nat, id: string)
    requires PerformsAll(lives, effects) && L.Inv(lives[0]) && Waits(lives[0], n, id) && AllSpare(effects, n)
    requires k <= |effects| && forall i | 0 <= i < k :: !AnswersTo(effects[i], id)
    ensures L.Inv(lives[k]) && Waits(lives[k], n, id)
    decreases k
  {
    if k > 0 {
      WaitsUntilFirst(lives, effects, k - 1, n, id);
      EffectWaits(lives[k - 1], effects[k - 1], lives[k], n, id);
    }
  }

  lemma {:induction false} HoldsAfter(lives: seq<L.State>, effects: seq<Effect>, i: nat, j: nat, n: nat,
                                      response: Response)
    requires PerformsAll(lives, effects) && i <= j <= |effects| && AllSpare(effects, n)
    requires Holds(lives[i], n, response)
    ensures Holds(lives[j], n, response)
    decreases j
  {
    if i < j {
      HoldsAfter(lives, effects, i, j - 1, n, response);
      EffectHolds(lives[j - 1], effects[j - 1], lives[j], n, response);
    }
  }

  lemma FirstIsHeld(lives: seq<L.State>, effects: seq<Effect>, k: nat, n: nat, id: string)
    requires PerformsAll(lives, effects) && L.Inv(lives[0]) && Waits(lives[0], n, id) && AllSpare(effects, n)
    requires FirstFor(effects, k, id)
    ensures Holds(lives[|effects|], n, effects[k].response)
  {
    WaitsUntilFirst(lives, effects, k, n, id);
    RoutedEndsWaiting(lives[k], effects[k].response, lives[k + 1], n);
    HoldsAfter(lives, effects, k + 1, |effects|, n, effects[k].response);
  }

  /** The first response for a call that waited before is what the call holds after the
      message, unless a callback of the same message gives up on the call. */
  lemma FirstResponseIsHeld(srv: Server, s: State, parsed: Parsed, k: nat, n: nat)
    requires Inv(srv, s) && Enabled(s, Inbound(parsed))
    requires n < |s.life.calls| && s.life.calls[n].progress.Waiting?
    requires s.exec.ctx.log <= Step(srv, s, Inbound(parsed)).exec.ctx.log
    requires var effects := Step(srv, s, Inbound(parsed)).exec.ctx.log[|s.exec.ctx.log|..];
             FirstFor(effects, k, s.life.calls[n].id) && AllSpare(effects, n)
    ensures var t := Step(srv, s, Inbound(parsed));
            Holds(t.life, n, t.exec.ctx.log[|s.exec.ctx.log|..][k].response)
  {
    var lives := TakingPerforms(srv, s, parsed);
    var effects := Step(srv, s, Inbound(parsed)).exec.ctx.log[|s.exec.ctx.log|..];
    FirstIsHeld(lives, effects, k, n, s.life.calls[n].id);
  }

  // ---- Callbacks that stop ----------------------------------------------------------------

  lemma {:induction false} ActsAreEvents(effects: seq<Effect>, k: nat, a: L.Event)
    requires k < |effects| && effects[k].Called? && a in effects[k].acts
    ensures a in EndToEnd.EventsOf(effects)
  {
    if k > 0 {
      ActsAreEvents(effects[1..], k - 1, a);
    }
  }

  lemma ActsTakeHandles(life: L.State, effects: seq<Effect>, k: nat)
    requires L.Inv(life) && k < |effects| && effects[k].Called?
    ensures L.Terminate in effects[k].acts ==> !Apply(life, effects).control.terminator
    ensures L.Kill in effects[k].acts ==> Apply(life, effects).killed
  {
    EndToEnd.ApplyIsRun(life, effects);
    LR.HandlesHistory(life, EndToEnd.EventsOf(effects));
    if L.Terminate in effects[k].acts {
      ActsAreEvents(effects, k, L.Terminate);
    }
    if L.Kill in effects[k].acts {
      ActsAreEvents(effects, k, L.Kill);
    }
  }

  /** A callback that terminates or kills, anywhere in the message, has stopped the
      connection afterwards: nothing more can be sent through the control, its reference
      is dropped, and the kill signal is sent. */
  lemma CallbackStops(srv: Server, s: State, parsed: Parsed, k: nat)
    requires Inv(srv, s) && Enabled(s, Inbound(parsed))
    requires var log := Step(srv, s, Inbound(parsed)).exec.ctx.log;
             |s.exec.ctx.log| <= k < |log| && Stopping(log[k])
    ensures var t := Step(srv, s, Inbound(parsed));
            && t.life.control.stop && !t.life.control.sender && t.exec.ctx.stop
            && (L.Terminate in t.exec.ctx.log[k].acts ==> !t.life.control.terminator)
            && (L.Kill in t.exec.ctx.log[k].acts ==> t.life.killed)
  {
    var t := Step(srv, s, Inbound(parsed));
    TakingLogs(srv, s, parsed);
    StepKeeps(srv, s, Inbound(parsed));
    CallbackHandles(srv, s, parsed, k);
  }

  lemma CallbackHandles(srv: Server, s: State, parsed: Parsed, k: nat)
    requires Inv(srv, s) && Enabled(s, Inbound(parsed))
    requires var log := Step(srv, s, Inbound(parsed)).exec.ctx.log;
             |s.exec.ctx.log| <= k < |log| && log[k].Called?
    ensures var t := Step(srv, s, Inbound(parsed));
            && (L.Terminate in t.exec.ctx.log[k].acts ==> !t.life.control.terminator)
            && (L.Kill in t.exec.ctx.log[k].acts ==> t.life.killed)
  {
    TakingLogs(srv, s, parsed);
    var effects := NewEffects(s.exec.ctx, Step(srv, s, Inbound(parsed)).exec.ctx);
    ActsTakeHandles(s.life, effects, k - |s.exec.ctx.log|);
  }
}
