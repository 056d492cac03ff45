// One exchange from start to end: a call of one endpoint is sent, heard, worked on,
// answered and resolved.
module Exchange {
  import opened Wrappers
  import opened Json
  import opened Message
  import opened Futures
  import opened Dispatch
  import E = Endpoint
  import X = Executor
  import L = Life
  import CL = CallLaws
  import Taking
  import Pair

  // ---- The side that calls -----------------------------------------------------------------

  /** The side that called and put its request on the wire. */
  predicate HasCalled(s: E.State, p: nat, id: string, request: Message, timed: bool) {
    && s.exec == X.Init(p) && s.wire == [request]
    && s.life.calls == [L.Call(id, request, timed, true, L.Waiting)]
    && s.life.control == L.INIT.control && s.life.channel == L.Channel([], [request], L.Running)
  }

  function AfterCall(srv: Server, p: nat, e: L.Event, f: L.Event): E.State
    requires ByUser(e) && ByUser(f)
  {
    E.Step(srv, E.Step(srv, E.Init(p), E.User(e)), E.User(f))
  }

  lemma UserActs(srv: Server, s: E.State, act: Act)
    requires !L.Step(s.life, act).control.stop
    ensures E.Step(srv, s, E.User(act)) == s.(life := L.Step(s.life, act))
  {
  }

  lemma CallIsQueued(srv: Server, p: nat, id: string, name: string, params: Option<Json>, timed: bool)
    ensures var request := RequestMsg(Request(name, params, Str(id)));
            var s := AfterCall(srv, p, L.NewCall(id, name, params, timed), L.CallSent(0));
            && s.exec == X.Init(p) && s.wire == []
            && s.life.calls == [L.Call(id, request, timed, true, L.Waiting)]
            && s.life.control == L.INIT.control && s.life.channel == L.Channel([request], [], L.Running)
  {
    CL.CallSends(L.INIT, id, name, params, timed);
    var e, f := L.NewCall(id, name, params, timed), L.CallSent(0);
    var l := L.Step(L.INIT, e);
    UserActs(srv, E.Init(p), e);
    UserActs(srv, E.Init(p).(life := l), f);
  }

  lemma Calls(srv: Server, p: nat, id: string, name: string, params: Option<Json>, timed: bool)
    ensures var s := AfterCall(srv, p, L.NewCall(id, name, params, timed), L.CallSent(0));
            HasCalled(E.Step(srv, s, E.TakeQueued), p, id, RequestMsg(Request(name, params, Str(id))), timed)
  {
    CallIsQueued(srv, p, id, name, params, timed);
    Takes(srv, AfterCall(srv, p, L.NewCall(id, name, params, timed), L.CallSent(0)));
  }

  lemma Takes(srv: Server, s: E.State)
    requires |s.life.channel.queue| == 1 && s.life.channel.transmit.Running?
    ensures var m := s.life.channel.queue[0];
            var channel := L.Channel([], s.life.channel.written + [m], L.Running);
            E.Step(srv, s, E.TakeQueued) == s.(life := s.life.(channel := channel), wire := s.wire + [m])
  {
    assert s.life.channel.queue[1..] == [];
  }

  // ---- The side that answers ---------------------------------------------------------------

  function Heard(srv: Server, q: nat, request: Message): E.State {
    E.Step(srv, E.Init(q), E.Inbound(Ok(request)))
  }

  /** Hearing a request, its server accepts or refuses; with a slot the future is admitted,
      resolves, and the reply is on the wire. */
  lemma Answers(srv: Server, q: nat, request: Request)
    requires q > 0
    ensures var s := Heard(srv, q, RequestMsg(request));
            var t := E.Step(srv, s, E.Progress(X.Admit));
            srv.rpc([], request).acts == [] ==>
              E.Step(srv, t, E.Progress(X.Finish(0))).wire == [RequestReply(srv, Context(false, []), request)]
  {
    var s := Heard(srv, q, RequestMsg(request));
    if srv.rpc([], request).acts == [] {
      var reply := RequestReply(srv, Context(false, []), request);
      var f := Work(Some(reply));
      E.Reachable(srv, q, []);
      Taking.RequestActs(srv, E.Init(q), request);
      assert s.life == L.INIT && s.wire == [];
      assert s.exec.stream == Once(f) && s.exec.inflight == [] && s.exec.out == [] && s.exec.parallel == q;
      Works(srv, s, f, reply);
    }
  }

  lemma Works(srv: Server, s: E.State, f: Future, reply: Message)
    requires f == Work(Some(reply)) && s.exec.stream == Once(f) && s.exec.inflight == [] && s.exec.out == []
    requires s.exec.parallel > 0 && s.life.channel.transmit.Running? && s.wire == []
    ensures var t := E.Step(srv, s, E.Progress(X.Admit));
            E.Step(srv, t, E.Progress(X.Finish(0))).wire == [reply]
  {
    var x := X.Step(srv, s.exec, X.Admit);
    assert x.inflight == [f] && x.out == [] && x.stream == Empty;
    assert X.CanFinish(x, 0) && X.FinishStep(x, 0).out == [reply];
  }

  // ---- The whole exchange --------------------------------------------------------------------

  lemma {:induction false} RunOne(srvA: Server, srvB: Server, s: Pair.State, e: Pair.Event, es: seq<Pair.Event>)
    ensures Pair.Run(srvA, srvB, s, [e] + es) == Pair.Run(srvA, srvB, Pair.Step(srvA, srvB, s, e), es)
    ensures Pair.Run(srvA, srvB, s, []) == s
  {
    assert ([e] + es)[1..] == es;
  }

  /** The steps of one exchange: A's call is sent, B works on it, A hears and polls. */
  function Asks(id: string, name: string, params: Option<Json>, timed: bool): seq<Pair.Event> {
    [Pair.OfA(E.User(L.NewCall(id, name, params, timed))), Pair.OfA(E.User(L.CallSent(0))), Pair.OfA(E.TakeQueued)]
  }

  const WORKS := [Pair.BHears, Pair.OfB(E.Progress(X.Admit)), Pair.OfB(E.Progress(X.Finish(0)))]

  const RESOLVES := [Pair.AHears, Pair.OfA(E.User(L.PollCall(0)))]

  lemma {:induction false} RunConcat(srvA: Server, srvB: Server, s: Pair.State, a: seq<Pair.Event>, b: seq<Pair.Event>)
    ensures Pair.Run(srvA, srvB, s, a + b) == Pair.Run(srvA, srvB, Pair.Run(srvA, srvB, s, a), b)
    decreases a
  {
    if a == [] {
      assert a + b == b;
    } else {
      assert (a + b)[1..] == a[1..] + b;
      RunConcat(srvA, srvB, Pair.Step(srvA, srvB, s, a[0]), a[1..], b);
    }
  }

  lemma RunTwo(srvA: Server, srvB: Server, s: Pair.State, e: Pair.Event, f: Pair.Event)
    ensures Pair.Run(srvA, srvB, s, [e, f]) == Pair.Step(srvA, srvB, Pair.Step(srvA, srvB, s, e), f)
  {
    RunOne(srvA, srvB, s, e, [f]);
    RunOne(srvA, srvB, Pair.Step(srvA, srvB, s, e), f, []);
    assert [e] + [f] == [e, f] && [f] + [] == [f];
  }

  lemma RunThree(srvA: Server, srvB: Server, s: Pair.State, e: Pair.Event, f: Pair.Event, g: Pair.Event)
    ensures Pair.Run(srvA, srvB, s, [e, f, g])
         == Pair.Step(srvA, srvB, Pair.Step(srvA, srvB, Pair.Step(srvA, srvB, s, e), f), g)
  {
    RunOne(srvA, srvB, s, e, [f, g]);
    RunTwo(srvA, srvB, Pair.Step(srvA, srvB, s, e), f, g);
    assert [e] + [f, g] == [e, f, g];
  }

  /** The side that called hears the answer, and its call resolves with it. */
  lemma Resolves(srv: Server, s: E.State, p: nat, id: string, request: Message, timed: bool, response: Response)
    requires E.Inv(srv, s) && HasCalled(s, p, id, request, timed) && p > 0 && response.id == Str(id)
    ensures var t := E.Step(srv, s, E.Inbound(Ok(ResponseMsg(response))));
            var u := E.Step(srv, t, E.User(L.PollCall(0)));
            |u.life.calls| > 0 && u.life.calls[0].progress == L.Done(L.Answered(response))
  {
    Taking.ResponseIsDelivered(srv, s, response, 0);
    var t := E.Step(srv, s, E.Inbound(Ok(ResponseMsg(response))));
    CL.StepResolves(t.life, L.PollCall(0), 0, L.Answered(response));
  }

  lemma CallKeepsInv(srv: Server, p: nat, e: L.Event, f: L.Event)
    requires ByUser(e) && ByUser(f)
    ensures E.Inv(srv, E.Step(srv, AfterCall(srv, p, e, f), E.TakeQueued))
  {
    E.Reachable(srv, p, []);
    E.StepKeeps(srv, E.Init(p), E.User(e));
    E.StepKeeps(srv, E.Step(srv, E.Init(p), E.User(e)), E.User(f));
    E.StepKeeps(srv, AfterCall(srv, p, e, f), E.TakeQueued);
  }

  lemma AskRun(srvA: Server, srvB: Server, p: nat, q: nat, e: L.Event, f: L.Event)
    requires ByUser(e) && ByUser(f)
    ensures Pair.Run(srvA, srvB, Pair.Init(p, q), [Pair.OfA(E.User(e)), Pair.OfA(E.User(f)), Pair.OfA(E.TakeQueued)])
         == Pair.State(E.Step(srvA, AfterCall(srvA, p, e, f), E.TakeQueued), E.Init(q), 0, 0)
  {
    RunThree(srvA, srvB, Pair.Init(p, q), Pair.OfA(E.User(e)), Pair.OfA(E.User(f)), Pair.OfA(E.TakeQueued));
  }

  lemma AskPhase(srvA: Server, srvB: Server, p: nat, q: nat, id: string, name: string, params: Option<Json>,
                 timed: bool)
    ensures var s := Pair.Run(srvA, srvB, Pair.Init(p, q), Asks(id, name, params, timed));
            && s == Pair.State(s.a, E.Init(q), 0, 0) && E.Inv(srvA, s.a)
            && HasCalled(s.a, p, id, RequestMsg(Request(name, params, Str(id))), timed)
  {
    var e, f := L.NewCall(id, name, params, timed), L.CallSent(0);
    AskRun(srvA, srvB, p, q, e, f);
    Calls(srvA, p, id, name, params, timed);
    CallKeepsInv(srvA, p, e, f);
  }

  lemma WorkPhase(srvA: Server, srvB: Server, s: Pair.State, q: nat, request: Request)
    requires q > 0 && s.b == E.Init(q) && s.heardByB == 0
    requires |s.a.wire| == 1 && Normalize(s.a.wire[0]) == RequestMsg(request) && srvB.rpc([], request).acts == []
    ensures var t := Pair.Run(srvA, srvB, s, WORKS);
            t.a == s.a && t.heardByA == s.heardByA && t.b.wire == [RequestReply(srvB, Context(false, []), request)]
  {
    RunThree(srvA, srvB, s, Pair.BHears, Pair.OfB(E.Progress(X.Admit)), Pair.OfB(E.Progress(X.Finish(0))));
    assert Pair.CanHear(E.Init(q), s.a.wire, 0);
    assert Pair.Step(srvA, srvB, s, Pair.BHears) == s.(b := Heard(srvB, q, RequestMsg(request)), heardByB := 1);
    Answers(srvB, q, request);
  }

  lemma ResolvePhase(srvA: Server, srvB: Server, s: Pair.State, p: nat, id: string, request: Message, timed: bool,
                     response: Response)
    requires E.Inv(srvA, s.a) && HasCalled(s.a, p, id, request, timed) && p > 0 && response.id == Str(id)
    requires |s.b.wire| == 1 && Normalize(s.b.wire[0]) == ResponseMsg(response) && s.heardByA == 0
    ensures var t := Pair.Run(srvA, srvB, s, RESOLVES);
            |t.a.life.calls| > 0 && t.a.life.calls[0].progress == L.Done(L.Answered(response))
  {
    RunTwo(srvA, srvB, s, Pair.AHears, Pair.OfA(E.User(L.PollCall(0))));
    assert Pair.CanHear(s.a, s.b.wire, 0);
    var a := E.Step(srvA, s.a, E.Inbound(Ok(ResponseMsg(response))));
    assert Pair.Step(srvA, srvB, s, Pair.AHears) == s.(a := a, heardByA := 1);
    Resolves(srvA, s.a, p, id, request, timed, response);
  }

  /** Whatever is called, with whatever params, on whatever server with a slot: these steps
      resolve the call with what that server's future resolves to, or with "method not
      found" if it refuses. */
  lemma CallIsAnswered(srvA: Server, srvB: Server, p: nat, q: nat, id: string, name: string, params: Option<Json>,
                       timed: bool)
    requires p > 0 && q > 0 && srvB.rpc([], Request(name, Optional(params), Str(id))).acts == []
    ensures var s := Pair.Run(srvA, srvB, Pair.Init(p, q), Asks(id, name, params, timed) + WORKS + RESOLVES);
            var reply := RequestReply(srvB, Context(false, []), Request(name, Optional(params), Str(id)));
            && |s.a.life.calls| > 0 && Normalize(reply).ResponseMsg?
            && s.a.life.calls[0].progress == L.Done(L.Answered(Normalize(reply).response))
  {
    var request := RequestMsg(Request(name, params, Str(id)));
    var heard := Request(name, Optional(params), Str(id));
    var reply := RequestReply(srvB, Context(false, []), heard);
    var asks := Asks(id, name, params, timed);
    var s3 := Pair.Run(srvA, srvB, Pair.Init(p, q), asks);
    AskPhase(srvA, srvB, p, q, id, name, params, timed);
    var s6 := Pair.Run(srvA, srvB, s3, WORKS);
    WorkPhase(srvA, srvB, s3, q, heard);
    ResolvePhase(srvA, srvB, s6, p, id, request, timed, Normalize(reply).response);
    RunConcat(srvA, srvB, Pair.Init(p, q), asks + WORKS, RESOLVES);
    RunConcat(srvA, srvB, Pair.Init(p, q), asks, WORKS);
  }
}
