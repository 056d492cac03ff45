// Two endpoints joined: what each of them puts on its wire is the input of the other,
// read as the line codec reads it.
module Pair {
  import opened Wrappers
  import opened Json
  import opened Message
  import opened Dispatch
  import opened Merge
  import opened Asking
  import opened Answering
  import E = Endpoint
  import X = Executor
  import L = Life
  import Taking
  import LR = LifeRuns

  /** The endpoints, and how many messages each took from the other's wire. */
  datatype State = State(a: E.State, b: E.State, heardByA: nat, heardByB: nat)

  datatype Event = OfA(e: E.Event) | OfB(e: E.Event) | AHears | BHears

  /** A step of an endpoint other than taking a message. */
  function Own(srv: Server, s: E.State, e: E.Event): E.State {
    if e.Inbound? then s else E.Step(srv, s, e)
  }

  /** The next message on the other's wire, as the codec reads it. */
  function NextHeard(wire: seq<Message>, heard: nat): E.Event
    requires heard < |wire|
  {
    E.Inbound(Ok(Normalize(wire[heard])))
  }

  predicate CanHear(s: E.State, wire: seq<Message>, heard: nat) {
    heard < |wire| && E.Enabled(s, NextHeard(wire, heard))
  }

  /** One endpoint takes the next message from the other's wire, if it can. */
  function Hear(srv: Server, s: E.State, wire: seq<Message>, heard: nat): (E.State, nat) {
    if CanHear(s, wire, heard) then (E.Step(srv, s, NextHeard(wire, heard)), heard + 1) else (s, heard)
  }

  function Step(srvA: Server, srvB: Server, s: State, e: Event): State {
    match e
    case OfA(x) => s.(a := Own(srvA, s.a, x))
    case OfB(x) => s.(b := Own(srvB, s.b, x))
    case AHears =>
      var h := Hear(srvA, s.a, s.b.wire, s.heardByA);
      s.(a := h.0, heardByA := h.1)
    case BHears =>
      var h := Hear(srvB, s.b, s.a.wire, s.heardByB);
      s.(b := h.0, heardByB := h.1)
  }

  function Run(srvA: Server, srvB: Server, s: State, es: seq<Event>): State
    decreases es
  {
    if es == [] then s else Run(srvA, srvB, Step(srvA, srvB, s, es[0]), es[1..])
  }

  function Init(p: nat, q: nat): State {
    State(E.Init(p), E.Init(q), 0, 0)
  }

  // ---- One side, given the other's wire ------------------------------------------------

  predicate Said(wire: seq<Message>, m: Message) {
    exists i :: 0 <= i < |wire| && Normalize(wire[i]) == m
  }

  /** How many requests under this id the server was called for. */
  function CallsFor(log: seq<Effect>, id: string): nat {
    if log == [] then 0 else (if AsksFor(MessageOf(log[0]), id) then 1 else 0) + CallsFor(log[1..], id)
  }

  lemma {:induction false} CallsForAppend(log: seq<Effect>, e: Effect, id: string)
    ensures CallsFor(log + [e], id) == CallsFor(log, id) + if AsksFor(MessageOf(e), id) then 1 else 0
  {
    if log == [] {
      assert log + [e] == [e] && [e][1..] == [];
    } else {
      assert (log + [e])[1..] == log[1..] + [e];
      CallsForAppend(log[1..], e, id);
    }
  }

  /** The server acted on what was said, and on each message once. */
  ghost predicate Faithful(log: seq<Effect>, wire: seq<Message>, heard: nat)
    requires heard <= |wire|
  {
    && (forall e | e in log :: Said(wire, MessageOf(e)))
    && (forall id :: CallsFor(log, id) <= Asked(wire[..heard], id))
  }

  /** The messages taken, in order, and what a wire is read as. */
  function Taken(seen: seq<X.Inbound>): seq<Parsed> {
    if seen == [] then []
    else Taken(seen[..|seen| - 1]) + (if seen[|seen| - 1].Got? then [seen[|seen| - 1].parsed] else [])
  }

  function Read(wire: seq<Message>): seq<Parsed> {
    if wire == [] then [] else Read(wire[..|wire| - 1]) + [Ok(Normalize(wire[|wire| - 1]))]
  }

  lemma TakenMore(seen: seq<X.Inbound>, x: X.Inbound)
    ensures Taken(seen + [x]) == Taken(seen) + if x.Got? then [x.parsed] else []
  {
    assert (seen + [x])[..|seen|] == seen;
  }

  lemma ReadMore(wire: seq<Message>, heard: nat)
    requires heard < |wire|
    ensures Read(wire[..heard + 1]) == Read(wire[..heard]) + [Ok(Normalize(wire[heard]))]
  {
    assert wire[..heard + 1][..heard] == wire[..heard];
  }

  ghost predicate Side(srv: Server, s: E.State, wire: seq<Message>, heard: nat) {
    && Sound(srv, s) && SimpleHistory(s.exec.seen)
    && heard <= |wire| && Faithful(s.exec.ctx.log, wire, heard)
    && Taken(s.exec.seen) == Read(wire[..heard])
  }

  /** The other side says more. */
  lemma MoreSaid(srv: Server, s: E.State, wire: seq<Message>, heard: nat, more: seq<Message>)
    requires Side(srv, s, wire, heard) && wire <= more
    ensures Side(srv, s, more, heard)
  {
    assert more[..heard] == wire[..heard];
    forall e | e in s.exec.ctx.log ensures Said(more, MessageOf(e)) {
      var i :| 0 <= i < |wire| && Normalize(wire[i]) == MessageOf(e);
      assert more[i] == wire[i];
    }
  }

  lemma OwnHearsNothing(srv: Server, s: E.State, e: E.Event)
    requires !e.Inbound?
    ensures var t := E.Step(srv, s, e);
            t.exec.seen == s.exec.seen || t.exec.seen == s.exec.seen + [X.Stopped]
  {
  }

  lemma OwnTakesNothing(srv: Server, s: E.State, e: E.Event)
    requires !e.Inbound?
    ensures Taken(E.Step(srv, s, e).exec.seen) == Taken(s.exec.seen)
    ensures SimpleHistory(s.exec.seen) ==> SimpleHistory(E.Step(srv, s, e).exec.seen)
  {
    OwnHearsNothing(srv, s, e);
    TakenMore(s.exec.seen, X.Stopped);
    assert Taken(s.exec.seen) + [] == Taken(s.exec.seen);
  }

  lemma OwnKeepsSide(srv: Server, s: E.State, e: E.Event, wire: seq<Message>, heard: nat)
    requires Side(srv, s, wire, heard)
    ensures Side(srv, Own(srv, s, e), wire, heard)
  {
    if !e.Inbound? {
      StepSound(srv, s, e);
      OwnKeepsLog(srv, s, e);
      OwnTakesNothing(srv, s, e);
    }
  }

  lemma WireGrows(srv: Server, s: E.State, e: E.Event)
    ensures s.wire <= E.Step(srv, s, e).wire
  {
  }

  /** What a side puts on its wire: its requests, notifications and answers. */
  lemma WireIsSimple(srv: Server, s: E.State, m: Message)
    requires Sound(srv, s) && SimpleHistory(s.exec.seen) && m in s.wire
    ensures Simple(m) && (m.RequestMsg? ==> Stems(s.life.calls, m))
    ensures m.ResponseMsg? ==> Backed(srv, s.exec.ctx.log, m)
  {
    MergedFrom(s.wire, s.exec.out, s.life.channel.written, m);
    if m in s.exec.out {
      OutBacked(srv, s.exec, m);
    } else {
      assert m in LR.Outgoing(s.life);
    }
  }

  /** Taking one message adds at most its own effect. */
  lemma HearsOne(srv: Server, s: E.State, m: Message)
    requires E.Inv(srv, s) && Simple(m) && E.Enabled(s, E.Inbound(Ok(m)))
    ensures var t := E.Step(srv, s, E.Inbound(Ok(m)));
            && t.exec.seen == s.exec.seen + [X.Got(Ok(m))]
            && (t.exec.ctx.log == s.exec.ctx.log
                || exists e :: MessageOf(e) == m && t.exec.ctx.log == s.exec.ctx.log + [e])
  {
    var d := DoMsg(srv, s.exec.ctx, s.exec.chans, Ok(m));
    Opens(srv, s.exec.ctx, s.exec.chans, m);
    SimpleDispatch(srv, s.exec.ctx, m);
    if d.ctx.log != s.exec.ctx.log {
      var e := d.ctx.log[|s.exec.ctx.log|];
      assert d.ctx.log == s.exec.ctx.log + [e];
    }
  }

  lemma HeardFaithful(log: seq<Effect>, wire: seq<Message>, heard: nat)
    requires heard < |wire| && Faithful(log, wire, heard)
    ensures Faithful(log, wire, heard + 1)
    ensures forall e | MessageOf(e) == Normalize(wire[heard]) :: Faithful(log + [e], wire, heard + 1)
  {
    var m := wire[heard];
    assert wire[..heard + 1] == wire[..heard] + [m];
    forall id ensures Asked(wire[..heard + 1], id) == Asked(wire[..heard], id) + if AsksFor(m, id) then 1 else 0 {
      AskedConcat(wire[..heard], [m], id);
      assert [m][1..] == [];
    }
    forall e | MessageOf(e) == Normalize(m) ensures Faithful(log + [e], wire, heard + 1) {
      assert Said(wire, MessageOf(e));
      forall id ensures CallsFor(log + [e], id) <= Asked(wire[..heard + 1], id) {
        CallsForAppend(log, e, id);
      }
    }
  }

  lemma HeardIsRecorded(srv: Server, s: E.State, wire: seq<Message>, heard: nat)
    requires E.Inv(srv, s) && SimpleHistory(s.exec.seen) && heard < |wire| && Faithful(s.exec.ctx.log, wire, heard)
    requires E.Enabled(s, NextHeard(wire, heard)) && Simple(wire[heard])
    ensures var t := E.Step(srv, s, NextHeard(wire, heard));
            && SimpleHistory(t.exec.seen) && Faithful(t.exec.ctx.log, wire, heard + 1)
            && Taken(t.exec.seen) == Taken(s.exec.seen) + [Ok(Normalize(wire[heard]))]
  {
    HearsOne(srv, s, Normalize(wire[heard]));
    HeardFaithful(s.exec.ctx.log, wire, heard);
    TakenMore(s.exec.seen, X.Got(Ok(Normalize(wire[heard]))));
  }

  lemma HearingKeepsSide(srv: Server, s: E.State, wire: seq<Message>, heard: nat)
    requires Side(srv, s, wire, heard) && CanHear(s, wire, heard) && Simple(wire[heard])
    ensures Side(srv, E.Step(srv, s, NextHeard(wire, heard)), wire, heard + 1)
  {
    StepSound(srv, s, NextHeard(wire, heard));
    HeardIsRecorded(srv, s, wire, heard);
    ReadMore(wire, heard);
  }

  // ---- Both sides ------------------------------------------------------------------------

  ghost predicate Inv(srvA: Server, srvB: Server, s: State) {
    Side(srvA, s.a, s.b.wire, s.heardByA) && Side(srvB, s.b, s.a.wire, s.heardByB)
  }

  /** Both stay sound when one makes a step, or hears the other. */
  lemma OwnKeepsBoth(srv: Server, me: E.State, heard: nat, peerSrv: Server, peer: E.State, peerHeard: nat, x: E.Event)
    requires Side(srv, me, peer.wire, heard) && Side(peerSrv, peer, me.wire, peerHeard)
    ensures Side(srv, Own(srv, me, x), peer.wire, heard) && Side(peerSrv, peer, Own(srv, me, x).wire, peerHeard)
  {
    OwnKeepsSide(srv, me, x, peer.wire, heard);
    WireGrows(srv, me, x);
    MoreSaid(peerSrv, peer, me.wire, peerHeard, Own(srv, me, x).wire);
  }

  lemma HeardKeepsBoth(srv: Server, me: E.State, heard: nat, peerSrv: Server, peer: E.State, peerHeard: nat)
    requires Side(srv, me, peer.wire, heard) && Side(peerSrv, peer, me.wire, peerHeard)
    requires CanHear(me, peer.wire, heard)
    ensures var h := Hear(srv, me, peer.wire, heard);
            Side(srv, h.0, peer.wire, h.1) && Side(peerSrv, peer, h.0.wire, peerHeard)
  {
    WireIsSimple(peerSrv, peer, peer.wire[heard]);
    HearingKeepsSide(srv, me, peer.wire, heard);
    WireGrows(srv, me, NextHeard(peer.wire, heard));
    MoreSaid(peerSrv, peer, me.wire, peerHeard, Hear(srv, me, peer.wire, heard).0.wire);
  }

  lemma NotHeardKeepsBoth(srv: Server, me: E.State, heard: nat, peerSrv: Server, peer: E.State, peerHeard: nat)
    requires Side(srv, me, peer.wire, heard) && Side(peerSrv, peer, me.wire, peerHeard)
    requires !CanHear(me, peer.wire, heard)
    ensures var h := Hear(srv, me, peer.wire, heard);
            Side(srv, h.0, peer.wire, h.1) && Side(peerSrv, peer, h.0.wire, peerHeard)
  {
  }

  lemma HearingKeepsBoth(srv: Server, me: E.State, heard: nat, peerSrv: Server, peer: E.State, peerHeard: nat)
    requires Side(srv, me, peer.wire, heard) && Side(peerSrv, peer, me.wire, peerHeard)
    ensures var h := Hear(srv, me, peer.wire, heard);
            Side(srv, h.0, peer.wire, h.1) && Side(peerSrv, peer, h.0.wire, peerHeard)
  {
    if CanHear(me, peer.wire, heard) {
      HeardKeepsBoth(srv, me, heard, peerSrv, peer, peerHeard);
    } else {
      NotHeardKeepsBoth(srv, me, heard, peerSrv, peer, peerHeard);
    }
  }

  lemma OfAKeeps(srvA: Server, srvB: Server, s: State, x: E.Event)
    requires Inv(srvA, srvB, s)
    ensures Inv(srvA, srvB, Step(srvA, srvB, s, OfA(x)))
  {
    OwnKeepsBoth(srvA, s.a, s.heardByA, srvB, s.b, s.heardByB, x);
  }

  lemma OfBKeeps(srvA: Server, srvB: Server, s: State, x: E.Event)
    requires Inv(srvA, srvB, s)
    ensures Inv(srvA, srvB, Step(srvA, srvB, s, OfB(x)))
  {
    OwnKeepsBoth(srvB, s.b, s.heardByB, srvA, s.a, s.heardByA, x);
  }

  lemma AHearsKeeps(srvA: Server, srvB: Server, s: State)
    requires Inv(srvA, srvB, s)
    ensures Inv(srvA, srvB, Step(srvA, srvB, s, AHears))
  {
    var h := Hear(srvA, s.a, s.b.wire, s.heardByA);
    HearingKeepsBoth(srvA, s.a, s.heardByA, srvB, s.b, s.heardByB);
    assert Step(srvA, srvB, s, AHears) == State(h.0, s.b, h.1, s.heardByB);
  }

  lemma BHearsKeeps(srvA: Server, srvB: Server, s: State)
    requires Inv(srvA, srvB, s)
    ensures Inv(srvA, srvB, Step(srvA, srvB, s, BHears))
  {
    var h := Hear(srvB, s.b, s.a.wire, s.heardByB);
    HearingKeepsBoth(srvB, s.b, s.heardByB, srvA, s.a, s.heardByA);
    assert Step(srvA, srvB, s, BHears) == State(s.a, h.0, s.heardByA, h.1);
  }

  lemma StepKeeps(srvA: Server, srvB: Server, s: State, e: Event)
    requires Inv(srvA, srvB, s)
    ensures Inv(srvA, srvB, Step(srvA, srvB, s, e))
  {
    match e
    case OfA(x) => OfAKeeps(srvA, srvB, s, x);
    case OfB(x) => OfBKeeps(srvA, srvB, s, x);
    case AHears => AHearsKeeps(srvA, srvB, s);
    case BHears => BHearsKeeps(srvA, srvB, s);
  }

  lemma {:induction false} RunKeeps(srvA: Server, srvB: Server, s: State, es: seq<Event>)
    requires Inv(srvA, srvB, s)
    ensures Inv(srvA, srvB, Run(srvA, srvB, s, es))
    decreases es
  {
    if es != [] {
      StepKeeps(srvA, srvB, s, es[0]);
      RunKeeps(srvA, srvB, Step(srvA, srvB, s, es[0]), es[1..]);
    }
  }

  lemma InitOk(srv: Server, p: nat)
    ensures Side(srv, E.Init(p), [], 0)
  {
    E.Reachable(srv, p, []);
  }

  // ---- Main result -------------------------------------------------------------------------

  /** In every run each side has taken exactly the first messages of the other's wire, as
      they are read, in their order. */
  lemma HeardInOrder(srvA: Server, srvB: Server, p: nat, q: nat, es: seq<Event>)
    ensures var s := Run(srvA, srvB, Init(p, q), es);
            && s.heardByA <= |s.b.wire| && Taken(s.a.exec.seen) == Read(s.b.wire[..s.heardByA])
            && s.heardByB <= |s.a.wire| && Taken(s.b.exec.seen) == Read(s.a.wire[..s.heardByB])
  {
    InitOk(srvA, p);
    InitOk(srvB, q);
    RunKeeps(srvA, srvB, Init(p, q), es);
  }

  /** The peer's server was called for this request exactly once, and the answer is what
      it answered then. */
  predicate AnsweredByPeer(srv: Server, log: seq<Effect>, call: L.Call, answer: Response) {
    && CallsFor(log, call.id) == 1
    && exists k :: 0 <= k < |log| && IsRequestCall(log[k])
         && RequestMsg(log[k].callback.request) == Normalize(call.request)
         && ResponseMsg(answer)
            == Normalize(RequestReply(srv, Context(false, log[..k]), log[k].callback.request))
  }

  lemma {:induction false} CalledCounts(log: seq<Effect>, k: nat, id: string)
    requires k < |log| && AsksFor(MessageOf(log[k]), id)
    ensures CallsFor(log, id) > 0
  {
    if k > 0 {
      CalledCounts(log[1..], k - 1, id);
    }
  }

  /** Nothing is asked twice on a wire. */
  lemma AskedOnce(srv: Server, s: E.State, id: string)
    requires Sound(srv, s) && SimpleHistory(s.exec.seen)
    ensures Asked(s.wire, id) <= 1
  {
    forall m | m in s.exec.out ensures !AsksFor(m, id) {
      OutBacked(srv, s.exec, m);
    }
    NotAsked(s.exec.out, id);
    MergedAsked(s.wire, s.exec.out, s.life.channel.written, id);
    AskedPrefix(s.life.channel.written, LR.Outgoing(s.life), id);
  }

  /** A response that was routed is what the peer's server answered to some request. */
  lemma RoutedIsBacked(answer: Response, peerSrv: Server, peer: E.State) returns (k: nat, reply: Message)
    requires Sound(peerSrv, peer) && SimpleHistory(peer.exec.seen)
    requires Said(peer.wire, ResponseMsg(answer))
    ensures AnsweredAt(peerSrv, peer.exec.ctx.log, k, reply) && Normalize(reply) == ResponseMsg(answer)
  {
    var j :| 0 <= j < |peer.wire| && Normalize(peer.wire[j]) == ResponseMsg(answer);
    reply := peer.wire[j];
    WireIsSimple(peerSrv, peer, reply);
    k :| 0 <= k < |peer.exec.ctx.log| && AnsweredAt(peerSrv, peer.exec.ctx.log, k, reply);
  }

  /** A request heard under the id of a call is the one this call sent. */
  lemma HeardIsAsked(srv: Server, me: E.State, n: nat, request: Request)
    requires Sound(srv, me) && SimpleHistory(me.exec.seen) && n < |me.life.calls|
    requires Said(me.wire, RequestMsg(request)) && request.id == Str(me.life.calls[n].id)
    ensures Normalize(me.life.calls[n].request) == RequestMsg(request)
  {
    var i :| 0 <= i < |me.wire| && Normalize(me.wire[i]) == RequestMsg(request);
    WireIsSimple(srv, me, me.wire[i]);
    var m :| 0 <= m < |me.life.calls| && me.life.calls[m].sent && me.life.calls[m].request == me.wire[i];
    L.DistinctAt(me.life.calls, m, n);
  }

  /** The answer to a call of one side comes from the other side's server. */
  lemma AnswerFromPeer(srv: Server, me: E.State, heard: nat, peerSrv: Server, peer: E.State, peerHeard: nat, n: nat)
    requires Side(srv, me, peer.wire, heard) && Side(peerSrv, peer, me.wire, peerHeard)
    requires n < |me.life.calls| && L.HasAnswer(me.life.calls[n])
    ensures AnsweredByPeer(peerSrv, peer.exec.ctx.log, me.life.calls[n], L.AnswerOf(me.life.calls[n]))
  {
    var call, log := me.life.calls[n], peer.exec.ctx.log;
    var answer := L.AnswerOf(call);
    assert L.CallOk(call, me.life.idmap.Keys, me.life.channel.transmit);
    assert Said(peer.wire, MessageOf(Routed(answer)));
    var k, reply := RoutedIsBacked(answer, peerSrv, peer);
    var request := log[k].callback.request;
    assert log[k] in log && MessageOf(log[k]) == RequestMsg(request);
    HeardIsAsked(srv, me, n, request);
    CalledCounts(log, k, call.id);
    AskedOnce(srv, me, call.id);
    AskedPrefix(me.wire[..peerHeard], me.wire, call.id);
  }

  /** In every run of two joined endpoints, a call that holds or resolved with an answer
      got exactly what the other side's server answered to the request this call sent,
      and that server was called for it exactly once. */
  lemma CallsAreAnsweredByPeer(srvA: Server, srvB: Server, p: nat, q: nat, es: seq<Event>, n: nat)
    ensures var s := Run(srvA, srvB, Init(p, q), es);
            && (n < |s.a.life.calls| && L.HasAnswer(s.a.life.calls[n]) ==>
                  AnsweredByPeer(srvB, s.b.exec.ctx.log, s.a.life.calls[n], L.AnswerOf(s.a.life.calls[n])))
            && (n < |s.b.life.calls| && L.HasAnswer(s.b.life.calls[n]) ==>
                  AnsweredByPeer(srvA, s.a.exec.ctx.log, s.b.life.calls[n], L.AnswerOf(s.b.life.calls[n])))
  {
    var s := Run(srvA, srvB, Init(p, q), es);
    InitOk(srvA, p);
    InitOk(srvB, q);
    RunKeeps(srvA, srvB, Init(p, q), es);
    if n < |s.a.life.calls| && L.HasAnswer(s.a.life.calls[n]) {
      AnswerFromPeer(srvA, s.a, s.heardByA, srvB, s.b, s.heardByB, n);
    }
    if n < |s.b.life.calls| && L.HasAnswer(s.b.life.calls[n]) {
      AnswerFromPeer(srvB, s.b, s.heardByB, srvA, s.a, s.heardByA, n);
    }
  }

  // ---- Answers arrive ----------------------------------------------------------------------

  // When a side hears the response to a call of its own that waits, the call has it.

  lemma AHearsAnswer(srvA: Server, srvB: Server, s: State, n: nat, response: Response)
    requires E.Inv(srvA, s.a) && CanHear(s.a, s.b.wire, s.heardByA)
    requires Normalize(s.b.wire[s.heardByA]) == ResponseMsg(response)
    requires n < |s.a.life.calls| && s.a.life.calls[n].progress.Waiting? && response.id == Str(s.a.life.calls[n].id)
    ensures var t := Step(srvA, srvB, s, AHears);
            n < |t.a.life.calls| && t.a.life.calls[n] == s.a.life.calls[n].(progress := L.Filled(response))
  {
    var h := Hear(srvA, s.a, s.b.wire, s.heardByA);
    SideHears(srvA, s.a, s.b.wire, s.heardByA, n, response);
    assert Step(srvA, srvB, s, AHears) == State(h.0, s.b, h.1, s.heardByB);
  }

  lemma BHearsAnswer(srvA: Server, srvB: Server, s: State, n: nat, response: Response)
    requires E.Inv(srvB, s.b) && CanHear(s.b, s.a.wire, s.heardByB)
    requires Normalize(s.a.wire[s.heardByB]) == ResponseMsg(response)
    requires n < |s.b.life.calls| && s.b.life.calls[n].progress.Waiting? && response.id == Str(s.b.life.calls[n].id)
    ensures var t := Step(srvA, srvB, s, BHears);
            n < |t.b.life.calls| && t.b.life.calls[n] == s.b.life.calls[n].(progress := L.Filled(response))
  {
    var h := Hear(srvB, s.b, s.a.wire, s.heardByB);
    SideHears(srvB, s.b, s.a.wire, s.heardByB, n, response);
    assert Step(srvA, srvB, s, BHears) == State(s.a, h.0, s.heardByA, h.1);
  }

  lemma SideHears(srv: Server, s: E.State, wire: seq<Message>, heard: nat, n: nat, response: Response)
    requires E.Inv(srv, s) && CanHear(s, wire, heard) && Normalize(wire[heard]) == ResponseMsg(response)
    requires n < |s.life.calls| && s.life.calls[n].progress.Waiting? && response.id == Str(s.life.calls[n].id)
    ensures var t := Hear(srv, s, wire, heard).0;
            n < |t.life.calls| && t.life.calls[n] == s.life.calls[n].(progress := L.Filled(response))
  {
    Taking.ResponseIsDelivered(srv, s, response, n);
  }
}
