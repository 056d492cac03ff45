// What users of a connection get, in terms of the events alone: what a call or a
// notification puts on the wire, and what a call ends with (src/endpoint.rs: Client,
// do_response).
module CallLaws {
  import opened Wrappers
  import opened Json
  import opened Message
  import opened Life
  import opened LifeRuns

  // ---- What is sent --------------------------------------------------------------------

  /** A call by a free client, sent while the queue has room for one of its 32: what is
      queued is the request with exactly this name, these params and this id; the client
      comes back, and the call waits, found under its id. */
  lemma CallSends(s: State, id: string, name: string, params: Option<Json>, timed: bool)
    requires s.clients > 0 && id !in s.idmap && forall c | c in s.calls :: c.id != id
    ensures var n := |s.calls|;
            var t := Step(s, NewCall(id, name, params, timed));
            var request := RequestMsg(Request(name, params, Str(id)));
            && t.clients == s.clients - 1 && t.channel == s.channel
            && t.calls == s.calls + [Call(id, request, timed, false, Waiting)]
            && t.idmap == s.idmap[id := n]
            && Step(t, CallSent(n))
               == if s.channel.transmit.Running? && |s.channel.queue| < 32
                  then t.(clients := s.clients,
                          calls := s.calls + [Call(id, request, timed, true, Waiting)],
                          channel := s.channel.(queue := s.channel.queue + [request]))
                  else t
  {
    var n := |s.calls|;
    var t := Step(s, NewCall(id, name, params, timed));
    assert forall i | 0 <= i < |s.calls| :: s.calls[i] in s.calls;
    assert t == CallStep(s, NewCall(id, name, params, timed));
    assert Step(t, CallSent(n)) == CallStep(t, CallSent(n));
  }

  lemma NotificationSends(s: State, name: string, params: Option<Json>)
    requires s.clients > 0
    ensures var k := |s.notifying|;
            var t := Step(s, NewNotification(name, params));
            var m := NotificationMsg(Notification(name, params));
            && t == s.(clients := s.clients - 1, notifying := s.notifying + [m])
            && Step(t, NotificationSent(k))
               == if s.channel.transmit.Running? && |s.channel.queue| < 32
                  then s.(channel := s.channel.(queue := s.channel.queue + [m]))
                  else t
  {
    var k := |s.notifying|;
    var t := Step(s, NewNotification(name, params));
    assert t == ClientStep(s, NewNotification(name, params));
    assert Step(t, NotificationSent(k)) == ClientStep(t, NotificationSent(k));
    assert t.notifying[..k] + t.notifying[k + 1..] == s.notifying;
  }

  /** The message a user's event asks to send. */
  predicate SentBy(e: Event, m: Message) {
    match e
    case NewCall(id, name, params, _) => m == RequestMsg(Request(name, params, Str(id)))
    case NewNotification(name, params) => m == NotificationMsg(Notification(name, params))
    case _ => false
  }

  predicate Asked(events: seq<Event>, m: Message) {
    exists e | e in events :: SentBy(e, m)
  }

  /** A call is one somebody made, with its own id and timeout, and its request. */
  predicate Made(events: seq<Event>, c: Call) {
    exists e | e in events :: e.NewCall? && e.id == c.id && e.timed == c.timed && SentBy(e, c.request)
  }

  predicate AllFrom(s: State, events: seq<Event>) {
    && (forall i | 0 <= i < |s.calls| :: Made(events, s.calls[i]))
    && (forall m | m in s.notifying :: Asked(events, m))
    && (forall m | m in Outgoing(s) :: Asked(events, m))
  }

  lemma CallsFrom(s: State, e: Event, events: seq<Event>, i: nat)
    requires AllFrom(s, events) && e in events && i < |Step(s, e).calls|
    ensures Made(events, Step(s, e).calls[i])
  {
    if i < |s.calls| {
      assert Made(events, s.calls[i]);
      CallKept(s, e, i);
    } else {
      assert CallEvent(e) by {
        if !CallEvent(e) && !e.EndOfInput? && !e.TransmitEnd? {
          OthersKeepCalls(s, e);
        }
      }
      assert Step(s, e) == CallStep(s, e);
      assert e.NewCall? && SentBy(e, Step(s, e).calls[i].request);
    }
  }

  /** No step changes what a call asks, or its timeout. */
  lemma CallKept(s: State, e: Event, i: nat)
    requires i < |s.calls|
    ensures var t := Step(s, e);
            && i < |t.calls| && t.calls[i].id == s.calls[i].id
            && t.calls[i].request == s.calls[i].request && t.calls[i].timed == s.calls[i].timed
            && (s.calls[i].sent ==> t.calls[i].sent)
  {
    if CallEvent(e) {
      assert Step(s, e) == CallStep(s, e);
    } else if e.EndOfInput? || e.TransmitEnd? {
      ClearingCuts(s, e, i);
    } else {
      OthersKeepCalls(s, e);
    }
  }

  lemma NotifyingFrom(s: State, e: Event, events: seq<Event>)
    requires AllFrom(s, events) && e in events
    ensures forall m | m in Step(s, e).notifying :: Asked(events, m)
  {
    if ClientEvent(e) {
      assert Step(s, e) == ClientStep(s, e);
      if e.NewNotification? {
        assert SentBy(e, NotificationMsg(Notification(e.rpcMethod, e.params)));
      }
    } else if CallEvent(e) {
      assert Step(s, e).notifying == s.notifying;
    }
  }

  lemma AcceptedFrom(s: State, e: Event, events: seq<Event>)
    requires AllFrom(s, events)
    ensures forall m | m in Accepted(s, e) :: Asked(events, m)
  {
    match e
    case CallSent(n) =>
      if n < |s.calls| {
        assert Made(events, s.calls[n]);
        var x :| x in events && x.NewCall? && SentBy(x, s.calls[n].request);
      }
    case NotificationSent(k) =>
      if k < |s.notifying| {
        assert s.notifying[k] in s.notifying;
      }
    case _ =>
  }

  lemma StepFrom(s: State, e: Event, events: seq<Event>)
    requires AllFrom(s, events) && e in events && (s.channel.transmit.Finished? ==> s.channel.queue == [])
    ensures AllFrom(Step(s, e), events)
  {
    forall i | 0 <= i < |Step(s, e).calls| ensures Made(events, Step(s, e).calls[i]) {
      CallsFrom(s, e, events, i);
    }
    NotifyingFrom(s, e, events);
    AcceptedFrom(s, e, events);
    OutboundStep(s, e);
    forall m | m in Outgoing(Step(s, e)) ensures Asked(events, m) {
      assert m in Outgoing(s) + Accepted(s, e);
    }
  }

  lemma {:induction false} RunFrom(s: State, es: seq<Event>, events: seq<Event>)
    requires Inv(s) && AllFrom(s, events) && forall e | e in es :: e in events
    ensures AllFrom(Run(s, es), events)
    decreases es
  {
    if es != [] {
      StepKeeps(s, es[0]);
      StepFrom(s, es[0], events);
      assert forall e | e in es[1..] :: e in es;
      RunFrom(Step(s, es[0]), es[1..], events);
    }
  }

  /** Over runs: whatever goes out is the request or notification of a call or
      notification somebody made, name, params and id; and every call is such a call. */
  lemma WhatGoesOut(es: seq<Event>)
    ensures forall m | m in Outgoing(Run(INIT, es)) :: Asked(es, m)
    ensures forall i | 0 <= i < |Run(INIT, es).calls| :: Made(es, Run(INIT, es).calls[i])
  {
    InitOk();
    assert Outgoing(INIT) == [];
    RunFrom(INIT, es, es);
  }

  // ---- What a call ends with -----------------------------------------------------------

  predicate Open(c: Call) {
    c.progress.Waiting? || c.progress.Filled? || c.progress.Cut?
  }

  /** The event that resolves call n in this way: its own timeout, or a poll that finds
      the answer or the cut oneshot. */
  predicate ResolvesAs(s: State, e: Event, n: nat, o: Outcome)
    requires n < |s.calls|
  {
    && s.calls[n].sent
    && match o
       case TimedOut => e == TimeOut(n) && s.calls[n].timed && Open(s.calls[n])
       case Answered(response) => e == PollCall(n) && s.calls[n].progress == Filled(response)
       case Lost => e == PollCall(n) && s.calls[n].progress == Cut
  }

  lemma StepResolves(s: State, e: Event, n: nat, o: Outcome)
    requires n < |s.calls|
    ensures n < |Step(s, e).calls|
    ensures Step(s, e).calls[n].progress == Done(o) <==> s.calls[n].progress == Done(o) || ResolvesAs(s, e, n, o)
  {
    if CallEvent(e) {
      CallStepResolves(s, e, n, o);
    } else if e.EndOfInput? || e.TransmitEnd? {
      ClearingCuts(s, e, n);
    } else {
      OthersKeepCalls(s, e);
    }
  }

  lemma CallStepResolves(s: State, e: Event, n: nat, o: Outcome)
    requires n < |s.calls| && CallEvent(e)
    ensures n < |CallStep(s, e).calls|
    ensures CallStep(s, e).calls[n].progress == Done(o)
            <==> s.calls[n].progress == Done(o) || ResolvesAs(s, e, n, o)
  {
    match o
    case TimedOut => TimesOut(s, e, n);
    case Answered(response) => IsAnswered(s, e, n, response);
    case Lost => IsLost(s, e, n);
  }

  lemma TimesOut(s: State, e: Event, n: nat)
    requires n < |s.calls| && CallEvent(e)
    ensures n < |CallStep(s, e).calls|
    ensures CallStep(s, e).calls[n].progress == Done(TimedOut)
            <==> s.calls[n].progress == Done(TimedOut)
                 || (e == TimeOut(n) && s.calls[n].sent && s.calls[n].timed && Open(s.calls[n]))
  {
  }

  lemma IsAnswered(s: State, e: Event, n: nat, response: Response)
    requires n < |s.calls| && CallEvent(e)
    ensures n < |CallStep(s, e).calls|
    ensures CallStep(s, e).calls[n].progress == Done(Answered(response))
            <==> s.calls[n].progress == Done(Answered(response))
                 || (e == PollCall(n) && s.calls[n].sent && s.calls[n].progress == Filled(response))
  {
  }

  lemma IsLost(s: State, e: Event, n: nat)
    requires n < |s.calls| && CallEvent(e)
    ensures n < |CallStep(s, e).calls|
    ensures CallStep(s, e).calls[n].progress == Done(Lost)
            <==> s.calls[n].progress == Done(Lost)
                 || (e == PollCall(n) && s.calls[n].sent && s.calls[n].progress == Cut)
  {
  }

  /** Over runs: a call that is not resolved ends with an outcome exactly by an event that
      resolves it in this way. */
  lemma {:induction false} ResolvedExactly(s: State, es: seq<Event>, n: nat, o: Outcome)
    requires n < |s.calls| && !s.calls[n].progress.Done?
    ensures n < |Run(s, es).calls|
    ensures Run(s, es).calls[n].progress == Done(o) <==> ResolvedDuring(s, es, n, o)
    decreases es
  {
    if es != [] {
      var t := Step(s, es[0]);
      StepResolves(s, es[0], n, o);
      OneStepIsFinal(s, es[0], n);
      if t.calls[n].progress.Done? {
        var p := t.calls[n].progress.outcome;
        StepResolves(s, es[0], n, p);
        OutcomeIsFinal(t, es[1..], n);
        NotResolvedAgain(t, es[1..], n, o);
      } else {
        ResolvedExactly(t, es[1..], n, o);
      }
    }
  }

  predicate ResolvedDuring(s: State, es: seq<Event>, n: nat, o: Outcome)
    requires n < |s.calls|
    decreases es
  {
    es != []
    && (ResolvesAs(s, es[0], n, o)
        || (n < |Step(s, es[0]).calls| && ResolvedDuring(Step(s, es[0]), es[1..], n, o)))
  }

  lemma {:induction false} NotResolvedAgain(s: State, es: seq<Event>, n: nat, o: Outcome)
    requires n < |s.calls| && s.calls[n].progress.Done?
    ensures !ResolvedDuring(s, es, n, o)
    decreases es
  {
    if es != [] {
      OneStepIsFinal(s, es[0], n);
      NotResolvedAgain(Step(s, es[0]), es[1..], n, o);
    }
  }

  /** The answer a call gets is the first response under its id while it waits, and it
      is cut when the map is cleared while it waits. */
  lemma Fills(s: State, e: Event, n: nat, response: Response)
    requires Inv(s) && n < |s.calls| && s.calls[n].progress.Waiting?
    ensures n < |Step(s, e).calls|
    ensures Step(s, e).calls[n].progress == Filled(response)
            <==> e == Respond(response) && response.id == Str(s.calls[n].id)
    ensures Step(s, e).calls[n].progress == Cut
            <==> e.EndOfInput? || (e.TransmitEnd? && s.channel.transmit.Running?)
  {
    OneStepIsFinal(s, e, n);
    match e
    case Respond(r) => ResponseReachesOne(s, r, n);
    case EndOfInput => ClearEndsWaiting(s, e, n); ClearingCuts(s, e, n);
    case TransmitEnd(_) =>
      ClearingCuts(s, e, n);
      if s.channel.transmit.Running? {
        ClearEndsWaiting(s, e, n);
      }
    case _ => OnlyThenFills(s, e, n);
  }

  lemma OnlyThenFills(s: State, e: Event, n: nat)
    requires n < |s.calls| && s.calls[n].progress.Waiting? && !e.Respond? && !e.EndOfInput? && !e.TransmitEnd?
    ensures n < |Step(s, e).calls| && !Step(s, e).calls[n].progress.Filled? && !Step(s, e).calls[n].progress.Cut?
  {
    if CallEvent(e) {
      assert Step(s, e) == CallStep(s, e);
    } else {
      OthersKeepCalls(s, e);
    }
  }

  /** Nothing but resolving or dropping ends it once it is filled or cut. */
  lemma StaysUntilPolled(s: State, e: Event, n: nat)
    requires n < |s.calls| && (s.calls[n].progress.Filled? || s.calls[n].progress.Cut?)
    ensures n < |Step(s, e).calls|
    ensures Step(s, e).calls[n].progress == s.calls[n].progress
            || Step(s, e).calls[n].progress.Done? || Step(s, e).calls[n].progress.Dropped?
    ensures Step(s, e).calls[n].progress.Dropped?
            <==> if s.calls[n].sent then e == DropCall(n) else e == CallSendGone(n)
  {
    if CallEvent(e) {
      assert Step(s, e) == CallStep(s, e);
    } else if e.EndOfInput? || e.TransmitEnd? {
      ClearingCuts(s, e, n);
    } else {
      OthersKeepCalls(s, e);
    }
  }

  // ---- The id map ----------------------------------------------------------------------

  /** A call whose id is in the map waits, or its future was dropped meanwhile: whoever is
      answered, cut or resolved, by its timeout too, is in the map no longer. */
  predicate MapHoldsWaiting(s: State) {
    forall i | 0 <= i < |s.calls| && s.calls[i].id in s.idmap ::
      s.calls[i].progress.Waiting? || s.calls[i].progress.Dropped?
  }

  lemma MapStep(s: State, e: Event, i: nat)
    requires Inv(s) && MapHoldsWaiting(s) && i < |Step(s, e).calls| && Step(s, e).calls[i].id in Step(s, e).idmap
    ensures Step(s, e).calls[i].progress.Waiting? || Step(s, e).calls[i].progress.Dropped?
  {
    if e.Respond? {
      MapRespond(s, e.response, i);
    } else if CallEvent(e) {
      MapCallStep(s, e, i);
    } else if e.EndOfInput? || e.TransmitEnd? {
      MapCleared(s, e, i);
    } else {
      OthersKeepCalls(s, e);
      OthersKeepMap(s, e);
    }
  }

  lemma MapRespond(s: State, response: Response, i: nat)
    requires Inv(s) && MapHoldsWaiting(s) && i < |s.calls|
    requires s.calls[i].id in RespondStep(s, response).idmap
    ensures |RespondStep(s, response).calls| == |s.calls|
    ensures RespondStep(s, response).calls[i].progress.Waiting? || RespondStep(s, response).calls[i].progress.Dropped?
  {
    ResponseReachesOne(s, response, i);
    assert s.calls[i].id in s.idmap;
  }

  lemma MapCallStep(s: State, e: Event, i: nat)
    requires Inv(s) && MapHoldsWaiting(s) && CallEvent(e) && !e.Respond?
    requires i < |CallStep(s, e).calls| && CallStep(s, e).calls[i].id in CallStep(s, e).idmap
    ensures CallStep(s, e).calls[i].progress.Waiting? || CallStep(s, e).calls[i].progress.Dropped?
  {
    if i < |s.calls| {
      CallKept(s, e, i);
      assert Step(s, e) == CallStep(s, e);
      if e.NewCall? {
        assert CallStep(s, e).calls[i] == s.calls[i];
      } else {
        LeavesMap(s, e, i);
      }
    }
  }

  /** A call in the map is not resolved but by its own timeout, which takes it out. */
  lemma LeavesMap(s: State, e: Event, i: nat)
    requires CallEvent(e) && !e.Respond? && !e.NewCall? && i < |s.calls|
    ensures |CallStep(s, e).calls| == |s.calls| && CallStep(s, e).idmap.Keys <= s.idmap.Keys
    ensures (s.calls[i].progress.Waiting? || s.calls[i].progress.Dropped?) && s.calls[i].id in CallStep(s, e).idmap
            ==> CallStep(s, e).calls[i].progress.Waiting? || CallStep(s, e).calls[i].progress.Dropped?
  {
  }

  lemma MapCleared(s: State, e: Event, i: nat)
    requires (e.EndOfInput? || e.TransmitEnd?) && MapHoldsWaiting(s)
    requires i < |Step(s, e).calls| && Step(s, e).calls[i].id in Step(s, e).idmap
    ensures Step(s, e) == s
  {
    assert Step(s, e) == ControlStep(s, e);
  }

  lemma OthersKeepMap(s: State, e: Event)
    requires !CallEvent(e) && !e.EndOfInput? && !e.TransmitEnd?
    ensures Step(s, e).idmap == s.idmap
  {
    if ClientEvent(e) {
      assert Step(s, e) == ClientStep(s, e);
    }
  }

  lemma {:induction false} MapRun(s: State, es: seq<Event>)
    requires Inv(s) && MapHoldsWaiting(s)
    ensures MapHoldsWaiting(Run(s, es))
    decreases es
  {
    if es != [] {
      var t := Step(s, es[0]);
      StepKeeps(s, es[0]);
      forall i | 0 <= i < |t.calls| && t.calls[i].id in t.idmap
        ensures t.calls[i].progress.Waiting? || t.calls[i].progress.Dropped?
      {
        MapStep(s, es[0], i);
      }
      MapRun(t, es[1..]);
    }
  }

  /** Dropping a call, sent or not, gives up its references but leaves its id in the map. */
  lemma DroppedStaysMapped(s: State, n: nat)
    requires n < |s.calls| && Open(s.calls[n])
    ensures s.calls[n].sent ==>
              var t := Step(s, DropCall(n));
              t == s.(calls := s.calls[n := s.calls[n].(progress := Dropped)], handles := t.handles)
              && t.handles.strong == s.handles.strong - 1 && t.handles.senders == s.handles.senders
    ensures !s.calls[n].sent ==>
              var t := Step(s, CallSendGone(n));
              t == s.(calls := s.calls[n := s.calls[n].(progress := Dropped)], handles := t.handles)
              && t.handles.strong == s.handles.strong - 2 && t.handles.senders == s.handles.senders - 1
  {
    assert Step(s, DropCall(n)) == CallStep(s, DropCall(n));
    assert Step(s, CallSendGone(n)) == CallStep(s, CallSendGone(n));
  }

  /** Over runs: the map holds the id of every call that waits, and of no call that was
      answered, cut or resolved. */
  lemma MapIsOfWaiting(es: seq<Event>, n: nat)
    requires n < |Run(INIT, es).calls|
    ensures var s := Run(INIT, es);
            var p := s.calls[n].progress;
            && (p.Waiting? ==> s.calls[n].id in s.idmap)
            && (p.Filled? || p.Cut? || p.Done? ==> s.calls[n].id !in s.idmap)
  {
    InitOk();
    MapRun(INIT, es);
    NoHangingCall(es, n);
  }
}
