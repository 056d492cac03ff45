// The control and the outbound queue over whole runs of the life cycle.
module LifeRuns {
  import opened Message
  import opened Life

  // ---- The control -------------------------------------------------------

  lemma StopStep(s: State, e: Event)
    ensures Step(s, e).control.stop <==> s.control.stop || Stops(e)
  {
    if CallEvent(e) {
      assert CallStep(s, e).control.stop == s.control.stop;
    } else if ClientEvent(e) {
      assert ClientStep(s, e).control.stop == s.control.stop;
    }
  }

  /** `stop` is set exactly by a terminate, a kill or the end of input, for good. */
  lemma {:induction false} StopHistory(s: State, es: seq<Event>)
    ensures Run(s, es).control.stop <==> s.control.stop || exists e | e in es :: Stops(e)
    decreases es
  {
    if es != [] {
      StopStep(s, es[0]);
      StopHistory(Step(s, es[0]), es[1..]);
      assert es == [es[0]] + es[1..];
    }
  }

  lemma HandlesStep(s: State, e: Event)
    ensures Step(s, e).control.terminator <==> s.control.terminator && e != Terminate && e != EndOfInput
    ensures Step(s, e).control.killer <==> s.control.killer && e != Kill
    ensures Step(s, e).killed <==> s.killed || (s.control.killer && e == Kill)
  {
    if CallEvent(e) {
      CallsKeepControl(s, e);
    } else if ClientEvent(e) {
      ClientsKeepControl(s, e);
    } else {
      assert Step(s, e) == ControlStep(s, e);
    }
  }

  lemma CallsKeepControl(s: State, e: Event)
    requires CallEvent(e)
    ensures Step(s, e).control == s.control && Step(s, e).killed == s.killed
  {
    assert Step(s, e) == CallStep(s, e);
  }

  lemma ClientsKeepControl(s: State, e: Event)
    requires ClientEvent(e)
    ensures Step(s, e).control == s.control && Step(s, e).killed == s.killed
  {
    assert Step(s, e) == ClientStep(s, e);
  }

  /** The control lets its terminator reference go exactly by a terminate or at the end of
      input, and sends the kill signal exactly by a kill. */
  lemma {:induction false} HandlesHistory(s: State, es: seq<Event>)
    requires s.killed <==> !s.control.killer
    ensures Run(s, es).control.terminator <==> s.control.terminator && Terminate !in es && EndOfInput !in es
    ensures Run(s, es).killed <==> s.killed || Kill in es
    ensures Run(s, es).killed <==> !Run(s, es).control.killer
    decreases es
  {
    if es != [] {
      HandlesStep(s, es[0]);
      HandlesHistory(Step(s, es[0]), es[1..]);
      assert es == [es[0]] + es[1..];
    }
  }

  /** The control over all runs: the queue sender is gone exactly when stopped, a
      missing terminator or killer implies stopped, `client()` succeeds exactly if no
      terminate, kill or end of input has ever run, and each of them leaves its mark. */
  lemma ControlHistory(es: seq<Event>)
    ensures var s := Run(INIT, es);
            && (s.control.stop <==> !s.control.sender)
            && (!s.control.terminator ==> s.control.stop) && (!s.control.killer ==> s.control.stop)
            && (ClientSucceeds(s) <==> Terminate !in es && Kill !in es && EndOfInput !in es)
            && (s.control.terminator <==> Terminate !in es && EndOfInput !in es)
            && (s.killed <==> Kill in es) && (s.control.killer <==> Kill !in es)
  {
    InitOk();
    RunKeeps(INIT, es);
    StopHistory(INIT, es);
    HandlesHistory(INIT, es);
    ClientNeedsBoth(Run(INIT, es));
  }

  lemma ClientNeedsBoth(s: State)
    ensures ClientSucceeds(s) <==> s.control.terminator && s.control.sender
  {
  }

  /** In particular losing the connection to a sink error does not make `client()`
      fail, unlike what its documentation says. */
  lemma ClientAfterSinkError()
    ensures var s := Run(INIT, [TransmitEnd(false)]); s.channel.transmit == Finished(false) && ClientSucceeds(s)
  {
    assert Run(INIT, [TransmitEnd(false)]) == Run(Step(INIT, TransmitEnd(false)), []);
  }

  // ---- What can happen ---------------------------------------------------------

  /** What an event needs: a client, a call in the right condition, room in the queue. */
  predicate Possible(s: State, e: Event) {
    match e
    case NewCall(id, _, _, _) => s.clients > 0 && id !in s.idmap && forall c | c in s.calls :: c.id != id
    case TimerFailed => s.clients > 0
    case CallSent(n) =>
      n < |s.calls| && !s.calls[n].sent && Live(s.calls[n].progress)
      && s.channel.transmit.Running? && |s.channel.queue| < 32
    case CallSendGone(n) => n < |s.calls| && !s.calls[n].sent && Live(s.calls[n].progress)
    case NewNotification(_, _) => s.clients > 0
    case NotificationSent(k) => k < |s.notifying| && s.channel.transmit.Running? && |s.channel.queue| < 32
    case NotificationGone(k) => k < |s.notifying|
    case CloneClient => s.clients > 0
    case DropClient => s.clients > 0
    case MakeClient => s.control.terminator && s.control.sender
    case PollCall(n) => n < |s.calls| && s.calls[n].sent && (s.calls[n].progress.Filled? || s.calls[n].progress.Cut?)
    case TimeOut(n) => n < |s.calls| && s.calls[n].sent && s.calls[n].timed && Live(s.calls[n].progress)
    case DropCall(n) => n < |s.calls| && s.calls[n].sent && Live(s.calls[n].progress)
    case Respond(response) => response.id.Str? && response.id.s in s.idmap
    case TakeQueued => s.channel.transmit.Running? && s.channel.queue != []
    case TransmitEnd(_) => s.channel.transmit.Running?
    case _ => true
  }

  /** Events change nothing where they are not possible, and otherwise, but for stopping
      again what is stopped, they change something. */
  lemma PossibleExactly(s: State, e: Event)
    requires !Stops(e)
    ensures Possible(s, e) <==> Step(s, e) != s
  {
    if CallEvent(e) {
      PossibleCall(s, e);
    } else if ClientEvent(e) {
      PossibleClient(s, e);
    } else {
      assert Step(s, e) == ControlStep(s, e);
      if s.channel.queue != [] {
        assert |s.channel.queue[1..]| < |s.channel.queue|;
      }
    }
  }

  lemma PossibleClient(s: State, e: Event)
    requires ClientEvent(e)
    ensures Possible(s, e) <==> Step(s, e) != s
  {
    assert Step(s, e) == ClientStep(s, e);
  }

  lemma PossibleCall(s: State, e: Event)
    requires CallEvent(e)
    ensures Possible(s, e) <==> Step(s, e) != s
  {
    match e
    case NewCall(_, _, _, _) => PossibleNewCall(s, e);
    case Respond(response) => PossibleRespond(s, response);
    case _ => PossibleOnCall(s, e);
  }

  lemma PossibleNewCall(s: State, e: Event)
    requires e.NewCall?
    ensures Possible(s, e) <==> Step(s, e) != s
  {
    assert Step(s, e) == CallStep(s, e);
    assert forall i | 0 <= i < |s.calls| :: s.calls[i] in s.calls;
    assert |Step(s, e).calls| == |s.calls| + 1 || Step(s, e) == s;
  }

  lemma PossibleRespond(s: State, response: Response)
    ensures Possible(s, Respond(response)) <==> Step(s, Respond(response)) != s
  {
    assert Step(s, Respond(response)) == RespondStep(s, response);
    assert Possible(s, Respond(response)) ==> response.id.s !in RespondStep(s, response).idmap;
  }

  lemma PossibleOnCall(s: State, e: Event)
    requires CallEvent(e) && !e.NewCall? && !e.Respond?
    ensures Possible(s, e) <==> Step(s, e) != s
  {
    assert Step(s, e) == CallStep(s, e);
    if Possible(s, e) {
      assert CallStep(s, e).calls[e.n] != s.calls[e.n];
    }
  }

  /** The transmission ends once, with what ended it. */
  lemma TransmitStep(s: State, e: Event)
    ensures Step(s, e).channel.transmit
         == if s.channel.transmit.Running? && e.TransmitEnd? then Finished(e.ok) else s.channel.transmit
  {
    if CallEvent(e) {
      assert Step(s, e) == CallStep(s, e);
    } else if ClientEvent(e) {
      assert Step(s, e) == ClientStep(s, e);
    }
  }

  // ---- The outbound queue ------------------------------------------------

  /** What was written and what is still to be. */
  function Outgoing(s: State): seq<Message> {
    s.channel.written + s.channel.queue
  }

  /** The message an event puts into the outbound queue. */
  function Accepted(s: State, e: Event): seq<Message> {
    match e
    case CallSent(n) => if Sending(s, n) && CanSend(s.channel) then [s.calls[n].request] else []
    case NotificationSent(k) => if k < |s.notifying| && CanSend(s.channel) then [s.notifying[k]] else []
    case _ => []
  }

  function AllAccepted(s: State, es: seq<Event>): seq<Message>
    decreases es
  {
    if es == [] then [] else Accepted(s, es[0]) + AllAccepted(Step(s, es[0]), es[1..])
  }

  /** Nothing accepted is lost, repeated or reordered while the transmit side runs;
      when it ends, what was written is a prefix of what was accepted. */
  lemma {:induction false} OutboundInOrder(s: State, es: seq<Event>)
    requires s.channel.transmit.Finished? ==> s.channel.queue == []
    ensures Run(s, es).channel.transmit.Running? ==> Outgoing(Run(s, es)) == Outgoing(s) + AllAccepted(s, es)
    ensures Run(s, es).channel.written <= Outgoing(s) + AllAccepted(s, es)
    decreases es
  {
    if es == [] {
      assert Outgoing(s) + [] == Outgoing(s);
    } else {
      var t := Step(s, es[0]);
      OutboundStep(s, es[0]);
      OutboundInOrder(t, es[1..]);
      if t.channel.transmit.Finished? {
        FinishedAcceptsNothing(t, es[1..]);
      }
      Chained(Run(s, es), t, Outgoing(s), Accepted(s, es[0]), AllAccepted(t, es[1..]));
    }
  }

  lemma Chained(last: State, t: State, before: seq<Message>, now: seq<Message>, later: seq<Message>)
    requires Outgoing(t) <= before + now && last.channel.written <= Outgoing(t) + later
    requires t.channel.transmit.Running? ==> Outgoing(t) == before + now
    requires t.channel.transmit.Finished? ==> later == [] && last.channel.transmit.Finished?
    requires last.channel.transmit.Running? ==> Outgoing(last) == Outgoing(t) + later
    ensures last.channel.transmit.Running? ==> Outgoing(last) == before + (now + later)
    ensures last.channel.written <= before + (now + later)
  {
    assert before + now + later == before + (now + later);
  }

  lemma {:induction false} FinishedAcceptsNothing(s: State, es: seq<Event>)
    requires s.channel.transmit.Finished? && s.channel.queue == []
    ensures AllAccepted(s, es) == [] && Run(s, es).channel.transmit.Finished?
    decreases es
  {
    if es != [] {
      OutboundStep(s, es[0]);
      FinishedAcceptsNothing(Step(s, es[0]), es[1..]);
    }
  }

  lemma OutboundStep(s: State, e: Event)
    requires s.channel.transmit.Finished? ==> s.channel.queue == []
    ensures var t := Step(s, e);
            && Outgoing(t) <= Outgoing(s) + Accepted(s, e)
            && (t.channel.transmit.Running? ==>
                  s.channel.transmit.Running? && Outgoing(t) == Outgoing(s) + Accepted(s, e))
            && (t.channel.transmit.Finished? ==> Accepted(s, e) == [] && t.channel.queue == [])
  {
    if CallEvent(e) || ClientEvent(e) {
      AcceptedStep(s, e);
      assert s.channel.written + (s.channel.queue + Accepted(s, e)) == Outgoing(s) + Accepted(s, e);
    } else {
      ControlOutbound(s, e);
    }
  }

  lemma ControlOutbound(s: State, e: Event)
    requires !CallEvent(e) && !ClientEvent(e) && (s.channel.transmit.Finished? ==> s.channel.queue == [])
    ensures var t := Step(s, e);
            && Outgoing(t) <= Outgoing(s) + []
            && (t.channel.transmit.Running? ==> s.channel.transmit.Running? && Outgoing(t) == Outgoing(s) + [])
            && (t.channel.transmit.Finished? ==> t.channel.queue == [])
  {
    var q := s.channel.queue;
    assert q != [] ==> q == [q[0]] + q[1..];
    assert s.channel.written + [] == s.channel.written;
    assert !e.TakeQueued? && !e.TransmitEnd? ==> ControlStep(s, e).channel == s.channel;
  }

  lemma AcceptedStep(s: State, e: Event)
    requires CallEvent(e) || ClientEvent(e)
    ensures Step(s, e).channel == s.channel.(queue := s.channel.queue + Accepted(s, e))
    ensures s.channel.transmit.Finished? ==> Accepted(s, e) == []
  {
    if CallEvent(e) {
      assert Step(s, e) == CallStep(s, e);
    } else {
      assert Step(s, e) == ClientStep(s, e);
    }
  }
}
