// Calls once the input is over: the end of the input clears the id map and the
// control lets go, but a client that is still held can go on calling.
module AfterInput {
  import opened Wrappers
  import opened Message
  import opened Dispatch
  import opened Endpoint
  import X = Executor
  import L = Life
  import EndToEnd

  lemma StepAfterEnd(srv: Server, s: State, e: Event, n: nat)
    requires s.exec.ended
    ensures Step(srv, s, e).exec.ended
    ensures n < |Step(srv, s, e).life.calls| && L.HasAnswer(Step(srv, s, e).life.calls[n])
            ==> n < |s.life.calls| && L.HasAnswer(s.life.calls[n])
  {
    if Enabled(s, e) && n < |Step(srv, s, e).life.calls| && L.HasAnswer(Step(srv, s, e).life.calls[n]) {
      match e
      case User(act) => L.AnswersAreResponses(s.life, act, n);
      case TakeQueued => L.AnswersAreResponses(s.life, L.TakeQueued, n);
      case AllSent => L.AnswersAreResponses(s.life, L.TransmitEnd(true), n);
      case Killed => L.AnswersAreResponses(s.life, L.TransmitEnd(true), n);
      case Failed => L.AnswersAreResponses(s.life, L.TransmitEnd(false), n);
      case _ =>
    }
  }

  /** After the end of the input no call ever gets an answer, neither one made before
      nor one made later. */
  lemma {:induction false} NoAnswerAfterEnd(srv: Server, s: State, es: seq<Event>, n: nat)
    requires s.exec.ended && n < |Run(srv, s, es).life.calls| && L.HasAnswer(Run(srv, s, es).life.calls[n])
    ensures n < |s.life.calls| && L.HasAnswer(s.life.calls[n])
    decreases es
  {
    if es != [] {
      StepAfterEnd(srv, s, es[0], n);
      NoAnswerAfterEnd(srv, Step(srv, s, es[0]), es[1..], n);
    }
  }

  /** The call's own timeout, its own drop, or the end of the transmission. */
  predicate EndsWait(s: State, e: Event, n: nat)
    requires n < |s.life.calls|
  {
    match e
    case User(act) =>
      (match act
       case TimeOut(m) => m == n && s.life.calls[n].sent && s.life.calls[n].timed
       case DropCall(m) => m == n && s.life.calls[n].sent
       case CallSendGone(m) => m == n && !s.life.calls[n].sent
       case _ => false)
    case AllSent => Enabled(s, e)
    case Killed => Enabled(s, e)
    case Failed => Enabled(s, e)
    case _ => false
  }

  predicate EndedDuring(srv: Server, s: State, es: seq<Event>, n: nat)
    requires n < |s.life.calls|
    decreases es
  {
    es != []
    && (EndsWait(s, es[0], n)
        || (n < |Step(srv, s, es[0]).life.calls| && EndedDuring(srv, Step(srv, s, es[0]), es[1..], n)))
  }

  lemma ActWhileWaiting(srv: Server, s: State, act: Act, n: nat)
    requires L.Inv(s.life) && n < |s.life.calls| && s.life.calls[n].progress.Waiting?
    ensures n < |Step(srv, s, User(act)).life.calls|
    ensures Step(srv, s, User(act)).life.calls[n].progress.Waiting? <==> !EndsWait(s, User(act), n)
  {
    L.WaitsExactlyUntil(s.life, act, n);
    assert Step(srv, s, User(act)).life == L.Step(s.life, act);
    assert L.EndsWaiting(s.life, act, n) <==> EndsWait(s, User(act), n);
  }

  lemma EndWhileWaiting(life: L.State, ok: bool, n: nat)
    requires L.Inv(life) && n < |life.calls| && life.calls[n].progress.Waiting? && life.channel.transmit.Running?
    ensures n < |L.Step(life, L.TransmitEnd(ok)).calls| && !L.Step(life, L.TransmitEnd(ok)).calls[n].progress.Waiting?
  {
    L.WaitsExactlyUntil(life, L.TransmitEnd(ok), n);
  }

  /** Once the input is over, nothing but users and the end touches a call. */
  lemma OtherStepsKeepCalls(srv: Server, s: State, e: Event)
    requires s.exec.ended && !e.User? && !e.AllSent? && !e.Killed? && !e.Failed?
    ensures Step(srv, s, e).life.calls == s.life.calls
  {
  }

  lemma StepWhileWaiting(srv: Server, s: State, e: Event, n: nat)
    requires Inv(srv, s) && s.exec.ended && n < |s.life.calls| && s.life.calls[n].progress.Waiting?
    ensures n < |Step(srv, s, e).life.calls|
    ensures Step(srv, s, e).life.calls[n].progress.Waiting? <==> !EndsWait(s, e, n)
  {
    if e.User? {
      ActWhileWaiting(srv, s, e.act, n);
    } else if Enabled(s, e) && (e.AllSent? || e.Killed? || e.Failed?) {
      EndWhileWaiting(s.life, !e.Failed?, n);
    } else if Enabled(s, e) {
      OtherStepsKeepCalls(srv, s, e);
    }
  }

  lemma {:induction false} NotWaitingAgain(srv: Server, s: State, es: seq<Event>, n: nat)
    requires n < |s.life.calls| && !s.life.calls[n].progress.Waiting?
    ensures n < |Run(srv, s, es).life.calls| && !Run(srv, s, es).life.calls[n].progress.Waiting?
  {
    EndToEnd.RunIsLifeRun(srv, s, es);
    L.OutcomeIsFinal(s.life, EndToEnd.AllLifeEvents(srv, s, es), n);
  }

  /** A call that waits at or after the end of the input goes on waiting exactly until
      its own timeout, its own drop or the end of the transmission. */
  lemma {:induction false} WaitsUntilEnded(srv: Server, s: State, es: seq<Event>, n: nat)
    requires Inv(srv, s) && s.exec.ended && n < |s.life.calls| && s.life.calls[n].progress.Waiting?
    ensures n < |Run(srv, s, es).life.calls|
    ensures Run(srv, s, es).life.calls[n].progress.Waiting? <==> !EndedDuring(srv, s, es, n)
    decreases es
  {
    if es != [] {
      var t := Step(srv, s, es[0]);
      StepWhileWaiting(srv, s, es[0], n);
      if EndsWait(s, es[0], n) {
        NotWaitingAgain(srv, t, es[1..], n);
      } else {
        StepKeeps(srv, s, es[0]);
        StepAfterEnd(srv, s, es[0], n);
        WaitsUntilEnded(srv, t, es[1..], n);
      }
    }
  }

  /** A call made and sent after the end of the input. */
  function LateCall(id: string, name: string): seq<Event> {
    [EndOfInput, User(L.NewCall(id, name, None, false)), User(L.CallSent(0))]
  }

  lemma LateCallInLife(id: string, name: string)
    ensures var s := L.Step(L.Step(L.Step(L.INIT, L.EndOfInput), L.NewCall(id, name, None, false)), L.CallSent(0));
            L.HandedOut(s, 0) && s.calls[0].progress.Waiting? && s.handles.fired == 0
  {
    var s1 := L.Step(L.INIT, L.EndOfInput);
    assert s1.clients == 1 && s1.handles == L.Handles(1, 0, 1) && s1.channel == L.INIT.channel && s1.calls == [];
    var s2 := L.Step(s1, L.NewCall(id, name, None, false));
    assert L.Sending(s2, 0);
  }

  lemma {:induction false} LateCallWaits(srv: Server, parallel: nat, id: string, name: string)
    requires parallel > 0
    ensures var s := Run(srv, Init(parallel), LateCall(id, name));
            s.exec.ended && L.HandedOut(s.life, 0) && s.life.calls[0].progress.Waiting? && s.life.handles.fired == 0
  {
    var es := LateCall(id, name);
    var s1 := Step(srv, Init(parallel), es[0]);
    var s2 := Step(srv, s1, es[1]);
    var s := Step(srv, s2, es[2]);
    LateCallInLife(id, name);
    assert s.life == L.Step(L.Step(L.Step(L.INIT, L.EndOfInput), L.NewCall(id, name, None, false)), L.CallSent(0));
    assert Run(srv, s, []) == s;
    assert es[2..][1..] == [] && Run(srv, s2, es[2..]) == s;
    assert es[1..][1..] == es[2..] && Run(srv, s1, es[1..]) == s;
  }

  /** Such calls exist: clearing the map at the end of the input does not concern one
      made by a client that is still held.  It is sent, it keeps the terminator from
      firing, and it is never answered. */
  lemma {:induction false} CallAfterEndOfInput(srv: Server, parallel: nat, id: string, name: string, es: seq<Event>)
    requires parallel > 0
    ensures var s := Run(srv, Init(parallel), LateCall(id, name));
            var t := Run(srv, s, es);
            && s.exec.ended && L.HandedOut(s.life, 0) && s.life.calls[0].progress.Waiting? && s.life.handles.fired == 0
            && 0 < |t.life.calls| && !L.HasAnswer(t.life.calls[0])
            && (t.life.calls[0].progress.Waiting? <==> !EndedDuring(srv, s, es, 0))
  {
    var s := Run(srv, Init(parallel), LateCall(id, name));
    LateCallWaits(srv, parallel, id, name);
    Reachable(srv, parallel, LateCall(id, name));
    WaitsUntilEnded(srv, s, es, 0);
    if L.HasAnswer(Run(srv, s, es).life.calls[0]) {
      NoAnswerAfterEnd(srv, s, es, 0);
    }
  }
}
