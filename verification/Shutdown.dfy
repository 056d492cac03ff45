// Shutting down under every schedule: users go on acting and messages go on coming in
// while the endpoint closes.
module Shutdown {
  import opened Message
  import opened Dispatch
  import opened Endpoint
  import X = Executor
  import L = Life
  import LR = LifeRuns

  function OwnMade(s: State, e: Event): nat {
    if OwnStep(e) && Enabled(s, e) then 1 else 0
  }

  /** How many steps of its own the endpoint made. */
  function OwnDone(srv: Server, s: State, es: seq<Event>): nat
    decreases es
  {
    if es == [] then 0
    else OwnMade(s, es[0]) + OwnDone(srv, Step(srv, s, es[0]), es[1..])
  }

  /** Neither killed nor broken. */
  predicate Unharmed(es: seq<Event>) {
    forall e | e in es :: !e.Killed? && !e.Failed?
  }

  /** The transmission ended well, with all of these client messages written. */
  predicate Done(srv: Server, s: State, messages: seq<Message>) {
    s.life.channel.transmit == L.Finished(true) && AllOut(srv, s) && s.life.channel.written == messages
  }

  // ---- While it closes -------------------------------------------------------------

  lemma QueueKept(srv: Server, s: State, e: Event)
    requires Inv(srv, s) && Closing(s) && !e.Killed? && !e.Failed?
    ensures LR.Outgoing(Step(srv, s, e).life) == LR.Outgoing(s.life)
  {
    if Enabled(s, e) {
      if OwnStep(e) {
        OwnStepKeepsQueue(srv, s, e);
      } else {
        OtherStepKeepsQueue(srv, s, e);
      }
    }
  }

  lemma OtherStepKeepsQueue(srv: Server, s: State, e: Event)
    requires Inv(srv, s) && Closing(s) && Enabled(s, e) && (e.User? || e.Inbound? || e.EndOfInput?)
    ensures Step(srv, s, e).life.channel == s.life.channel
  {
    match e
    case User(act) => ActWhileClosing(s.life, act);
    case Inbound(parsed) => InboundKeepsChannel(srv, s, parsed);
    case EndOfInput => EndOfInputKeepsWire(s.life);
  }

  lemma ParallelKept(srv: Server, s: State, e: Event)
    ensures Step(srv, s, e).exec.parallel == s.exec.parallel
  {
  }

  /** Unless this step ended it, the endpoint is still closing. */
  lemma StepOfShutdown(srv: Server, s: State, e: Event)
    requires Inv(srv, s) && Closing(s) && !e.Killed? && !e.Failed?
    ensures var t := Step(srv, s, e);
            && Inv(srv, t) && t.exec.parallel == s.exec.parallel
            && OwnMade(s, e) + ToDo(t) <= ToDo(s)
            && (if Running(t) then Closing(t) && LR.Outgoing(t.life) == LR.Outgoing(s.life)
                else Done(srv, t, LR.Outgoing(s.life)))
            && (!Running(t) ==> e.AllSent? && t.exec == s.exec && t.life.control == s.life.control)
  {
    StepKeeps(srv, s, e);
    ParallelKept(srv, s, e);
    if !Enabled(s, e) {
      assert Step(srv, s, e) == s;
    } else if e.AllSent? {
      AllSentIsDone(srv, s);
    } else if OwnStep(e) {
      OwnStepsDecrease(srv, s, e);
      QueueKept(srv, s, e);
    } else {
      OthersDoNotDelay(srv, s, e);
      OtherStepKeepsQueue(srv, s, e);
    }
  }

  lemma AllSentIsDone(srv: Server, s: State)
    requires Inv(srv, s) && Closing(s) && Enabled(s, AllSent)
    ensures var t := Step(srv, s, AllSent);
            && ToDo(t) < ToDo(s) && !Running(t) && Done(srv, t, LR.Outgoing(s.life))
            && t.exec == s.exec && t.life.control == s.life.control
  {
    AllSentMeansAll(srv, s);
    AllSentEnds(srv, s);
    EndKeepsControl(s.life, true);
    assert s.life.channel.written + [] == s.life.channel.written;
  }

  // ---- Afterwards ------------------------------------------------------------------

  /** Once it is over nothing is taken, answered or written any more. */
  lemma {:induction false} OverIsOver(srv: Server, s: State, es: seq<Event>)
    requires !Running(s) && s.life.control.stop && s.exec.ctx.stop
    ensures var t := Run(srv, s, es);
            && t.exec == s.exec && t.wire == s.wire
            && t.life.channel.written == s.life.channel.written && t.life.channel.transmit == s.life.channel.transmit
            && OwnDone(srv, s, es) == 0
    decreases es
  {
    if es != [] {
      if es[0].User? {
        ActKeepsWire(s.life, es[0].act);
        LR.StopStep(s.life, es[0].act);
      }
      OverIsOver(srv, Step(srv, s, es[0]), es[1..]);
    }
  }

  // ---- Main result -----------------------------------------------------------------

  /** t comes from closing with this much to do and these client messages to write. */
  predicate ShutsDown(srv: Server, t: State, done: nat, toDo: nat, messages: seq<Message>) {
    && done <= toDo
    && (Running(t) ==> Closing(t) && done + ToDo(t) <= toDo)
    && (Running(t) ==> Enabled(t, NextOwn(t)) && OwnStep(NextOwn(t)))
    && (!Running(t) ==> Done(srv, t, messages))
  }

  lemma EndsShutdown(srv: Server, s: State, e: Event, es: seq<Event>)
    requires Inv(srv, s) && Closing(s) && !e.Killed? && !e.Failed? && !Running(Step(srv, s, e))
    ensures var t := Step(srv, s, e);
            ShutsDown(srv, Run(srv, t, es), OwnMade(s, e) + OwnDone(srv, t, es), ToDo(s), LR.Outgoing(s.life))
  {
    var t := Step(srv, s, e);
    StepOfShutdown(srv, s, e);
    ClosingHasStopped(srv, s);
    OverIsOver(srv, t, es);
  }

  lemma ClosingHasStopped(srv: Server, s: State)
    requires Inv(srv, s) && Closing(s)
    ensures s.life.control.stop && s.exec.ctx.stop
  {
    NobodySends(s.life);
  }

  /** From a closing state with a slot, unless it is killed or breaks, every schedule
      shuts the endpoint down well, whatever users do and whatever still comes in: it
      makes at most `ToDo` steps of its own; as long as it runs it has one to make; and
      when it does not, every answer and every queued message is on the wire. */
  lemma {:induction false} EveryScheduleShutsDown(srv: Server, s: State, es: seq<Event>)
    requires Inv(srv, s) && Closing(s) && s.exec.parallel > 0 && Unharmed(es)
    ensures ShutsDown(srv, Run(srv, s, es), OwnDone(srv, s, es), ToDo(s), LR.Outgoing(s.life))
    decreases es
  {
    if es == [] {
      ClosingProgresses(srv, s);
    } else {
      var t := Step(srv, s, es[0]);
      StepOfShutdown(srv, s, es[0]);
      if Running(t) {
        EveryScheduleShutsDown(srv, t, es[1..]);
      } else {
        EndsShutdown(srv, s, es[0], es[1..]);
      }
    }
  }
}
