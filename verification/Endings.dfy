// How a connection ends: the end of the input, a kill, an error, and what it tells.
module Endings {
  import opened Wrappers
  import opened Message
  import opened Futures
  import opened Dispatch
  import opened Endpoint
  import X = Executor
  import R = ExecutorRuns
  import L = Life
  import LR = LifeRuns

  /** What the end of the transmission tells: an error exactly if the input or the sink
      failed; the end of what there was to send, and a kill, are no error. */
  lemma EndTells(srv: Server, s: State, e: Event)
    requires Inv(srv, s) && Running(s)
    ensures var transmit := Step(srv, s, e).life.channel.transmit;
            && (transmit == L.Finished(false) <==> e.Failed?)
            && (transmit == L.Finished(true)
                <==> (e.Killed? && s.life.killed)
                     || (e.AllSent? && s.exec.ended && R.Quiet(s.exec)
                         && s.life.channel.queue == [] && s.life.handles.senders == 0))
  {
    if e.AllSent? || e.Killed? || e.Failed? {
      EndsAtOnce(s.life, !e.Failed?);
    } else {
      GoesOn(srv, s, e);
    }
  }

  lemma GoesOn(srv: Server, s: State, e: Event)
    requires Inv(srv, s) && Running(s) && !e.AllSent? && !e.Killed? && !e.Failed?
    ensures Running(Step(srv, s, e))
  {
    if Enabled(s, e) {
      match e
      case User(act) => ActKeepsWire(s.life, act);
      case Inbound(parsed) => ApplyFacts(s.life, NewEffects(s.exec.ctx, X.PullStep(srv, s.exec, parsed).ctx));
      case EndOfInput => EndOfInputKeepsWire(s.life);
      case _ =>
    }
  }

  /** A message is taken, stopped or not, exactly if the transmission runs, the inbound
      stream has not ended, a slot is free and nothing is left of the message before; and
      work goes on as long as the transmission runs. */
  lemma TakenExactly(s: State, parsed: Parsed, x: X.Event)
    ensures Enabled(s, Inbound(parsed))
            <==> s.life.channel.transmit.Running? && !s.exec.ended && |s.exec.inflight| < s.exec.parallel
                 && Flat(s.exec.stream) == []
    ensures Enabled(s, Progress(x))
            <==> s.life.channel.transmit.Running? && (x.Admit? || x.Drain? || x.Finish?) && X.Enabled(s.exec, x)
    ensures Enabled(s, TakeQueued) <==> s.life.channel.transmit.Running? && s.life.channel.queue != []
  {
    NextIsHead(s.exec.stream);
  }

  /** The inbound stream ends at the end of the input, or once the terminator has fired;
      either is seen when nothing is left of the message before and a slot is free. */
  lemma InboundEnds(srv: Server, s: State, e: Event)
    ensures Step(srv, s, e).exec.ended
            <==> s.exec.ended
                 || (Running(s) && |s.exec.inflight| < s.exec.parallel && Flat(s.exec.stream) == []
                     && (e.EndOfInput? || (e.Terminated? && s.life.handles.fired > 0)))
  {
    NextIsHead(s.exec.stream);
  }

  lemma ClearsLife(life: L.State, ok: bool)
    requires L.Inv(life) && life.channel.transmit.Running?
    ensures var t := L.Step(life, L.TransmitEnd(ok));
            t.idmap == map[] && forall n | 0 <= n < |t.calls| :: !t.calls[n].progress.Waiting?
  {
    L.ClearKeeps(life);
  }

  /** However the transmission ends, nothing that is still queued is sent any more, the
      id map is empty, and no call waits. */
  lemma EndClears(srv: Server, s: State, e: Event)
    requires Inv(srv, s) && Enabled(s, e) && (e.AllSent? || e.Killed? || e.Failed?)
    ensures var life := Step(srv, s, e).life;
            && life.idmap == map[] && life.channel.queue == [] && life.channel.written == s.life.channel.written
            && forall n | 0 <= n < |life.calls| :: !life.calls[n].progress.Waiting?
  {
    EndsAtOnce(s.life, !e.Failed?);
    ClearsLife(s.life, !e.Failed?);
    assert Step(srv, s, e).life == L.Step(s.life, L.TransmitEnd(!e.Failed?));
  }

  /** A kill can be seen at once, and ends a running connection whatever is left to do. */
  lemma KillEnds(srv: Server, s: State)
    requires Inv(srv, s) && Running(s)
    ensures var t := Step(srv, s, User(L.Kill));
            Enabled(t, Killed) && Step(srv, t, Killed).life.channel.transmit == L.Finished(true)
  {
    var t := Step(srv, s, User(L.Kill));
    UserKeeps(srv, s, L.Kill);
    LR.HandlesStep(s.life, L.Kill);
    ActKeepsWire(s.life, L.Kill);
    EndTells(srv, t, Killed);
  }

  predicate CutFrom(before: seq<L.Call>, after: seq<L.Call>) {
    |after| == |before|
    && forall n | 0 <= n < |after| ::
         after[n] == if before[n].progress.Waiting? then before[n].(progress := L.Cut) else before[n]
  }

  lemma CutsAll(life: L.State)
    requires L.Inv(life)
    ensures CutFrom(life.calls, L.Step(life, L.EndOfInput).calls) && L.Step(life, L.EndOfInput).idmap == map[]
  {
    var t := L.Step(life, L.EndOfInput);
    assert |t.calls| == |life.calls|;
    forall n | 0 <= n < |life.calls|
      ensures t.calls[n] == if life.calls[n].progress.Waiting? then life.calls[n].(progress := L.Cut) else life.calls[n]
    {
      L.ClearingCuts(life, L.EndOfInput, n);
      L.ClearEndsWaiting(life, L.EndOfInput, n);
    }
  }

  /** The end of the input stops the server, takes the control's own hold on the
      connection, and cuts every call that waits. */
  lemma InputEnds(srv: Server, s: State)
    requires Inv(srv, s) && Enabled(s, EndOfInput)
    ensures var t := Step(srv, s, EndOfInput);
            && t.exec.ended && t.exec.ctx.stop && t.life.idmap == map[]
            && t.life.control.stop && !t.life.control.sender && !t.life.control.terminator
            && t.life.channel == s.life.channel && CutFrom(s.life.calls, t.life.calls)
  {
    EndOfInputKeeps(srv, s);
    EndOfInputKeepsWire(s.life);
    LR.StopStep(s.life, L.EndOfInput);
    LR.HandlesStep(s.life, L.EndOfInput);
    CutsAll(s.life);
  }
}
