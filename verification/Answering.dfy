// What an endpoint that hears no batches answers, and where the answers to its own calls
// come from.
module Answering {
  import opened Wrappers
  import opened Message
  import opened Dispatch
  import opened Canon
  import opened Asking
  import E = Endpoint
  import X = Executor
  import L = Life
  import EndToEnd

  // ---- Answers are responses that were routed ------------------------------------------

  ghost predicate AnswersRouted(life: L.State, log: seq<Effect>) {
    forall n | 0 <= n < |life.calls| && L.HasAnswer(life.calls[n]) :: Routed(L.AnswerOf(life.calls[n])) in log
  }

  lemma {:induction false} RunAnswers(life: L.State, es: seq<L.Event>, log: seq<Effect>)
    requires AnswersRouted(life, log)
    requires forall e | e in es && e.Respond? :: Routed(e.response) in log
    ensures AnswersRouted(L.Run(life, es), log)
    decreases es
  {
    if es != [] {
      var next := L.Step(life, es[0]);
      forall n | 0 <= n < |next.calls| && L.HasAnswer(next.calls[n]) ensures Routed(L.AnswerOf(next.calls[n])) in log {
        L.AnswersAreResponses(life, es[0], n);
        assert es[0] in es;
      }
      RunAnswers(next, es[1..], log);
    }
  }

  lemma {:induction false} RespondsAreRouted(effects: seq<Effect>, e: L.Event)
    requires e in EndToEnd.EventsOf(effects) && e.Respond?
    ensures Routed(e.response) in effects
  {
    if e in EndToEnd.EventsOf(effects[1..]) {
      RespondsAreRouted(effects[1..], e);
    }
  }

  /** What the dispatcher did only ever grows. */
  lemma LogGrows(srv: Server, s: E.State, e: E.Event)
    requires E.Inv(srv, s)
    ensures s.exec.ctx.log <= E.Step(srv, s, e).exec.ctx.log
    ensures !e.Inbound? ==> E.Step(srv, s, e).exec.ctx.log == s.exec.ctx.log
  {
    if !e.Inbound? {
      OwnKeepsLog(srv, s, e);
    } else if E.Enabled(s, e) {
      E.InboundKeeps(srv, s, e.parsed);
    }
  }

  lemma OwnKeepsLog(srv: Server, s: E.State, e: E.Event)
    requires !e.Inbound?
    ensures E.Step(srv, s, e).exec.ctx.log == s.exec.ctx.log
  {
  }

  lemma RespondsLogged(srv: Server, s: E.State, e: E.Event, x: L.Event)
    requires E.Inv(srv, s) && x in EndToEnd.LifeEvents(srv, s, e) && x.Respond?
    ensures Routed(x.response) in E.Step(srv, s, e).exec.ctx.log
  {
    match e
    case User(act) => assert false;
    case Inbound(parsed) =>
      LogGrows(srv, s, e);
      RespondsAreRouted(E.NewEffects(s.exec.ctx, X.PullStep(srv, s.exec, parsed).ctx), x);
    case _ => assert false;
  }

  ghost predicate Sound(srv: Server, s: E.State) {
    E.Inv(srv, s) && Asks(s.life) && AnswersRouted(s.life, s.exec.ctx.log)
  }

  lemma StepSound(srv: Server, s: E.State, e: E.Event)
    requires Sound(srv, s)
    ensures Sound(srv, E.Step(srv, s, e))
  {
    var t := E.Step(srv, s, e);
    var les := EndToEnd.LifeEvents(srv, s, e);
    E.StepKeeps(srv, s, e);
    EndToEnd.StepIsLifeRun(srv, s, e);
    RunAsks(s.life, les);
    LogGrows(srv, s, e);
    forall x | x in les && x.Respond? ensures Routed(x.response) in t.exec.ctx.log {
      RespondsLogged(srv, s, e, x);
    }
    RunAnswers(s.life, les, t.exec.ctx.log);
  }

  // ---- What is answered, by a side that hears no batches -------------------------------

  predicate Simple(m: Message) {
    m.RequestMsg? || m.NotificationMsg? || m.ResponseMsg?
  }

  predicate SimpleHistory(seen: seq<X.Inbound>) {
    forall x | x in seen && x.Got? :: x.parsed.Ok? && Simple(x.parsed.value)
  }

  predicate IsRequestCall(e: Effect) {
    e.Called? && e.callback.OnRequest?
  }

  /** m is what the server answered to the request at place k of its log. */
  predicate AnsweredAt(srv: Server, log: seq<Effect>, k: nat, m: Message) {
    k < |log| && IsRequestCall(log[k]) && m == RequestReply(srv, Context(false, log[..k]), log[k].callback.request)
  }

  predicate Backed(srv: Server, log: seq<Effect>, m: Message) {
    exists k :: 0 <= k < |log| && AnsweredAt(srv, log, k, m)
  }

  lemma BackedGrows(srv: Server, log: seq<Effect>, more: seq<Effect>, m: Message)
    requires Backed(srv, log, m) && log <= more
    ensures Backed(srv, more, m)
  {
    var k :| 0 <= k < |log| && AnsweredAt(srv, log, k, m);
    assert more[..k] == log[..k] && AnsweredAt(srv, more, k, m);
  }

  /** The message an effect comes from. */
  function MessageOf(e: Effect): Message {
    match e
    case Called(OnRequest(request), _) => RequestMsg(request)
    case Called(OnNotification(n), _) => NotificationMsg(n)
    case Routed(response) => ResponseMsg(response)
  }

  /** A message that is no batch has at most one effect, and a reply only to a request. */
  lemma SimpleDispatch(srv: Server, ctx: Context, m: Message)
    requires Simple(m)
    ensures var r := ReplyToMessage(srv, ctx, m);
            && (r.ctx.log == ctx.log
                || (|r.ctx.log| == |ctx.log| + 1 && r.ctx.log[..|ctx.log|] == ctx.log
                    && MessageOf(r.ctx.log[|ctx.log|]) == m))
            && forall reply | reply in r.replies :: AnsweredAt(srv, r.ctx.log, |ctx.log|, reply)
  {
    if m.RequestMsg? && !ctx.stop {
      assert AfterRequest(srv, ctx, m.request).log[..|ctx.log|] == ctx.log;
    }
  }

  lemma {:induction false} SpecifiedBacked(srv: Server, seen: seq<X.Inbound>)
    requires SimpleHistory(seen)
    ensures forall m | m in X.Specified(srv, seen).replies :: Backed(srv, X.Specified(srv, seen).ctx.log, m)
  {
    if seen != [] {
      var before := seen[..|seen| - 1];
      var h, g := X.Specified(srv, before), X.Specified(srv, seen);
      SpecifiedBacked(srv, before);
      assert seen[|seen| - 1] in seen;
      match seen[|seen| - 1]
      case Stopped =>
      case Got(parsed) =>
        SimpleDispatch(srv, h.ctx, parsed.value);
        forall m | m in g.replies ensures Backed(srv, g.ctx.log, m) {
          if m in h.replies {
            BackedGrows(srv, h.ctx.log, g.ctx.log, m);
          } else {
            assert AnsweredAt(srv, g.ctx.log, |h.ctx.log|, m);
          }
        }
    }
  }

  lemma OutBacked(srv: Server, s: X.State, m: Message)
    requires X.Inv(srv, s) && SimpleHistory(s.seen) && m in s.out
    ensures Backed(srv, s.ctx.log, m)
  {
    var replies := X.Specified(srv, s.seen).replies;
    var i :| 0 <= i < |s.out| && s.out[i] == m;
    SpecifiedBacked(srv, s.seen);
    MemberInBag(s.out, i);
    var j := BagMember(replies, CanonOf(m));
    assert replies[j] in replies;
  }
}
