// What the callbacks of the server do, read off the log of a dispatch: each did what the
// server wanted at that place, and none comes after one that stopped the server.
module Callbacks {
  import opened Wrappers
  import opened Message
  import opened Futures
  import opened Dispatch
  import opened StopOrder

  /** The callback logged at place k did what the server does for it after what was
      logged before. */
  predicate ByServer(srv: Server, log: seq<Effect>, k: nat)
    requires k < |log|
  {
    match log[k]
    case Called(OnRequest(request), acts) => acts == srv.rpc(log[..k], request).acts
    case Called(OnNotification(n), acts) => acts == srv.notification(log[..k], n)
    case Routed(_) => true
  }

  /** A callback that terminates or kills the connection. */
  predicate Stopping(e: Effect) {
    e.Called? && exists a | a in e.acts :: a.Terminate? || a.Kill?
  }

  predicate SomeStopping(log: seq<Effect>, lo: nat, hi: nat)
    requires hi <= |log|
  {
    exists j | lo <= j < hi :: Stopping(log[j])
  }

  /** What was logged from before to after, by this server. */
  predicate Logged(srv: Server, before: Context, after: Context) {
    && before.log <= after.log
    && (forall k | |before.log| <= k < |after.log| :: ByServer(srv, after.log, k))
    && (forall k | |before.log| <= k < |after.log| && after.log[k].Called? ::
          !before.stop && !SomeStopping(after.log, |before.log|, k))
    && (after.stop <==> before.stop || SomeStopping(after.log, |before.log|, |after.log|))
  }

  lemma LoggedTrans(srv: Server, a: Context, b: Context, c: Context)
    requires Logged(srv, a, b) && Logged(srv, b, c)
    ensures Logged(srv, a, c)
  {
    assert forall k | 0 <= k < |b.log| :: c.log[k] == b.log[k];
    forall k | |a.log| <= k < |c.log| ensures ByServer(srv, c.log, k) {
      if k < |b.log| {
        assert c.log[..k] == b.log[..k] && ByServer(srv, b.log, k);
      }
    }
    forall k | |a.log| <= k < |c.log| && c.log[k].Called?
      ensures !a.stop && !SomeStopping(c.log, |a.log|, k)
    {
      CalledBeforeStop(srv, a, b, c, k);
    }
    StopTrans(srv, a, b, c);
  }

  lemma CalledBeforeStop(srv: Server, a: Context, b: Context, c: Context, k: nat)
    requires Logged(srv, a, b) && Logged(srv, b, c) && |a.log| <= k < |c.log| && c.log[k].Called?
    ensures !a.stop && !SomeStopping(c.log, |a.log|, k)
  {
    assert forall i | 0 <= i < |b.log| :: c.log[i] == b.log[i];
    if k < |b.log| {
      assert b.log[k].Called?;
    } else {
      assert !b.stop && !SomeStopping(c.log, |b.log|, k);
    }
    forall j | |a.log| <= j < k ensures !Stopping(c.log[j]) {
      assert j < |b.log| ==> c.log[j] == b.log[j];
    }
  }

  lemma StopTrans(srv: Server, a: Context, b: Context, c: Context)
    requires Logged(srv, a, b) && Logged(srv, b, c)
    ensures c.stop <==> a.stop || SomeStopping(c.log, |a.log|, |c.log|)
  {
    assert forall i | 0 <= i < |b.log| :: c.log[i] == b.log[i];
    if SomeStopping(b.log, |a.log|, |b.log|) {
      var j :| |a.log| <= j < |b.log| && Stopping(b.log[j]);
      assert Stopping(c.log[j]);
    }
    if SomeStopping(c.log, |a.log|, |c.log|) {
      var j :| |a.log| <= j < |c.log| && Stopping(c.log[j]);
      if j < |b.log| {
        assert Stopping(b.log[j]);
      }
    }
  }

  lemma LoggedOne(srv: Server, before: Context, after: Context, e: Effect)
    requires after.log == before.log + [e] && ByServer(srv, after.log, |before.log|)
    requires e.Called? ==> !before.stop
    requires after.stop <==> before.stop || Stopping(e)
    ensures Logged(srv, before, after)
  {
    assert after.log[|before.log|] == e;
  }

  lemma {:induction false} DispatchLogs(srv: Server, ctx: Context, m: Message)
    ensures Logged(srv, ctx, ReplyToMessage(srv, ctx, m).ctx)
    decreases m, 1
  {
    var after := ReplyToMessage(srv, ctx, m).ctx;
    match m
    case Batch(ms) => if !ctx.stop { DispatchAllLogs(srv, ctx, ms); }
    case RequestMsg(r) =>
      if !ctx.stop {
        assert after.log[..|ctx.log|] == ctx.log;
        LoggedOne(srv, ctx, after, after.log[|ctx.log|]);
      }
    case NotificationMsg(n) =>
      if !ctx.stop {
        assert after.log[..|ctx.log|] == ctx.log;
        LoggedOne(srv, ctx, after, after.log[|ctx.log|]);
      }
    case ResponseMsg(r) => LoggedOne(srv, ctx, after, Routed(r));
    case UnmatchedSub(_) =>
  }

  lemma {:induction false} DispatchAllLogs(srv: Server, ctx: Context, ms: seq<Message>)
    ensures Logged(srv, ctx, RepliesToAll(srv, ctx, ms).ctx)
    decreases ms, 0
  {
    if ms != [] {
      var c := ReplyToMessage(srv, ctx, ms[0]).ctx;
      DispatchLogs(srv, ctx, ms[0]);
      DispatchAllLogs(srv, c, ms[1..]);
      LoggedTrans(srv, ctx, c, RepliesToAll(srv, c, ms[1..]).ctx);
    }
  }

  /** Whatever is dispatched, at any depth: every callback did what the server does in
      that place with that request or notification, none is made by a stopped server or
      after one that terminated or killed it, and the server is stopped afterwards
      exactly if it was or one of them did. */
  lemma CallbacksAreServers(srv: Server, ctx: Context, chans: seq<Chan>, parsed: Parsed)
    ensures Logged(srv, ctx, DoMsg(srv, ctx, chans, parsed).ctx)
  {
    match parsed
    case Ok(m) =>
      Opens(srv, ctx, chans, m);
      DispatchLogs(srv, ctx, m);
    case Err(_) =>
  }

  /** A request or notification by itself: the one callback made, unless stopped. */
  lemma OneCallback(srv: Server, ctx: Context, chans: seq<Chan>, request: Request, n: Notification)
    ensures DoMsg(srv, ctx, chans, Ok(RequestMsg(request))).ctx.log
         == ctx.log + if ctx.stop then [] else [Called(OnRequest(request), srv.rpc(ctx.log, request).acts)]
    ensures DoMsg(srv, ctx, chans, Ok(NotificationMsg(n))).ctx.log
         == ctx.log + if ctx.stop then [] else [Called(OnNotification(n), srv.notification(ctx.log, n))]
  {
  }

  /** A response, wherever it is taken: it is routed, stopped or not. */
  lemma ResponseIsRouted(srv: Server, ctx: Context, chans: seq<Chan>, response: Response)
    ensures DoMsg(srv, ctx, chans, Ok(ResponseMsg(response))).ctx == ctx.(log := ctx.log + [Routed(response)])
  {
  }
}
