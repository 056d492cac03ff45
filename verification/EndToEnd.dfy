// The parts together: runs of the endpoint are runs of the executor and of the life
// cycle, and what goes out on the wire arrives at the other side's line codec.
module EndToEnd {
  import opened Wrappers
  import opened Json
  import opened Message
  import opened Dispatch
  import opened Canon
  import opened Merge
  import opened Endpoint
  import opened JsonText
  import X = Executor
  import R = ExecutorRuns
  import L = Life
  import LR = LifeRuns
  import C = Codec
  import A = Asking

  // ---- Projections -------------------------------------------------------------------

  lemma {:induction false} LifeRunConcat(s: L.State, a: seq<L.Event>, b: seq<L.Event>)
    ensures L.Run(s, a + b) == L.Run(L.Run(s, a), b)
    decreases a
  {
    if a == [] {
      assert a + b == b;
    } else {
      assert (a + b)[1..] == a[1..] + b;
      LifeRunConcat(L.Step(s, a[0]), a[1..], b);
    }
  }

  function EventsOf(effects: seq<Effect>): seq<L.Event> {
    if effects == [] then []
    else
      var first: seq<L.Event> := match effects[0]
        case Called(_, acts) => acts
        case Routed(response) => [L.Respond(response)];
      first + EventsOf(effects[1..])
  }

  lemma {:induction false} ApplyIsRun(life: L.State, effects: seq<Effect>)
    ensures Apply(life, effects) == L.Run(life, EventsOf(effects))
    decreases effects
  {
    if effects != [] {
      match effects[0]
      case Called(_, acts) =>
        LifeRunConcat(life, acts, EventsOf(effects[1..]));
        ApplyIsRun(L.Run(life, acts), effects[1..]);
      case Routed(response) =>
        LifeRunConcat(life, [L.Respond(response)], EventsOf(effects[1..]));
        OneLifeStep(life, L.Respond(response));
        ApplyIsRun(L.Step(life, L.Respond(response)), effects[1..]);
    }
  }

  lemma OneLifeStep(life: L.State, e: L.Event)
    ensures L.Run(life, [e]) == L.Step(life, e)
  {
    assert [e][1..] == [];
    assert L.Run(L.Step(life, e), []) == L.Step(life, e);
  }

  /** What a step of the endpoint is to its life cycle. */
  function LifeEvents(srv: Server, s: State, e: Event): seq<L.Event> {
    if !Enabled(s, e) then []
    else
      match e
      case User(act) => [act]
      case Inbound(parsed) => EventsOf(NewEffects(s.exec.ctx, X.PullStep(srv, s.exec, parsed).ctx))
      case EndOfInput => [L.EndOfInput]
      case TakeQueued => [L.TakeQueued]
      case AllSent => [L.TransmitEnd(true)]
      case Killed => [L.TransmitEnd(true)]
      case Failed => [L.TransmitEnd(false)]
      case _ => []
  }

  lemma StepIsLifeRun(srv: Server, s: State, e: Event)
    ensures Step(srv, s, e).life == L.Run(s.life, LifeEvents(srv, s, e))
  {
    match e
    case User(act) => OneLifeStep(s.life, act);
    case Inbound(parsed) =>
      if Enabled(s, e) {
        ApplyIsRun(s.life, NewEffects(s.exec.ctx, X.PullStep(srv, s.exec, parsed).ctx));
      }
    case EndOfInput => OneLifeStep(s.life, L.EndOfInput);
    case TakeQueued => OneLifeStep(s.life, L.TakeQueued);
    case AllSent => OneLifeStep(s.life, L.TransmitEnd(true));
    case Killed => OneLifeStep(s.life, L.TransmitEnd(true));
    case Failed => OneLifeStep(s.life, L.TransmitEnd(false));
    case _ =>
  }

  function AllLifeEvents(srv: Server, s: State, es: seq<Event>): seq<L.Event>
    decreases es
  {
    if es == [] then []
    else LifeEvents(srv, s, es[0]) + AllLifeEvents(srv, Step(srv, s, es[0]), es[1..])
  }

  /** Every run of the endpoint is a run of the life cycle, so all that holds of
      those holds here: the reference count, the answers to calls, the control. */
  lemma {:induction false} RunIsLifeRun(srv: Server, s: State, es: seq<Event>)
    ensures Run(srv, s, es).life == L.Run(s.life, AllLifeEvents(srv, s, es))
    decreases es
  {
    if es != [] {
      var t := Step(srv, s, es[0]);
      StepIsLifeRun(srv, s, es[0]);
      RunIsLifeRun(srv, t, es[1..]);
      LifeRunConcat(s.life, LifeEvents(srv, s, es[0]), AllLifeEvents(srv, t, es[1..]));
    }
  }

  /** What a step of the endpoint is to its executor. */
  function ExecEvents(s: State, e: Event): seq<X.Event> {
    if !Enabled(s, e) then []
    else
      match e
      case User(act) => if L.Step(s.life, act).control.stop then [X.Stop] else []
      case Inbound(parsed) => [X.Pull(parsed)]
      case EndOfInput => if L.Step(s.life, L.EndOfInput).control.stop then [X.Stop, X.End] else [X.End]
      case Terminated => [X.End]
      case Progress(x) => [x]
      case _ => []
  }

  lemma ExecRunTwo(srv: Server, s: X.State, a: X.Event, b: X.Event)
    ensures X.Run(srv, s, []) == s
    ensures X.Run(srv, s, [a]) == X.Step(srv, s, a)
    ensures X.Run(srv, s, [a, b]) == X.Step(srv, X.Step(srv, s, a), b)
  {
    var t := X.Step(srv, s, a);
    var u := X.Step(srv, t, b);
    assert [a][1..] == [] && X.Run(srv, t, []) == t;
    assert [b][1..] == [] && X.Run(srv, u, []) == u;
    assert [a, b][1..] == [b] && X.Run(srv, t, [b]) == u;
  }

  lemma StepIsExecRun(srv: Server, s: State, e: Event)
    ensures Step(srv, s, e).exec == X.Run(srv, s.exec, ExecEvents(s, e))
  {
    ExecRunTwo(srv, s.exec, X.Stop, X.End);
    match e
    case Inbound(parsed) => ExecRunTwo(srv, s.exec, X.Pull(parsed), X.End);
    case EndOfInput => ExecRunTwo(srv, s.exec, X.End, X.End);
    case Terminated => ExecRunTwo(srv, s.exec, X.End, X.End);
    case Progress(x) => ExecRunTwo(srv, s.exec, x, X.End);
    case _ =>
  }

  function AllExecEvents(srv: Server, s: State, es: seq<Event>): seq<X.Event>
    decreases es
  {
    if es == [] then [] else ExecEvents(s, es[0]) + AllExecEvents(srv, Step(srv, s, es[0]), es[1..])
  }

  lemma {:induction false} ExecRunConcat(srv: Server, s: X.State, a: seq<X.Event>, b: seq<X.Event>)
    ensures X.Run(srv, s, a + b) == X.Run(srv, X.Run(srv, s, a), b)
    decreases a
  {
    if a == [] {
      assert a + b == b;
    } else {
      assert (a + b)[1..] == a[1..] + b;
      ExecRunConcat(srv, X.Step(srv, s, a[0]), a[1..], b);
    }
  }

  /** And a run of the executor: no deadlock, replies as specified, bounded work. */
  lemma {:induction false} RunIsExecRun(srv: Server, s: State, es: seq<Event>)
    ensures Run(srv, s, es).exec == X.Run(srv, s.exec, AllExecEvents(srv, s, es))
    decreases es
  {
    if es != [] {
      var t := Step(srv, s, es[0]);
      StepIsExecRun(srv, s, es[0]);
      RunIsExecRun(srv, t, es[1..]);
      ExecRunConcat(srv, s.exec, ExecEvents(s, es[0]), AllExecEvents(srv, t, es[1..]));
    }
  }

  /** So in every run of the endpoint, once the transmission has ended for whatever
      reason, no call that was handed out is left waiting; before that a waiting
      call is found through the id map, and has not let the terminator fire. */
  lemma NoCallLeftWaiting(srv: Server, parallel: nat, es: seq<Event>, n: nat)
    requires n < |Run(srv, Init(parallel), es).life.calls|
    ensures var life := Run(srv, Init(parallel), es).life;
            life.calls[n].progress.Waiting? ==>
              && life.calls[n].id in life.idmap && life.idmap[life.calls[n].id] == n
              && life.handles.fired == 0
              && (life.channel.transmit.Finished? ==> !life.calls[n].sent)
  {
    var les := AllLifeEvents(srv, Init(parallel), es);
    RunIsLifeRun(srv, Init(parallel), es);
    L.NoHangingCall(les, n);
    L.InitOk();
    L.RunKeeps(L.INIT, les);
    var life := L.Run(L.INIT, les);
    L.TallyUpdate(life.calls, n, life.calls[n], L.CallRefs);
  }

  lemma WrittenIsAccepted(srv: Server, parallel: nat, es: seq<Event>)
    ensures Run(srv, Init(parallel), es).life.channel.written
         <= LR.AllAccepted(L.INIT, AllLifeEvents(srv, Init(parallel), es))
  {
    var les := AllLifeEvents(srv, Init(parallel), es);
    RunIsLifeRun(srv, Init(parallel), es);
    LR.OutboundInOrder(L.INIT, les);
    assert LR.Outgoing(L.INIT) + LR.AllAccepted(L.INIT, les) == LR.AllAccepted(L.INIT, les);
  }

  /** The wire in order: the clients' messages come as they were accepted, and with
      one slot the answers as specified; without clients' messages that is all. */
  lemma WireInOrder(srv: Server, es: seq<Event>)
    ensures var s := Run(srv, Init(1), es);
            var replies := X.Specified(srv, s.exec.seen).replies;
            && Merges(s.wire, s.exec.out, s.life.channel.written)
            && s.exec.out <= replies && (R.Quiet(s.exec) ==> s.exec.out == replies)
            && s.life.channel.written <= LR.AllAccepted(L.INIT, AllLifeEvents(srv, Init(1), es))
            && (s.life.channel.written == [] ==> s.wire == s.exec.out)
  {
    var s := Run(srv, Init(1), es);
    Reachable(srv, 1, es);
    RunIsExecRun(srv, Init(1), es);
    R.InOrder(srv, AllExecEvents(srv, Init(1), es));
    WrittenIsAccepted(srv, 1, es);
    if s.life.channel.written == [] {
      MergedAlone(s.wire, s.exec.out);
    }
  }

  // ---- Everything on the wire can be serialized --------------------------------------

  /** Serializability does not depend on the order inside batches. */
  lemma {:induction false} CanonSerializable(m: Message, n: Message)
    requires CanonOf(m) == CanonOf(n) && Serializable(m)
    ensures Serializable(n)
    decreases m
  {
    match n
    case Batch(ns) =>
      forall i | 0 <= i < |ns| ensures Serializable(ns[i]) {
        MemberInBag(ns, i);
        var j := BagMember(m.messages, CanonOf(ns[i]));
        CanonSerializable(m.messages[j], ns[i]);
      }
    case _ =>
  }

  predicate AllSerializable(ms: seq<Message>) {
    forall i | 0 <= i < |ms| :: Serializable(ms[i])
  }

  lemma {:induction false} ReplySerializable(srv: Server, ctx: Context, m: Message)
    ensures AllSerializable(ReplyToMessage(srv, ctx, m).replies)
    decreases m, 1
  {
    match m
    case Batch(ms) => if !ctx.stop { RepliesSerializable(srv, ctx, ms); }
    case _ =>
  }

  lemma {:induction false} RepliesSerializable(srv: Server, ctx: Context, ms: seq<Message>)
    ensures AllSerializable(RepliesToAll(srv, ctx, ms).replies)
    decreases ms, 0
  {
    if ms != [] {
      ReplySerializable(srv, ctx, ms[0]);
      RepliesSerializable(srv, ReplyToMessage(srv, ctx, ms[0]).ctx, ms[1..]);
    }
  }

  lemma {:induction false} SpecifiedSerializable(srv: Server, seen: seq<X.Inbound>)
    ensures AllSerializable(X.Specified(srv, seen).replies)
  {
    if seen != [] {
      var before := seen[..|seen| - 1];
      SpecifiedSerializable(srv, before);
      match seen[|seen| - 1]
      case Stopped =>
      case Got(Err(_)) =>
      case Got(Ok(m)) => ReplySerializable(srv, X.Specified(srv, before).ctx, m);
    }
  }

  lemma InPart(m: Message, part: seq<Message>, whole: seq<Message>)
    requires CanonOf(m) in BagOf(part) && BagOf(part) <= BagOf(whole) && AllSerializable(whole)
    ensures Serializable(m)
  {
    var i := BagMember(whole, CanonOf(m));
    CanonSerializable(whole[i], m);
  }

  lemma WrittenSerializable(srv: Server, parallel: nat, es: seq<Event>)
    ensures AllSerializable(Run(srv, Init(parallel), es).life.channel.written)
  {
    var written := Run(srv, Init(parallel), es).life.channel.written;
    RunIsLifeRun(srv, Init(parallel), es);
    L.InitOk();
    A.RunAsks(L.INIT, AllLifeEvents(srv, Init(parallel), es));
    forall i | 0 <= i < |written| ensures Serializable(written[i]) {
      assert written[i] in LR.Outgoing(Run(srv, Init(parallel), es).life) && A.FromClient(written[i]);
    }
  }

  /** Nothing the endpoint ever hands to the sink fails to be encoded. */
  lemma WireSerializable(srv: Server, parallel: nat, es: seq<Event>)
    ensures AllSerializable(Run(srv, Init(parallel), es).wire)
  {
    var s := Run(srv, Init(parallel), es);
    var replies := X.Specified(srv, s.exec.seen).replies;
    var written := s.life.channel.written;
    Reachable(srv, parallel, es);
    SpecifiedSerializable(srv, s.exec.seen);
    WrittenSerializable(srv, parallel, es);
    MergedBag(s.wire, s.exec.out, written);
    forall i | 0 <= i < |s.wire| ensures Serializable(s.wire[i]) {
      MemberInBag(s.wire, i);
      if CanonOf(s.wire[i]) in BagOf(written) {
        InPart(s.wire[i], written, written);
      } else {
        InPart(s.wire[i], s.exec.out, replies);
      }
    }
  }

  function Normalized(ms: seq<Message>): (r: seq<Parsed>)
    ensures |r| == |ms|
  {
    if ms == [] then [] else [Ok(Normalize(ms[0]))] + Normalized(ms[1..])
  }

  lemma {:induction false} ReceivedIsNormalized(ms: seq<Message>)
    requires AllSerializable(ms)
    ensures C.Received(ms) == Normalized(ms)
  {
    if ms != [] {
      ReceivedIsNormalized(ms[1..]);
    }
  }

  /** End to end: the other side's line codec, getting the encoded wire of any run in
      any chunks, parses exactly the messages on the wire, normalized and in order. */
  lemma {:induction false} PeerReadsWire(srv: Server, parallel: nat, es: seq<Event>,
                                         read: seq<Byte> -> Option<Json>, acts: seq<C.Action>)
    requires C.ReadsBack(read, Run(srv, Init(parallel), es).wire) && C.Exhausted(C.Use(C.START, acts))
    requires C.Use(C.START, acts).fed == C.EncodedAll([], Run(srv, Init(parallel), es).wire)
    ensures C.FromSlices(read, C.Use(C.START, acts).lines) == Normalized(Run(srv, Init(parallel), es).wire)
    ensures C.Use(C.START, acts).decoder.buffer == []
  {
    var wire := Run(srv, Init(parallel), es).wire;
    WireSerializable(srv, parallel, es);
    C.StreamRoundTrip(read, wire, acts);
    ReceivedIsNormalized(wire);
  }
}
