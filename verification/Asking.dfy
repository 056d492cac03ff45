// What a connection asks the other side: the requests of its calls, each under the
// call's id and each sent at most once.
module Asking {
  import opened Json
  import opened Message
  import opened Merge
  import L = Life
  import LR = LifeRuns
  import CL = CallLaws

  /** Clients only send requests and notifications. */
  predicate FromClient(m: Message) {
    m.RequestMsg? || m.NotificationMsg?
  }

  predicate AsksFor(m: Message, id: string) {
    m.RequestMsg? && m.request.id == Str(id)
  }

  /** How many messages ask under this id. */
  function Asked(ms: seq<Message>, id: string): nat {
    if ms == [] then 0 else (if AsksFor(ms[0], id) then 1 else 0) + Asked(ms[1..], id)
  }

  lemma {:induction false} AskedConcat(a: seq<Message>, b: seq<Message>, id: string)
    ensures Asked(a + b, id) == Asked(a, id) + Asked(b, id)
  {
    if a == [] {
      assert a + b == b;
    } else {
      assert (a + b)[1..] == a[1..] + b;
      AskedConcat(a[1..], b, id);
    }
  }

  lemma AskedPrefix(a: seq<Message>, b: seq<Message>, id: string)
    requires a <= b
    ensures Asked(a, id) <= Asked(b, id)
  {
    assert b == a + b[|a|..];
    AskedConcat(a, b[|a|..], id);
  }

  lemma {:induction false} AskedBy(ms: seq<Message>, id: string) returns (i: nat)
    requires Asked(ms, id) > 0
    ensures i < |ms| && AsksFor(ms[i], id)
  {
    if AsksFor(ms[0], id) {
      i := 0;
    } else {
      var j := AskedBy(ms[1..], id);
      i := j + 1;
    }
  }

  lemma {:induction false} NotAsked(ms: seq<Message>, id: string)
    requires forall m | m in ms :: !AsksFor(m, id)
    ensures Asked(ms, id) == 0
  {
    if ms != [] {
      NotAsked(ms[1..], id);
    }
  }

  lemma {:induction false} MergedAsked(whole: seq<Message>, a: seq<Message>, b: seq<Message>, id: string)
    requires Merges(whole, a, b)
    ensures Asked(whole, id) == Asked(a, id) + Asked(b, id)
    decreases |whole|
  {
    if whole != [] {
      if a != [] && Last(a) == Last(whole) && Merges(Front(whole), Front(a), b) {
        MergedAsked(Front(whole), Front(a), b, id);
        LastAsked(a, id);
      } else {
        MergedAsked(Front(whole), a, Front(b), id);
        LastAsked(b, id);
      }
      LastAsked(whole, id);
    }
  }

  lemma LastAsked(ms: seq<Message>, id: string)
    requires ms != []
    ensures Asked(ms, id) == Asked(Front(ms), id) + if AsksFor(Last(ms), id) then 1 else 0
  {
    assert ms == Front(ms) + [Last(ms)];
    AskedConcat(Front(ms), [Last(ms)], id);
    assert [Last(ms)][1..] == [];
  }

  // ---- The life cycle asks once for each call ----------------------------------------

  /** A request going out is the request of a call that was sent. */
  predicate Stems(calls: seq<L.Call>, m: Message) {
    m.RequestMsg? ==> exists i :: 0 <= i < |calls| && calls[i].sent && calls[i].request == m
  }

  predicate CallsAsk(s: L.State) {
    && (forall i | 0 <= i < |s.calls| :: AsksFor(s.calls[i].request, s.calls[i].id))
    && (forall m | m in s.notifying :: m.NotificationMsg?)
  }

  ghost predicate Asks(s: L.State) {
    && CallsAsk(s)
    && (forall m | m in LR.Outgoing(s) :: FromClient(m) && Stems(s.calls, m))
    && (forall id :: Asked(LR.Outgoing(s), id) <= 1)
  }

  lemma NewCallsAsk(s: L.State, e: L.Event, i: nat)
    requires |s.calls| <= i < |L.Step(s, e).calls|
    ensures AsksFor(L.Step(s, e).calls[i].request, L.Step(s, e).calls[i].id)
  {
    if L.CallEvent(e) {
      assert L.Step(s, e) == L.CallStep(s, e);
    }
  }

  lemma NotifyingStays(s: L.State, e: L.Event)
    requires forall m | m in s.notifying :: m.NotificationMsg?
    ensures forall m | m in L.Step(s, e).notifying :: m.NotificationMsg?
  {
    if L.CallEvent(e) {
      assert L.Step(s, e).notifying == s.notifying;
    } else if L.ClientEvent(e) {
      assert L.Step(s, e) == L.ClientStep(s, e);
    }
  }

  /** Calls keep what they ask, and stay sent. */
  lemma CallsGrow(s: L.State, e: L.Event)
    requires CallsAsk(s)
    ensures var t := L.Step(s, e);
            && CallsAsk(t) && |s.calls| <= |t.calls|
            && forall i | 0 <= i < |s.calls| ::
                 t.calls[i].request == s.calls[i].request && (s.calls[i].sent ==> t.calls[i].sent)
  {
    var t := L.Step(s, e);
    NotifyingStays(s, e);
    if s.calls != [] {
      CL.CallKept(s, e, |s.calls| - 1);
    }
    forall i | 0 <= i < |t.calls|
      ensures AsksFor(t.calls[i].request, t.calls[i].id)
      ensures i < |s.calls| ==> t.calls[i].request == s.calls[i].request && (s.calls[i].sent ==> t.calls[i].sent)
    {
      if i < |s.calls| {
        CL.CallKept(s, e, i);
      } else {
        NewCallsAsk(s, e, i);
      }
    }
  }

  lemma StemsGrow(s: L.State, t: L.State, m: Message)
    requires Stems(s.calls, m) && |s.calls| <= |t.calls|
    requires forall i | 0 <= i < |s.calls| ::
               t.calls[i].request == s.calls[i].request && (s.calls[i].sent ==> t.calls[i].sent)
    ensures Stems(t.calls, m)
  {
    if m.RequestMsg? {
      var i :| 0 <= i < |s.calls| && s.calls[i].sent && s.calls[i].request == m;
      assert t.calls[i].sent && t.calls[i].request == m;
    }
  }

  /** Whatever id is asked for, a call with this id was sent. */
  lemma {:induction false} SentCallFor(s: L.State, id: string) returns (i: nat)
    requires Asks(s) && Asked(LR.Outgoing(s), id) > 0
    ensures i < |s.calls| && s.calls[i].sent && s.calls[i].id == id
    ensures s.calls[i].request in LR.Outgoing(s)
  {
    var j := AskedBy(LR.Outgoing(s), id);
    var m := LR.Outgoing(s)[j];
    assert m in LR.Outgoing(s) && Stems(s.calls, m);
    i :| 0 <= i < |s.calls| && s.calls[i].sent && s.calls[i].request == m;
  }

  /** What is newly queued is a notification, or the request of a call not sent before. */
  lemma AcceptedIsNew(s: L.State, e: L.Event, id: string)
    requires L.Inv(s) && Asks(s)
    ensures forall m | m in LR.Accepted(s, e) :: FromClient(m) && Stems(L.Step(s, e).calls, m)
    ensures Asked(LR.Outgoing(s), id) + Asked(LR.Accepted(s, e), id) <= 1
  {
    var accepted := LR.Accepted(s, e);
    if accepted != [] {
      assert accepted[1..] == [];
      if e.CallSent? {
        assert L.Step(s, e) == L.CallStep(s, e) && L.Step(s, e).calls[e.n].sent;
        if s.calls[e.n].id == id && Asked(LR.Outgoing(s), id) > 0 {
          var i := SentCallFor(s, id);
          L.DistinctAt(s.calls, i, e.n);
        }
      } else {
        assert accepted[0] in s.notifying;
      }
    }
  }

  lemma StepAsks(s: L.State, e: L.Event)
    requires L.Inv(s) && Asks(s)
    ensures Asks(L.Step(s, e))
  {
    var t := L.Step(s, e);
    var all := LR.Outgoing(s) + LR.Accepted(s, e);
    CallsGrow(s, e);
    LR.OutboundStep(s, e);
    assert LR.Outgoing(t) <= all;
    forall m | m in LR.Outgoing(t) ensures FromClient(m) && Stems(t.calls, m) {
      AcceptedIsNew(s, e, "");
      assert m in all;
      if m in LR.Outgoing(s) {
        StemsGrow(s, t, m);
      }
    }
    forall id ensures Asked(LR.Outgoing(t), id) <= 1 {
      AcceptedIsNew(s, e, id);
      AskedConcat(LR.Outgoing(s), LR.Accepted(s, e), id);
      AskedPrefix(LR.Outgoing(t), all, id);
    }
  }

  lemma {:induction false} RunAsks(s: L.State, es: seq<L.Event>)
    requires L.Inv(s) && Asks(s)
    ensures Asks(L.Run(s, es))
    decreases es
  {
    if es != [] {
      L.StepKeeps(s, es[0]);
      StepAsks(s, es[0]);
      RunAsks(L.Step(s, es[0]), es[1..]);
    }
  }
}
