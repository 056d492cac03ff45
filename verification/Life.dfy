// The connection's life cycle as a state machine: the control, the reference
// count that ends the connection, the id map, the calls and the outbound queue
// (src/endpoint.rs: ServerCtl, DropTerminator, Client, do_response, and the
// `cleaner` and `transmitted` closures of Endpoint::start).
//
// A run is any sequence of events.  An event that the program could not perform
// in a state leaves the state as it is, so what holds of every sequence holds of
// every interleaving.
module Life {
  import opened Wrappers
  import opened Json
  import opened Message

  const QUEUE_CAPACITY := 32

  // ---- State -------------------------------------------------------------

  /** What a call's future ended with. */
  datatype Outcome = Answered(response: Response) | TimedOut | Lost

  /** A call's future: no answer yet, the answer is in its oneshot, its oneshot
      was cut, it resolved, or its owner dropped it. */
  datatype Progress = Waiting | Filled(response: Response) | Cut | Done(outcome: Outcome) | Dropped

  /** One `Client::call`.  Until it is `sent` the client and the call's future are
      both inside the unfinished send. */
  datatype Call = Call(id: string, request: Message, timed: bool, sent: bool, progress: Progress)

  datatype Transmit = Running | Finished(ok: bool)

  /** ServerCtlInternal: the flag, and which of its options are still there. */
  datatype Control = Control(stop: bool, terminator: bool, killer: bool, sender: bool)

  /** The counted handles: strong references to the shared DropTerminator, how
      often its oneshot was sent, and live senders of the outbound queue. */
  datatype Handles = Handles(strong: int, fired: nat, senders: int)

  /** The outbound queue, what the transmit side took from it, and its status. */
  datatype Channel = Channel(queue: seq<Message>, written: seq<Message>, transmit: Transmit)

  datatype State = State(
    control: Control,
    killed: bool,            // the kill oneshot was sent
    handles: Handles,
    clients: nat,            // clients that are free to be used
    notifying: seq<Message>, // unfinished notification sends, each with its client inside
    calls: seq<Call>,
    idmap: map<string, nat>, // call id to the call whose oneshot is stored
    channel: Channel)

  /** What `Endpoint::start` leaves behind: one client and the control. */
  const INIT :=
    State(Control(false, true, true, true), false, Handles(2, 0, 2), 1, [], [], map[], Channel([], [], Running))

  datatype Event =
    | NewCall(id: string, rpcMethod: string, params: Option<Json>, timed: bool)
    | TimerFailed                              // a call whose timeout cannot be set up
    | CallSent(n: nat)
    | CallSendGone(n: nat)                     // the send failed or was dropped
    | NewNotification(rpcMethod: string, params: Option<Json>)
    | NotificationSent(k: nat)
    | NotificationGone(k: nat)
    | CloneClient
    | DropClient
    | MakeClient                               // ServerCtl::client
    | PollCall(n: nat)
    | TimeOut(n: nat)
    | DropCall(n: nat)
    | Respond(response: Response)              // do_response
    | Terminate
    | Kill
    | EndOfInput                               // the cleaner
    | TakeQueued                               // the sink accepts one queued message
    | TransmitEnd(ok: bool)                    // the transmitted closure

  // ---- Steps -------------------------------------------------------------

  predicate Live(p: Progress) {
    p.Waiting? || p.Filled? || p.Cut?
  }

  /** One reference to the terminator is dropped; the last one fires it. */
  function Release(h: Handles): Handles {
    h.(strong := h.strong - 1, fired := if h.strong == 1 then h.fired + 1 else h.fired)
  }

  /** A client's own two handles appear or go. */
  function AddClient(h: Handles): Handles {
    h.(strong := h.strong + 1, senders := h.senders + 1)
  }

  function ReleaseClient(h: Handles): Handles {
    Release(h.(senders := h.senders - 1))
  }

  function Cleanup(s: State): State {
    s.(control := s.control.(stop := true, sender := false),
       handles := if s.control.sender then s.handles.(senders := s.handles.senders - 1) else s.handles)
  }

  function TerminateStep(s: State): State {
    var c := Cleanup(s);
    if c.control.terminator
    then c.(control := c.control.(terminator := false), handles := Release(c.handles))
    else c
  }

  /** Clearing the id map drops the stored oneshots. */
  function CutMapped(calls: seq<Call>, idmap: map<string, nat>): (r: seq<Call>)
    ensures |r| == |calls|
  {
    seq(|calls|, i requires 0 <= i < |calls| =>
      var c := calls[i];
      if c.id in idmap && idmap[c.id] == i && c.progress.Waiting? then c.(progress := Cut) else c)
  }

  function ClearMap(s: State): State {
    s.(calls := CutMapped(s.calls, s.idmap), idmap := map[])
  }

  function SetProgress(s: State, n: nat, p: Progress): State
    requires n < |s.calls|
  {
    s.(calls := s.calls[n := s.calls[n].(progress := p)])
  }

  /** The future of call n resolves: its terminator reference goes, and a timed
      call removes its id. */
  function Resolve(s: State, n: nat, o: Outcome): State
    requires n < |s.calls|
  {
    SetProgress(s, n, Done(o)).(
      handles := Release(s.handles),
      idmap := if s.calls[n].timed then s.idmap - {s.calls[n].id} else s.idmap)
  }

  function RespondStep(s: State, response: Response): State {
    if response.id.Str? && response.id.s in s.idmap then
      var n := s.idmap[response.id.s];
      var r := s.(idmap := s.idmap - {response.id.s});
      if n < |s.calls| && s.calls[n].progress.Waiting? then SetProgress(r, n, Filled(response)) else r
    else s
  }

  predicate Unused(s: State, id: string) {
    id !in s.idmap && forall i | 0 <= i < |s.calls| :: s.calls[i].id != id
  }

  predicate Sending(s: State, n: nat) {
    n < |s.calls| && !s.calls[n].sent && Live(s.calls[n].progress)
  }

  predicate HandedOut(s: State, n: nat) {
    n < |s.calls| && s.calls[n].sent && Live(s.calls[n].progress)
  }

  // The events in three groups: what happens to calls, to clients and their
  // notifications, and to the control and the two ends of the connection.

  predicate CallEvent(e: Event) {
    e.NewCall? || e.CallSent? || e.CallSendGone? || e.PollCall? || e.TimeOut? || e.DropCall? || e.Respond?
  }

  predicate ClientEvent(e: Event) {
    e.TimerFailed? || e.NewNotification? || e.NotificationSent? || e.NotificationGone?
    || e.CloneClient? || e.DropClient? || e.MakeClient?
  }

  function Step(s: State, e: Event): State {
    if CallEvent(e) then CallStep(s, e)
    else if ClientEvent(e) then ClientStep(s, e)
    else ControlStep(s, e)
  }

  predicate CanSend(c: Channel) {
    c.transmit.Running? && |c.queue| < QUEUE_CAPACITY
  }

  function Push(c: Channel, m: Message): Channel {
    c.(queue := c.queue + [m])
  }

  function CallStep(s: State, e: Event): State
    requires CallEvent(e)
  {
    match e
    case NewCall(id, name, params, timed) =>
      if s.clients == 0 || !Unused(s, id) then s
      else
        var request := RequestMsg(Request(name, params, Str(id)));
        s.(clients := s.clients - 1,
           handles := s.handles.(strong := s.handles.strong + 1),
           calls := s.calls + [Call(id, request, timed, false, Waiting)],
           idmap := s.idmap[id := |s.calls|])
    case CallSent(n) =>
      if Sending(s, n) && CanSend(s.channel) then
        s.(clients := s.clients + 1,
           calls := s.calls[n := s.calls[n].(sent := true)],
           channel := Push(s.channel, s.calls[n].request))
      else s
    case CallSendGone(n) =>
      if Sending(s, n) then SetProgress(s, n, Dropped).(handles := ReleaseClient(Release(s.handles))) else s
    case PollCall(n) =>
      if !HandedOut(s, n) then s
      else (
        match s.calls[n].progress
        case Filled(response) => Resolve(s, n, Answered(response))
        case Cut => Resolve(s, n, Lost)
        case _ => s)
    case TimeOut(n) =>
      if HandedOut(s, n) && s.calls[n].timed then Resolve(s, n, TimedOut) else s
    case DropCall(n) =>
      if HandedOut(s, n) then SetProgress(s, n, Dropped).(handles := Release(s.handles)) else s
    case Respond(response) => RespondStep(s, response)
  }

  function ClientStep(s: State, e: Event): State
    requires ClientEvent(e)
  {
    match e
    case TimerFailed =>
      if s.clients == 0 then s else s.(clients := s.clients - 1, handles := ReleaseClient(s.handles))
    case NewNotification(name, params) =>
      if s.clients == 0 then s
      else s.(clients := s.clients - 1, notifying := s.notifying + [NotificationMsg(Notification(name, params))])
    case NotificationSent(k) =>
      if k < |s.notifying| && CanSend(s.channel) then
        s.(clients := s.clients + 1,
           notifying := s.notifying[..k] + s.notifying[k + 1..],
           channel := Push(s.channel, s.notifying[k]))
      else s
    case NotificationGone(k) =>
      if k < |s.notifying| then
        s.(notifying := s.notifying[..k] + s.notifying[k + 1..], handles := ReleaseClient(s.handles))
      else s
    case CloneClient =>
      if s.clients == 0 then s else s.(clients := s.clients + 1, handles := AddClient(s.handles))
    case DropClient =>
      if s.clients == 0 then s else s.(clients := s.clients - 1, handles := ReleaseClient(s.handles))
    case MakeClient =>
      if s.control.terminator && s.control.sender
      then s.(clients := s.clients + 1, handles := AddClient(s.handles))
      else s
  }

  function ControlStep(s: State, e: Event): State
    requires !CallEvent(e) && !ClientEvent(e)
  {
    match e
    case Terminate => TerminateStep(s)
    case Kill =>
      var c := Cleanup(s);
      c.(killed := c.killed || c.control.killer, control := c.control.(killer := false))
    case EndOfInput => TerminateStep(ClearMap(s))
    case TakeQueued =>
      if s.channel.transmit.Running? && s.channel.queue != []
      then s.(channel := Channel(s.channel.queue[1..], s.channel.written + [s.channel.queue[0]], Running))
      else s
    case TransmitEnd(ok) =>
      if s.channel.transmit.Running?
      then ClearMap(s).(channel := Channel([], s.channel.written, Finished(ok)))
      else s
  }

  function Run(s: State, es: seq<Event>): State
    decreases es
  {
    if es == [] then s else Run(Step(s, es[0]), es[1..])
  }

  predicate Stops(e: Event) {
    e.Terminate? || e.Kill? || e.EndOfInput?
  }

  predicate ClientSucceeds(s: State) {
    Step(s, MakeClient).clients == s.clients + 1
  }

  // ---- The invariant -----------------------------------------------------

  /** References to the terminator held by a call: its future holds one until it
      resolves or is dropped, and an unfinished send holds its client's too. */
  function CallRefs(c: Call): nat {
    if !Live(c.progress) then 0 else if c.sent then 1 else 2
  }

  function CallSenders(c: Call): nat {
    if Live(c.progress) && !c.sent then 1 else 0
  }

  function Tally(calls: seq<Call>, f: Call -> nat): nat {
    if calls == [] then 0 else f(calls[0]) + Tally(calls[1..], f)
  }

  function One(b: bool): nat {
    if b then 1 else 0
  }

  /** Both counts, as the handles that exist. */
  predicate Counts(s: State) {
    && s.handles.strong == s.clients + |s.notifying| + Tally(s.calls, CallRefs) + One(s.control.terminator)
    && s.handles.senders == s.clients + |s.notifying| + Tally(s.calls, CallSenders) + One(s.control.sender)
    && s.handles.fired == One(s.handles.strong == 0)
  }

  predicate ControlOk(s: State) {
    && (s.control.stop <==> !s.control.sender)
    && (!s.control.terminator ==> s.control.stop)
    && (!s.control.killer ==> s.control.stop)
    && (s.killed <==> !s.control.killer)
  }

  /** No two calls share an id. */
  predicate Distinct(calls: seq<Call>) {
    calls == [] || ((forall c | c in calls[1..] :: c.id != calls[0].id) && Distinct(calls[1..]))
  }

  predicate CallsOk(s: State) {
    && Distinct(s.calls)
    && (forall id | id in s.idmap :: s.idmap[id] < |s.calls| && s.calls[s.idmap[id]].id == id)
    && (forall i | 0 <= i < |s.calls| :: CallOk(s.calls[i], s.idmap.Keys, s.channel.transmit))
  }

  /** A waiting call is in the map; an answer is the answer to this very id; once
      the transmit side ended, no call that was handed out is waiting. */
  predicate CallOk(c: Call, mapped: set<string>, transmit: Transmit) {
    && (c.progress.Waiting? ==> c.id in mapped)
    && (HasAnswer(c) ==> AnswerOf(c).id == Str(c.id))
    && (transmit.Finished? && c.sent ==> !c.progress.Waiting?)
  }

  predicate Inv(s: State) {
    Counts(s) && ControlOk(s) && CallsOk(s) && |s.channel.queue| <= QUEUE_CAPACITY
    && (s.channel.transmit.Finished? ==> s.channel.queue == [])
  }

  lemma {:induction false} TallyUpdate(calls: seq<Call>, n: nat, c: Call, f: Call -> nat)
    requires n < |calls|
    ensures Tally(calls[n := c], f) == Tally(calls, f) - f(calls[n]) + f(c)
    ensures Tally(calls, f) >= f(calls[n])
  {
    if n == 0 {
      assert calls[n := c][1..] == calls[1..];
    } else {
      assert calls[n := c][1..] == calls[1..][n - 1 := c];
      TallyUpdate(calls[1..], n - 1, c, f);
    }
  }

  lemma {:induction false} TallyAppend(calls: seq<Call>, c: Call, f: Call -> nat)
    ensures Tally(calls + [c], f) == Tally(calls, f) + f(c)
  {
    if calls == [] {
      assert calls + [c] == [c];
    } else {
      assert (calls + [c])[1..] == calls[1..] + [c];
      TallyAppend(calls[1..], c, f);
    }
  }

  lemma {:induction false} TallySame(calls: seq<Call>, other: seq<Call>, f: Call -> nat)
    requires |calls| == |other|
    requires forall i | 0 <= i < |calls| :: f(calls[i]) == f(other[i])
    ensures Tally(calls, f) == Tally(other, f)
  {
    if calls != [] {
      TallySame(calls[1..], other[1..], f);
    }
  }

  lemma {:induction false} DistinctAt(calls: seq<Call>, i: nat, j: nat)
    requires Distinct(calls) && i < |calls| && j < |calls| && calls[i].id == calls[j].id
    ensures i == j
  {
    if i > 0 && j > 0 {
      DistinctAt(calls[1..], i - 1, j - 1);
    }
  }

  lemma {:induction false} DistinctSame(calls: seq<Call>, other: seq<Call>)
    requires Distinct(calls) && |calls| == |other|
    requires forall i | 0 <= i < |calls| :: calls[i].id == other[i].id
    ensures Distinct(other)
  {
    if calls != [] {
      forall c | c in other[1..] ensures c.id != other[0].id {
        var i :| 1 <= i < |other| && other[i] == c;
        assert calls[i] in calls[1..];
      }
      DistinctSame(calls[1..], other[1..]);
    }
  }

  lemma {:induction false} DistinctAppend(calls: seq<Call>, c: Call)
    requires Distinct(calls)
    requires forall i | 0 <= i < |calls| :: calls[i].id != c.id
    ensures Distinct(calls + [c])
  {
    if calls != [] {
      assert (calls + [c])[1..] == calls[1..] + [c];
      DistinctAppend(calls[1..], c);
    }
  }

  /** One call changes without changing its id, and the map at most forgets that
      id: what has to be shown is about this call alone. */
  lemma UpdateKeepsCalls(s: State, t: State, n: nat, c: Call)
    requires CallsOk(s) && n < |s.calls|
    requires t.calls == s.calls[n := c] && c.id == s.calls[n].id && t.channel.transmit == s.channel.transmit
    requires t.idmap == s.idmap || t.idmap == s.idmap - {c.id}
    requires CallOk(c, t.idmap.Keys, t.channel.transmit)
    ensures CallsOk(t)
  {
    DistinctSame(s.calls, t.calls);
    forall i | 0 <= i < |t.calls| ensures CallOk(t.calls[i], t.idmap.Keys, t.channel.transmit) {
      assert CallOk(s.calls[i], s.idmap.Keys, s.channel.transmit);
      if i != n && t.calls[i].id == c.id {
        DistinctAt(s.calls, i, n);
      }
    }
    forall id | id in t.idmap ensures t.idmap[id] < |t.calls| && t.calls[t.idmap[id]].id == id {
      assert id in s.idmap;
    }
  }

  /** After the map is cleared nobody waits. */
  lemma ClearKeeps(s: State)
    requires Inv(s)
    ensures Inv(ClearMap(s))
    ensures forall i | 0 <= i < |s.calls| :: !ClearMap(s).calls[i].progress.Waiting?
  {
    ClearKeepsCounts(s);
    ClearKeepsCalls(s);
  }

  lemma ClearKeepsCounts(s: State)
    requires Counts(s)
    ensures Counts(ClearMap(s))
  {
    TallySame(s.calls, ClearMap(s).calls, CallRefs);
    TallySame(s.calls, ClearMap(s).calls, CallSenders);
  }

  lemma ClearKeepsCalls(s: State)
    requires CallsOk(s)
    ensures CallsOk(ClearMap(s))
    ensures forall i | 0 <= i < |s.calls| :: !ClearMap(s).calls[i].progress.Waiting?
  {
    var t := ClearMap(s);
    DistinctSame(s.calls, t.calls);
    forall i | 0 <= i < |s.calls|
      ensures !t.calls[i].progress.Waiting? && CallOk(t.calls[i], {}, t.channel.transmit)
    {
      assert CallOk(s.calls[i], s.idmap.Keys, s.channel.transmit);
      if s.calls[i].id in s.idmap {
        DistinctAt(s.calls, s.idmap[s.calls[i].id], i);
      }
    }
  }

  lemma TerminateKeeps(s: State)
    requires Inv(s)
    ensures Inv(TerminateStep(s))
  {
  }

  /** A call that resolves or is dropped: the counts stay exact. */
  lemma FinishKeepsCounts(s: State, n: nat, p: Progress)
    requires Counts(s) && n < |s.calls| && Live(s.calls[n].progress) && !Live(p)
    ensures s.calls[n].sent ==> Counts(SetProgress(s, n, p).(handles := Release(s.handles)))
    ensures !s.calls[n].sent ==> Counts(SetProgress(s, n, p).(handles := ReleaseClient(Release(s.handles))))
  {
    var c := s.calls[n].(progress := p);
    TallyUpdate(s.calls, n, c, CallRefs);
    TallyUpdate(s.calls, n, c, CallSenders);
  }

  lemma NewCallKeeps(s: State, e: Event)
    requires Inv(s) && e.NewCall? && s.clients != 0 && Unused(s, e.id)
    ensures Inv(Step(s, e))
  {
    var t := Step(s, e);
    var c := t.calls[|s.calls|];
    TallyAppend(s.calls, c, CallRefs);
    TallyAppend(s.calls, c, CallSenders);
    DistinctAppend(s.calls, c);
    forall i | 0 <= i < |t.calls| ensures CallOk(t.calls[i], t.idmap.Keys, t.channel.transmit) {
      if i < |s.calls| {
        assert CallOk(s.calls[i], s.idmap.Keys, s.channel.transmit);
      }
    }
  }

  lemma CallSentKeeps(s: State, e: Event)
    requires Inv(s) && e.CallSent? && Sending(s, e.n)
    ensures Inv(Step(s, e))
  {
    if Step(s, e) != s {
      var c := s.calls[e.n].(sent := true);
      TallyUpdate(s.calls, e.n, c, CallRefs);
      TallyUpdate(s.calls, e.n, c, CallSenders);
      assert CallOk(s.calls[e.n], s.idmap.Keys, s.channel.transmit);
      UpdateKeepsCalls(s, Step(s, e), e.n, c);
    }
  }

  /** A resolved future: its outcome is an answer only to its own id. */
  lemma ResolveKeeps(s: State, n: nat, o: Outcome)
    requires Inv(s) && HandedOut(s, n)
    requires o.Answered? ==> o.response.id == Str(s.calls[n].id)
    ensures Inv(Resolve(s, n, o))
  {
    FinishKeepsCounts(s, n, Done(o));
    UpdateKeepsCalls(s, Resolve(s, n, o), n, s.calls[n].(progress := Done(o)));
  }

  lemma DropKeeps(s: State, n: nat)
    requires Inv(s) && n < |s.calls| && Live(s.calls[n].progress)
    ensures HandedOut(s, n) ==> Inv(Step(s, DropCall(n)))
    ensures Sending(s, n) ==> Inv(Step(s, CallSendGone(n)))
  {
    var r := SetProgress(s, n, Dropped).(handles := Release(s.handles));
    FinishKeepsCounts(s, n, Dropped);
    UpdateKeepsCalls(s, r, n, s.calls[n].(progress := Dropped));
  }

  lemma PollKeeps(s: State, n: nat)
    requires Inv(s) && HandedOut(s, n)
    ensures Inv(Step(s, PollCall(n)))
  {
    assert CallOk(s.calls[n], s.idmap.Keys, s.channel.transmit);
    match s.calls[n].progress
    case Filled(response) => ResolveKeeps(s, n, Answered(response));
    case Cut => ResolveKeeps(s, n, Lost);
    case _ =>
  }

  lemma RespondKeeps(s: State, response: Response)
    requires Inv(s) && response.id.Str? && response.id.s in s.idmap
    ensures Inv(RespondStep(s, response))
  {
    var n := s.idmap[response.id.s];
    var t := RespondStep(s, response);
    var c := t.calls[n];
    assert CallOk(s.calls[n], s.idmap.Keys, s.channel.transmit);
    assert t.calls == s.calls[n := c];
    UpdateKeepsCalls(s, t, n, c);
    RespondKeepsCounts(s, t, n);
  }

  lemma RespondKeepsCounts(s: State, t: State, n: nat)
    requires Counts(s) && n < |s.calls| == |t.calls| && t.calls == s.calls[n := t.calls[n]]
    requires CallRefs(s.calls[n]) == CallRefs(t.calls[n]) && CallSenders(s.calls[n]) == CallSenders(t.calls[n])
    requires t == s.(calls := t.calls, idmap := t.idmap)
    ensures Counts(t)
  {
    TallyUpdate(s.calls, n, t.calls[n], CallRefs);
    TallyUpdate(s.calls, n, t.calls[n], CallSenders);
  }

  lemma CallStepKeeps(s: State, e: Event)
    requires Inv(s) && CallEvent(e)
    ensures Inv(CallStep(s, e))
  {
    match e
    case NewCall(id, _, _, _) => if s.clients != 0 && Unused(s, id) { NewCallKeeps(s, e); }
    case CallSent(n) => if Sending(s, n) { CallSentKeeps(s, e); }
    case CallSendGone(n) => if Sending(s, n) { DropKeeps(s, n); }
    case PollCall(n) => if HandedOut(s, n) { PollKeeps(s, n); }
    case TimeOut(n) => if HandedOut(s, n) { ResolveKeeps(s, n, TimedOut); }
    case DropCall(n) => if HandedOut(s, n) { DropKeeps(s, n); }
    case Respond(response) => if response.id.Str? && response.id.s in s.idmap { RespondKeeps(s, response); }
  }

  lemma ClientStepKeeps(s: State, e: Event)
    requires Inv(s) && ClientEvent(e)
    ensures Inv(ClientStep(s, e))
  {
  }

  lemma ControlStepKeeps(s: State, e: Event)
    requires Inv(s) && !CallEvent(e) && !ClientEvent(e)
    ensures Inv(ControlStep(s, e))
  {
    match e
    case EndOfInput => ClearKeeps(s); TerminateKeeps(ClearMap(s));
    case TransmitEnd(_) => if s.channel.transmit.Running? { ClearKeeps(s); }
    case _ =>
  }

  /** Every event keeps the invariant. */
  lemma StepKeeps(s: State, e: Event)
    requires Inv(s)
    ensures Inv(Step(s, e))
  {
    if CallEvent(e) {
      CallStepKeeps(s, e);
    } else if ClientEvent(e) {
      ClientStepKeeps(s, e);
    } else {
      ControlStepKeeps(s, e);
    }
  }

  lemma {:induction false} RunKeeps(s: State, es: seq<Event>)
    requires Inv(s)
    ensures Inv(Run(s, es))
    decreases es
  {
    if es != [] {
      StepKeeps(s, es[0]);
      RunKeeps(Step(s, es[0]), es[1..]);
    }
  }

  lemma InitOk()
    ensures Inv(INIT)
  {
  }

  // ---- The reference count -----------------------------------------------

  /** In every reachable state the count is the number of handles that exist: idle
      clients, clients inside unfinished sends, unresolved call futures and the
      control.  It has fired exactly if the count is zero, and then only once. */
  lemma ReferenceCount(es: seq<Event>)
    ensures var s := Run(INIT, es);
            && s.handles.strong == s.clients + |s.notifying| + Tally(s.calls, CallRefs) + One(s.control.terminator)
            && s.handles.senders == s.clients + |s.notifying| + Tally(s.calls, CallSenders) + One(s.control.sender)
            && (s.handles.fired == 1 <==> s.handles.strong == 0) && s.handles.fired <= 1
  {
    InitOk();
    RunKeeps(INIT, es);
  }

  lemma {:induction false} TallyZero(calls: seq<Call>)
    requires Tally(calls, CallRefs) == 0
    ensures Tally(calls, CallSenders) == 0
    ensures forall i | 0 <= i < |calls| :: !Live(calls[i].progress)
  {
    if calls != [] {
      TallyZero(calls[1..]);
      assert forall i | 1 <= i < |calls| :: calls[i] == calls[1..][i - 1];
    }
  }

  /** Once the terminator has fired there is no client, no unfinished send, no
      unresolved call and no sender of the outbound queue anywhere. */
  lemma FiredMeansAlone(s: State)
    requires Inv(s) && s.handles.fired > 0
    ensures s.handles.senders == 0 && s.clients == 0 && s.notifying == []
    ensures s.control.stop && !s.control.terminator && !s.control.sender
    ensures forall i | 0 <= i < |s.calls| :: !Live(s.calls[i].progress)
  {
    TallyZero(s.calls);
  }

  /** Zero is absorbing: no sequence of events revives a connection whose
      terminator has fired, and it never fires again. */
  lemma {:induction false} ZeroAbsorbs(s: State, es: seq<Event>)
    requires Inv(s) && s.handles.strong == 0
    ensures var h := Run(s, es).handles; h.strong == 0 && h.fired == s.handles.fired && h.senders == 0
    decreases es
  {
    FiredMeansAlone(s);
    if es != [] {
      StepKeeps(s, es[0]);
      FiredStep(s, es[0]);
      ZeroAbsorbs(Step(s, es[0]), es[1..]);
    }
  }

  lemma FiredStep(s: State, e: Event)
    requires Inv(s) && s.handles.strong == 0
    ensures Step(s, e).handles.strong == 0 && Step(s, e).calls == s.calls && Step(s, e).handles.fired == s.handles.fired
  {
    FiredMeansAlone(s);
    if e.EndOfInput? || e.TransmitEnd? {
      assert CutMapped(s.calls, s.idmap) == s.calls;
    }
  }

  // ---- Calls and answers -------------------------------------------------

  /** Ids and outcomes are final: a resolved call keeps its one outcome, a dropped
      one never gets any, and one that does not wait never waits again, whatever
      happens later. */
  lemma {:induction false} OutcomeIsFinal(s: State, es: seq<Event>, n: nat)
    requires n < |s.calls|
    ensures n < |Run(s, es).calls| && Run(s, es).calls[n].id == s.calls[n].id
    ensures !Live(s.calls[n].progress) ==> Run(s, es).calls[n].progress == s.calls[n].progress
    ensures !s.calls[n].progress.Waiting? ==> !Run(s, es).calls[n].progress.Waiting?
    decreases es
  {
    if es != [] {
      OneStepIsFinal(s, es[0], n);
      OutcomeIsFinal(Step(s, es[0]), es[1..], n);
    }
  }

  lemma OneStepIsFinal(s: State, e: Event, n: nat)
    requires n < |s.calls|
    ensures n < |Step(s, e).calls| && Step(s, e).calls[n].id == s.calls[n].id
    ensures !Live(s.calls[n].progress) ==> Step(s, e).calls[n].progress == s.calls[n].progress
    ensures !s.calls[n].progress.Waiting? ==> !Step(s, e).calls[n].progress.Waiting?
  {
    if CallEvent(e) {
      CallStepIsFinal(s, e, n);
    } else if e.EndOfInput? || e.TransmitEnd? {
      ClearingCuts(s, e, n);
    } else {
      OthersKeepCalls(s, e);
    }
  }

  /** Besides the events of calls, only the clearing of the map touches a call. */
  lemma OthersKeepCalls(s: State, e: Event)
    requires !CallEvent(e) && !e.EndOfInput? && !e.TransmitEnd?
    ensures Step(s, e).calls == s.calls
  {
    if ClientEvent(e) {
      assert Step(s, e) == ClientStep(s, e);
    }
  }

  /** Clearing the map cuts the calls that wait in it, and changes nothing else of a call. */
  lemma ClearingCuts(s: State, e: Event, n: nat)
    requires (e.EndOfInput? || e.TransmitEnd?) && n < |s.calls|
    ensures |Step(s, e).calls| == |s.calls|
    ensures Step(s, e).calls[n] == s.calls[n]
            || (s.calls[n].progress.Waiting? && Step(s, e).calls[n] == s.calls[n].(progress := Cut))
  {
    assert Step(s, e) == ControlStep(s, e);
  }

  lemma CallStepIsFinal(s: State, e: Event, n: nat)
    requires n < |s.calls| && CallEvent(e)
    ensures n < |CallStep(s, e).calls| && CallStep(s, e).calls[n].id == s.calls[n].id
    ensures !Live(s.calls[n].progress) ==> CallStep(s, e).calls[n].progress == s.calls[n].progress
    ensures !s.calls[n].progress.Waiting? ==> !CallStep(s, e).calls[n].progress.Waiting?
  {
  }

  predicate HasAnswer(c: Call) {
    c.progress.Filled? || (c.progress.Done? && c.progress.outcome.Answered?)
  }

  /** The answer a call holds or resolved with. */
  function AnswerOf(c: Call): Response
    requires HasAnswer(c)
  {
    if c.progress.Filled? then c.progress.response else c.progress.outcome.response
  }

  /** A call gets an answer from a response only, and keeps it. */
  lemma AnswersAreResponses(s: State, e: Event, n: nat)
    requires n < |Step(s, e).calls| && HasAnswer(Step(s, e).calls[n])
    ensures var answer := AnswerOf(Step(s, e).calls[n]);
            || (n < |s.calls| && HasAnswer(s.calls[n]) && AnswerOf(s.calls[n]) == answer)
            || e == Respond(answer)
  {
    if CallEvent(e) {
      AnswersInCallStep(s, e, n);
    } else if e.EndOfInput? || e.TransmitEnd? {
      assert |Step(s, e).calls| == |s.calls|;
      ClearingCuts(s, e, n);
    } else {
      OthersKeepCalls(s, e);
    }
  }

  lemma AnswersInCallStep(s: State, e: Event, n: nat)
    requires CallEvent(e) && n < |CallStep(s, e).calls| && HasAnswer(CallStep(s, e).calls[n])
    ensures var answer := AnswerOf(CallStep(s, e).calls[n]);
            || (n < |s.calls| && HasAnswer(s.calls[n]) && AnswerOf(s.calls[n]) == answer)
            || e == Respond(answer)
  {
  }

  /** Every answer a call holds or resolved with carries that call's id. */
  lemma AnswerCarriesId(es: seq<Event>, n: nat)
    requires n < |Run(INIT, es).calls|
    ensures var c := Run(INIT, es).calls[n];
            HasAnswer(c) ==> AnswerOf(c).id == Str(c.id)
  {
    InitOk();
    RunKeeps(INIT, es);
    var s := Run(INIT, es);
    assert CallOk(s.calls[n], s.idmap.Keys, s.channel.transmit);
  }

  /** A response reaches a call exactly if that call is waiting and the response
      carries its id; so it reaches at most one, and none a second time. */
  lemma ResponseReachesOne(s: State, response: Response, n: nat)
    requires Inv(s) && n < |s.calls|
    ensures var t := RespondStep(s, response);
            t.calls[n] == if s.calls[n].progress.Waiting? && response.id == Str(s.calls[n].id)
                          then s.calls[n].(progress := Filled(response)) else s.calls[n]
    ensures forall m | 0 <= m < |s.calls| && m != n :: s.calls[m].id != s.calls[n].id
  {
    assert CallOk(s.calls[n], s.idmap.Keys, s.channel.transmit);
    forall m | 0 <= m < |s.calls| && s.calls[m].id == s.calls[n].id ensures m == n {
      DistinctAt(s.calls, m, n);
    }
  }

  /** A response for a call that is no longer waiting (it timed out, was answered,
      cut or dropped) changes no call at all. */
  lemma LateResponseReachesNobody(s: State, response: Response, n: nat)
    requires Inv(s) && n < |s.calls| && !s.calls[n].progress.Waiting? && response.id == Str(s.calls[n].id)
    ensures RespondStep(s, response).calls == s.calls
  {
    forall m | 0 <= m < |s.calls| ensures RespondStep(s, response).calls[m] == s.calls[m] {
      ResponseReachesOne(s, response, m);
      if s.calls[m].id == s.calls[n].id {
        DistinctAt(s.calls, m, n);
      }
    }
  }

  /** Which events end the waiting of call n in state s. */
  predicate EndsWaiting(s: State, e: Event, n: nat)
    requires n < |s.calls|
  {
    match e
    case Respond(response) => response.id == Str(s.calls[n].id)
    case TimeOut(m) => m == n && s.calls[n].sent && s.calls[n].timed
    case DropCall(m) => m == n && s.calls[n].sent
    case CallSendGone(m) => m == n && !s.calls[n].sent
    case EndOfInput => true
    case TransmitEnd(_) => s.channel.transmit.Running?
    case _ => false
  }

  /** A call waits until the first such event, and no longer. */
  lemma WaitsExactlyUntil(s: State, e: Event, n: nat)
    requires Inv(s) && n < |s.calls| && s.calls[n].progress.Waiting?
    ensures Step(s, e).calls[n].progress.Waiting? <==> !EndsWaiting(s, e, n)
  {
    match e
    case Respond(response) => ResponseReachesOne(s, response, n);
    case EndOfInput => ClearEndsWaiting(s, e, n);
    case TransmitEnd(_) => if s.channel.transmit.Running? { ClearEndsWaiting(s, e, n); }
    case _ => WaitsOtherwise(s, e, n);
  }

  lemma ClearEndsWaiting(s: State, e: Event, n: nat)
    requires Inv(s) && n < |s.calls| && (e.EndOfInput? || (e.TransmitEnd? && s.channel.transmit.Running?))
    ensures n < |Step(s, e).calls| && !Step(s, e).calls[n].progress.Waiting?
  {
    ClearKeeps(s);
  }

  lemma WaitsOtherwise(s: State, e: Event, n: nat)
    requires n < |s.calls| && s.calls[n].progress.Waiting?
    requires !e.Respond? && !e.EndOfInput? && !e.TransmitEnd?
    ensures n < |Step(s, e).calls| && (Step(s, e).calls[n].progress.Waiting? <==> !EndsWaiting(s, e, n))
  {
    if CallEvent(e) {
      WaitsInCallStep(s, e, n);
    } else {
      OthersKeepCalls(s, e);
    }
  }

  lemma WaitsInCallStep(s: State, e: Event, n: nat)
    requires n < |s.calls| && s.calls[n].progress.Waiting? && CallEvent(e) && !e.Respond?
    ensures n < |CallStep(s, e).calls| && (CallStep(s, e).calls[n].progress.Waiting? <==> !EndsWaiting(s, e, n))
  {
  }

  /** No hanging call: every waiting call is in the id map, and once the transmit
      side has ended no call that was handed out is waiting. */
  lemma NoHangingCall(es: seq<Event>, n: nat)
    requires n < |Run(INIT, es).calls|
    ensures var s := Run(INIT, es);
            && (s.calls[n].progress.Waiting? ==> s.calls[n].id in s.idmap && s.idmap[s.calls[n].id] == n)
            && (s.channel.transmit.Finished? && s.calls[n].sent ==> !s.calls[n].progress.Waiting?)
  {
    InitOk();
    RunKeeps(INIT, es);
    var s := Run(INIT, es);
    assert CallOk(s.calls[n], s.idmap.Keys, s.channel.transmit);
    if s.calls[n].progress.Waiting? {
      DistinctAt(s.calls, s.idmap[s.calls[n].id], n);
    }
  }
}
