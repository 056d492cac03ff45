// The objects of src/endpoint.rs whose methods update shared state, and the proof
// that each of them makes exactly one step of the life cycle.  Every event of the life
// cycle has its method here.
module Connection {
  import opened Wrappers
  import opened Json
  import opened Message
  import L = Life

  /** The object behind every RcDrop: its strong count, its oneshot while it is still
      there, and how often that was sent. */
  class DropTerminator {
    var strong: int
    var slot: bool
    var fired: nat

    constructor ()
      ensures strong == 1 && slot && fired == 0
    {
      strong, slot, fired := 1, true, 0;
    }

    method CloneRc()
      modifies this`strong
      ensures strong == old(strong) + 1
    {
      strong := strong + 1;
    }

    /** Dropping one reference; the last one drops the object. */
    method DropRc()
      requires strong > 0 && slot
      modifies this
      ensures strong == old(strong) - 1
      ensures fired == old(fired) + (if old(strong) == 1 then 1 else 0)
      ensures slot <==> strong > 0
    {
      strong := strong - 1;
      if strong == 0 {
        Drop();
      }
    }

    /** Drop::drop takes the oneshot, which must be there, and sends it. */
    method Drop()
      requires slot
      modifies this`slot, this`fired
      ensures !slot && fired == old(fired) + 1
    {
      slot := false;
      fired := fired + 1;
    }
  }

  /** The outbound mpsc channel with its counted senders, and its receiving side. */
  class Outbound {
    var senders: int
    var queue: seq<Message>
    var written: seq<Message>
    var transmit: L.Transmit

    constructor ()
      ensures senders == 1 && queue == [] && written == [] && transmit == L.Running
    {
      senders, queue, written, transmit := 1, [], [], L.Running;
    }

    ghost function Channel(): L.Channel
      reads this
    {
      L.Channel(queue, written, transmit)
    }
  }

  /** ServerCtlInternal behind its Rc: each option is the object or null. */
  class ServerCtl {
    var stop: bool
    var terminator: DropTerminator?
    var killer: bool
    var sender: Outbound?
    var killed: bool
    const rc: DropTerminator
    const outbound: Outbound

    constructor (rc: DropTerminator, outbound: Outbound)
      ensures this.rc == rc && this.outbound == outbound
      ensures !stop && terminator == rc && killer && sender == outbound && !killed
    {
      this.rc, this.outbound := rc, outbound;
      stop, terminator, killer, sender, killed := false, rc, true, outbound, false;
    }

    ghost predicate Valid()
      reads this, rc
    {
      && (terminator == null || terminator == rc)
      && (sender == null || sender == outbound)
      && (terminator != null ==> rc.strong > 0)
      && (rc.slot <==> rc.strong > 0)
    }

    ghost function Control(): L.Control
      reads this
    {
      L.Control(stop, terminator != null, killer, sender != null)
    }

    ghost function Handles(): L.Handles
      reads this, rc, outbound
    {
      L.Handles(rc.strong, rc.fired, outbound.senders)
    }

    method Cleanup()
      requires Valid()
      modifies this`stop, this`sender, outbound`senders
      ensures Valid()
      ensures Control() == old(Control()).(stop := true, sender := false)
      ensures Handles() == old(Handles()).(senders := old(outbound.senders) - L.One(old(sender) != null))
    {
      stop := true;
      if sender != null {
        outbound.senders := outbound.senders - 1;
      }
      sender := null;
    }

    method Terminate()
      requires Valid()
      modifies this`stop, this`sender, this`terminator, outbound`senders, rc
      ensures Valid()
      ensures Control() == old(Control()).(stop := true, sender := false, terminator := false)
      ensures var h := old(Handles()).(senders := old(outbound.senders) - L.One(old(sender) != null));
              Handles() == if old(terminator) == null then h else L.Release(h)
    {
      Cleanup();
      if terminator != null {
        terminator.DropRc();
      }
      terminator := null;
    }

    method Kill()
      requires Valid()
      modifies this`stop, this`sender, this`killer, this`killed, outbound`senders
      ensures Valid()
      ensures Control() == old(Control()).(stop := true, sender := false, killer := false)
      ensures Handles() == old(Handles()).(senders := old(outbound.senders) - L.One(old(sender) != null))
      ensures killed == (old(killed) || old(killer))
    {
      Cleanup();
      if killer {
        killed := true;
      }
      killer := false;
    }
  }

  /** A call that has not ended keeps the connection alive. */
  lemma LiveCallHolds(s: L.State, n: nat)
    requires L.Inv(s) && n < |s.calls| && L.Live(s.calls[n].progress)
    ensures s.handles.strong > 0 && s.handles.fired == 0
  {
    L.TallyUpdate(s.calls, n, s.calls[n], L.CallRefs);
  }

  /** An unfinished send holds two references: the call's and its client's. */
  lemma UnsentCallHolds(s: L.State, n: nat)
    requires L.Inv(s) && L.Sending(s, n)
    ensures s.handles.strong > 1 && s.handles.fired == 0
  {
    L.TallyUpdate(s.calls, n, s.calls[n], L.CallRefs);
  }

  /** A state that agrees with s in every part is s. */
  lemma Reaches(t: L.State, s: L.State)
    requires L.Inv(s)
    requires t.control == s.control && t.killed == s.killed && t.handles == s.handles
    requires t.clients == s.clients && t.notifying == s.notifying && t.calls == s.calls
    requires t.idmap == s.idmap && t.channel == s.channel
    ensures t == s && L.Inv(t)
  {
  }

  /** Everything one connection shares: the control, the id map, the clients and the
      calls. */
  class Connection {
    const ctl: ServerCtl
    var idmap: map<string, nat>
    var clients: nat
    var notifying: seq<Message>
    var calls: seq<L.Call>

    /** Endpoint::start up to the client it returns. */
    constructor ()
      ensures Valid() && State() == L.INIT
      ensures clients == 1 && ctl.rc.strong == 2 && ctl.outbound.senders == 2
      ensures calls == [] && notifying == [] && idmap == map[] && !ctl.stop && !ctl.killed
      ensures fresh(ctl) && fresh(ctl.rc) && fresh(ctl.outbound)
    {
      var rc := new DropTerminator();
      var outbound := new Outbound();
      var c := new ServerCtl(rc, outbound);
      ctl := c;
      idmap, clients, notifying, calls := map[], 1, [], [];
      new;
      rc.CloneRc();
      outbound.senders := outbound.senders + 1;
      L.InitOk();
    }

    ghost function State(): L.State
      reads this, ctl, ctl.rc, ctl.outbound
    {
      L.State(ctl.Control(), ctl.killed, ctl.Handles(), clients, notifying, calls, idmap, ctl.outbound.Channel())
    }

    ghost predicate Valid()
      reads this, ctl, ctl.rc, ctl.outbound
    {
      ctl.Valid() && L.Inv(State())
    }

    /** ServerCtl::terminate. */
    method Terminate()
      requires Valid()
      modifies ctl, ctl.rc, ctl.outbound
      ensures State() == L.Step(old(State()), L.Terminate) && Valid()
      ensures ctl.stop && ctl.sender == null && ctl.terminator == null && ctl.killed == old(ctl.killed)
      ensures ctl.outbound.Channel() == old(ctl.outbound.Channel())
    {
      ghost var next := L.Step(State(), L.Terminate);
      L.StepKeeps(State(), L.Terminate);
      TerminateControl();
      Reaches(State(), next);
    }

    method TerminateControl()
      requires ctl.Valid()
      modifies ctl, ctl.rc, ctl.outbound
      ensures State() == L.TerminateStep(old(State())) && ctl.Valid()
    {
      ctl.Terminate();
    }

    /** ServerCtl::kill. */
    method Kill()
      requires Valid()
      modifies ctl, ctl.outbound
      ensures State() == L.Step(old(State()), L.Kill) && Valid()
      ensures ctl.stop && ctl.sender == null && ctl.killed && ctl.terminator == old(ctl.terminator)
      ensures ctl.outbound.Channel() == old(ctl.outbound.Channel())
    {
      ghost var next := L.Step(State(), L.Kill);
      L.StepKeeps(State(), L.Kill);
      ctl.Kill();
      Reaches(State(), next);
    }

    /** ServerCtl::client: AlreadyTerminated is false. */
    method Client() returns (ok: bool)
      requires Valid()
      modifies this`clients, ctl.rc, ctl.outbound
      ensures State() == L.Step(old(State()), L.MakeClient) && Valid()
      ensures ok <==> old(ctl.terminator) != null && old(ctl.sender) != null
      ensures clients == old(clients) + L.One(ok) && ctl.rc.strong == old(ctl.rc.strong) + L.One(ok)
      ensures ctl.outbound.senders == old(ctl.outbound.senders) + L.One(ok)
      ensures ok == L.ClientSucceeds(old(State()))
    {
      ghost var next := L.Step(State(), L.MakeClient);
      L.StepKeeps(State(), L.MakeClient);
      ok := ctl.terminator != null && ctl.sender != null;
      if ok {
        AddClient();
      }
      Reaches(State(), next);
    }

    /** Client::new: the new client's sender and terminator reference. */
    method AddClient()
      requires ctl.rc.strong > 0
      modifies this`clients, ctl.rc`strong, ctl.outbound`senders
      ensures clients == old(clients) + 1
      ensures ctl.rc.strong == old(ctl.rc.strong) + 1 && ctl.outbound.senders == old(ctl.outbound.senders) + 1
    {
      ctl.outbound.senders := ctl.outbound.senders + 1;
      ctl.rc.CloneRc();
      clients := clients + 1;
    }

    method DropClient()
      requires Valid() && clients > 0
      modifies this`clients, ctl.rc, ctl.outbound
      ensures State() == L.Step(old(State()), L.DropClient) && Valid()
      ensures clients == old(clients) - 1 && ctl.rc.strong == old(ctl.rc.strong) - 1
    {
      ghost var next := L.Step(State(), L.DropClient);
      L.StepKeeps(State(), L.DropClient);
      clients := clients - 1;
      ReleaseClient();
      Reaches(State(), next);
    }

    /** Client is Clone. */
    method CloneClient()
      requires Valid() && clients > 0
      modifies this`clients, ctl.rc, ctl.outbound
      ensures State() == L.Step(old(State()), L.CloneClient) && Valid()
      ensures clients == old(clients) + 1 && ctl.rc.strong == old(ctl.rc.strong) + 1
    {
      ghost var next := L.Step(State(), L.CloneClient);
      L.StepKeeps(State(), L.CloneClient);
      AddClient();
      Reaches(State(), next);
    }

    /** Client::notify up to the send future it returns, which holds the client. */
    method Notify(name: string, params: Option<Json>)
      requires Valid() && clients > 0
      modifies this`clients, this`notifying
      ensures State() == L.Step(old(State()), L.NewNotification(name, params)) && Valid()
      ensures clients == old(clients) - 1
      ensures notifying == old(notifying) + [NotificationMsg(Notification(name, params))]
    {
      ghost var next := L.Step(State(), L.NewNotification(name, params));
      L.StepKeeps(State(), L.NewNotification(name, params));
      clients := clients - 1;
      notifying := notifying + [NotificationMsg(Notification(name, params))];
      Reaches(State(), next);
    }

    /** The send of a notification is accepted: the client comes out again. */
    method NotificationSent(k: nat)
      requires Valid() && k < |notifying| && L.CanSend(ctl.outbound.Channel())
      modifies this`clients, this`notifying, ctl.outbound
      ensures State() == L.Step(old(State()), L.NotificationSent(k)) && Valid()
      ensures clients == old(clients) + 1 && notifying == old(notifying[..k] + notifying[k + 1..])
      ensures ctl.outbound.queue == old(ctl.outbound.queue) + [old(notifying[k])]
    {
      ghost var next := L.Step(State(), L.NotificationSent(k));
      L.StepKeeps(State(), L.NotificationSent(k));
      ctl.outbound.queue := ctl.outbound.queue + [notifying[k]];
      notifying := notifying[..k] + notifying[k + 1..];
      clients := clients + 1;
      Reaches(State(), next);
    }

    /** The send fails or is dropped, and the client inside goes with it. */
    method NotificationGone(k: nat)
      requires Valid() && k < |notifying|
      modifies this`notifying, ctl.rc, ctl.outbound
      ensures State() == L.Step(old(State()), L.NotificationGone(k)) && Valid()
      ensures notifying == old(notifying[..k] + notifying[k + 1..])
      ensures ctl.rc.strong == old(ctl.rc.strong) - 1 && ctl.outbound.senders == old(ctl.outbound.senders) - 1
    {
      ghost var next := L.Step(State(), L.NotificationGone(k));
      L.StepKeeps(State(), L.NotificationGone(k));
      notifying := notifying[..k] + notifying[k + 1..];
      ReleaseClient();
      Reaches(State(), next);
    }

    /** What a client holds besides its data: its sender and terminator reference. */
    method ReleaseClient()
      requires ctl.rc.strong > 0 && ctl.rc.slot
      modifies ctl.rc, ctl.outbound`senders
      ensures ctl.Handles() == L.ReleaseClient(old(ctl.Handles()))
      ensures ctl.rc.slot <==> ctl.rc.strong > 0
    {
      ctl.outbound.senders := ctl.outbound.senders - 1;
      ctl.rc.DropRc();
    }

    /** Client::call when its timer cannot be set up: the error is all that is left of
        the client and of the reference taken for the call. */
    method TimerFailed()
      requires Valid() && clients > 0
      modifies this`clients, ctl.rc, ctl.outbound
      ensures State() == L.Step(old(State()), L.TimerFailed) && Valid()
      ensures clients == old(clients) - 1
      ensures ctl.rc.strong == old(ctl.rc.strong) - 1 && ctl.outbound.senders == old(ctl.outbound.senders) - 1
    {
      ghost var next := L.Step(State(), L.TimerFailed);
      L.StepKeeps(State(), L.TimerFailed);
      ctl.rc.CloneRc();
      ctl.rc.DropRc();
      clients := clients - 1;
      ReleaseClient();
      Reaches(State(), next);
    }

    /** Client::call up to the send future it returns: the id is in the map before
        anything is sent, and the call keeps the connection alive. */
    method Call(id: string, name: string, params: Option<Json>, timed: bool)
      requires Valid() && clients > 0 && L.Unused(State(), id)
      modifies this, ctl.rc
      ensures State() == L.Step(old(State()), L.NewCall(id, name, params, timed)) && Valid()
      ensures clients == old(clients) - 1 && ctl.rc.strong == old(ctl.rc.strong) + 1
      ensures calls == old(calls) + [L.Call(id, RequestMsg(Request(name, params, Str(id))), timed, false, L.Waiting)]
      ensures idmap == old(idmap)[id := |old(calls)|] && notifying == old(notifying)
    {
      ghost var next := L.Step(State(), L.NewCall(id, name, params, timed));
      L.StepKeeps(State(), L.NewCall(id, name, params, timed));
      clients := clients - 1;
      var message := RequestMsg(Request(name, params, Str(id)));
      ctl.rc.CloneRc();
      idmap := idmap[id := |calls|];
      calls := calls + [L.Call(id, message, timed, false, L.Waiting)];
      Reaches(State(), next);
    }

    /** The send of a call is accepted: the client and the call's future come out. */
    method CallSent(n: nat)
      requires Valid() && L.Sending(State(), n) && L.CanSend(ctl.outbound.Channel())
      modifies this`clients, this`calls, ctl.outbound
      ensures State() == L.Step(old(State()), L.CallSent(n)) && Valid()
      ensures clients == old(clients) + 1 && calls == old(calls[n := calls[n].(sent := true)])
      ensures ctl.outbound.queue == old(ctl.outbound.queue) + [old(calls[n].request)]
    {
      ghost var next := L.Step(State(), L.CallSent(n));
      L.StepKeeps(State(), L.CallSent(n));
      ctl.outbound.queue := ctl.outbound.queue + [calls[n].request];
      calls := calls[n := calls[n].(sent := true)];
      clients := clients + 1;
      Reaches(State(), next);
    }

    /** The send of a call fails or is dropped: its client and its future go. */
    method CallSendGone(n: nat)
      requires Valid() && L.Sending(State(), n)
      modifies this`calls, ctl.rc, ctl.outbound
      ensures State() == L.Step(old(State()), L.CallSendGone(n)) && Valid()
      ensures calls == old(calls[n := calls[n].(progress := L.Dropped)])
      ensures ctl.rc.strong == old(ctl.rc.strong) - 2 && ctl.outbound.senders == old(ctl.outbound.senders) - 1
    {
      ghost var next := L.Step(State(), L.CallSendGone(n));
      L.StepKeeps(State(), L.CallSendGone(n));
      UnsentCallHolds(State(), n);
      calls := calls[n := calls[n].(progress := L.Dropped)];
      ctl.rc.DropRc();
      ReleaseClient();
      Reaches(State(), next);
    }

    /** The owner of a call drops its future; the id stays in the map. */
    method DropCall(n: nat)
      requires Valid() && L.HandedOut(State(), n)
      modifies this`calls, ctl.rc
      ensures State() == L.Step(old(State()), L.DropCall(n)) && Valid()
      ensures calls == old(calls[n := calls[n].(progress := L.Dropped)])
      ensures ctl.rc.strong == old(ctl.rc.strong) - 1
    {
      ghost var next := L.Step(State(), L.DropCall(n));
      L.StepKeeps(State(), L.DropCall(n));
      LiveCallHolds(State(), n);
      calls := calls[n := calls[n].(progress := L.Dropped)];
      ctl.rc.DropRc();
      Reaches(State(), next);
    }

    /** do_response. */
    method DoResponse(response: Response)
      requires Valid()
      modifies this`idmap, this`calls
      ensures State() == L.Step(old(State()), L.Respond(response)) && Valid()
      ensures response.id.Str? ==> response.id.s !in idmap
    {
      ghost var next := L.Step(State(), L.Respond(response));
      L.StepKeeps(State(), L.Respond(response));
      if response.id.Str? && response.id.s in idmap {
        var n := idmap[response.id.s];
        idmap := idmap - {response.id.s};
        if n < |calls| && calls[n].progress.Waiting? {
          calls := calls[n := calls[n].(progress := L.Filled(response))];
        }
      }
      Reaches(State(), next);
    }

    /** The future of a call resolves when it is polled, with the answer or because
        the connection is lost; a timed one removes its id. */
    method Poll(n: nat) returns (outcome: Option<L.Outcome>)
      requires Valid() && L.HandedOut(State(), n)
      modifies this`idmap, this`calls, ctl.rc
      ensures State() == L.Step(old(State()), L.PollCall(n)) && Valid()
      ensures outcome.Some? ==> calls == old(calls)[n := old(calls[n]).(progress := L.Done(outcome.value))]
      ensures outcome == match old(calls[n].progress)
                         case Filled(response) => Some(L.Answered(response))
                         case Cut => Some(L.Lost)
                         case _ => None
    {
      ghost var next := L.Step(State(), L.PollCall(n));
      L.StepKeeps(State(), L.PollCall(n));
      LiveCallHolds(State(), n);
      match calls[n].progress {
        case Filled(response) => outcome := Some(L.Answered(response));
        case Cut => outcome := Some(L.Lost);
        case _ => return None;
      }
      assert next == L.Resolve(State(), n, outcome.value);
      Resolve(n, outcome.value);
      Reaches(State(), next);
    }

    /** The timeout of a call wins. */
    method TimeOut(n: nat)
      requires Valid() && L.HandedOut(State(), n) && calls[n].timed
      modifies this`idmap, this`calls, ctl.rc
      ensures State() == L.Step(old(State()), L.TimeOut(n)) && Valid()
      ensures calls == old(calls[n := calls[n].(progress := L.Done(L.TimedOut))])
      ensures idmap == old(idmap - {calls[n].id}) && ctl.rc.strong == old(ctl.rc.strong) - 1
    {
      ghost var next := L.Step(State(), L.TimeOut(n));
      L.StepKeeps(State(), L.TimeOut(n));
      LiveCallHolds(State(), n);
      Resolve(n, L.TimedOut);
      Reaches(State(), next);
    }

    method Resolve(n: nat, outcome: L.Outcome)
      requires n < |calls| && ctl.rc.strong > 0 && ctl.rc.slot
      modifies this`idmap, this`calls, ctl.rc
      ensures State() == L.Resolve(old(State()), n, outcome)
      ensures ctl.rc.slot <==> ctl.rc.strong > 0
      ensures calls == old(calls[n := calls[n].(progress := L.Done(outcome))])
      ensures ctl.rc.strong == old(ctl.rc.strong) - 1
      ensures idmap == if old(calls[n].timed) then old(idmap - {calls[n].id}) else old(idmap)
    {
      if calls[n].timed {
        idmap := idmap - {calls[n].id};
      }
      calls := calls[n := calls[n].(progress := L.Done(outcome))];
      ctl.rc.DropRc();
    }

    /** Clearing the map drops the oneshots in it, which cuts the calls waiting. */
    method ClearMap()
      modifies this`idmap, this`calls
      ensures State() == L.ClearMap(old(State()))
    {
      calls := L.CutMapped(calls, idmap);
      idmap := map[];
    }

    /** The cleaner, at the end of the input. */
    method Cleaner()
      requires Valid()
      modifies this`idmap, this`calls, ctl, ctl.rc, ctl.outbound
      ensures State() == L.Step(old(State()), L.EndOfInput) && Valid()
      ensures idmap == map[] && |calls| == |old(calls)|
      ensures ctl.stop && ctl.sender == null && ctl.terminator == null
    {
      ghost var next := L.Step(State(), L.EndOfInput);
      L.StepKeeps(State(), L.EndOfInput);
      ClearMap();
      TerminateControl();
      Reaches(State(), next);
    }

    /** The sink accepts a queued message. */
    method TakeQueued()
      requires Valid() && ctl.outbound.transmit.Running? && ctl.outbound.queue != []
      modifies ctl.outbound
      ensures State() == L.Step(old(State()), L.TakeQueued) && Valid()
      ensures ctl.outbound.queue == old(ctl.outbound.queue[1..])
      ensures ctl.outbound.written == old(ctl.outbound.written) + [old(ctl.outbound.queue[0])]
    {
      ghost var next := L.Step(State(), L.TakeQueued);
      L.StepKeeps(State(), L.TakeQueued);
      ctl.outbound.written := ctl.outbound.written + [ctl.outbound.queue[0]];
      ctl.outbound.queue := ctl.outbound.queue[1..];
      Reaches(State(), next);
    }

    /** The transmitted closure, when the outbound side ends in any way; the queue
        goes with its receiver. */
    method Transmitted(ok: bool)
      requires Valid() && ctl.outbound.transmit.Running?
      modifies this`idmap, this`calls, ctl.outbound
      ensures State() == L.Step(old(State()), L.TransmitEnd(ok)) && Valid()
      ensures idmap == map[] && ctl.outbound.Channel() == L.Channel([], old(ctl.outbound.written), L.Finished(ok))
      ensures forall i | 0 <= i < |calls| :: !calls[i].progress.Waiting?
    {
      ghost var next := L.Step(State(), L.TransmitEnd(ok));
      L.StepKeeps(State(), L.TransmitEnd(ok));
      L.ClearKeeps(State());
      ClearMap();
      ctl.outbound.queue := [];
      ctl.outbound.transmit := L.Finished(ok);
      Reaches(State(), next);
    }
  }
}
