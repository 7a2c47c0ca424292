/** Runs of the renderer: every event it reacts to, one step at a time, and
    what holds over whole runs. */
module Traces {
  import opened Wrappers
  import opened Text
  import opened Devices
  import opened ChatSpec

  /** Everything that can happen to the renderer: a click on a device, typing,
      Enter or the send button, an inbound IPC event, a timer running, and a
      device poll. */
  datatype Event =
    | Select(phoneId: string)
    | Type(text: string)
    | Press(time: string)
    | Receive(from: string, message: string, at: string)
    | Refresh(devices: seq<Phone>)
    | Fire(timer: nat)
    | Poll

  function Step(s: State, e: Event): State {
    match e
    case Select(id) => SelectPhone(s, id)
    case Type(text) => SetInput(s, text)
    case Press(time) => SendMessage(s, time)
    case Receive(id, message, time) => ReceiveMessage(s, id, message, time)
    case Refresh(devices) => DevicesList(s, devices)
    case Fire(t) => FireTimer(s, t)
    case Poll => FetchDevices(s)
  }

  function Run(s: State, events: seq<Event>): State
    decreases |events|
  {
    if events == [] then s else Run(Step(s, events[0]), events[1..])
  }

  predicate NoRefresh(events: seq<Event>) {
    forall k :: 0 <= k < |events| ==> !events[k].Refresh?
  }

  /** Every step keeps the invariant. */
  lemma StepInv(s: State, e: Event)
    requires Inv(s)
    ensures Inv(Step(s, e))
  {
  }

  lemma {:induction false} RunInv(s: State, events: seq<Event>)
    requires Inv(s)
    ensures Inv(Run(s, events))
    decreases |events|
  {
    if events != [] {
      StepInv(s, events[0]);
      RunInv(Step(s, events[0]), events[1..]);
    }
  }

  /** Every reachable state keeps the invariant: in particular a send in
      flight always has its auto-reset timer queued. */
  lemma Reachable(events: seq<Event>)
    ensures Inv(Run(Init(), events))
  {
    RunInv(Init(), events);
  }

  /** Apart from a refresh, a step only appends to transcripts, and at most
      one entry over all devices. */
  lemma StepOnlyAppendsOne(s: State, e: Event)
    requires !e.Refresh?
    ensures OnlyAppended(s.phones, Step(s, e).phones)
    ensures TotalMessages(Step(s, e).phones) <= TotalMessages(s.phones) + 1
  {
    var r := Step(s, e);
    match e
    case Press(time) =>
      if s.isSending {
        if s.currentPhoneId.Some? {
          var m := Message(System, CancelNotice, time);
          PushToTranscripts(s.phones, s.currentPhoneId.value, m);
          PushToTotal(s.phones, s.currentPhoneId.value, m);
        }
      } else if r.phones != s.phones {
        var id := s.currentPhoneId.value;
        var i := Find(s.phones, id).value;
        PushAtAppendsOne(s.phones, i, Message(User, Trim(s.input), time));
        PushAtTotal(s.phones, i, Message(User, Trim(s.input), time));
      }
    case Receive(id, message, time) =>
      PushToTranscripts(s.phones, id, Message(Ai, message, time));
      PushToTotal(s.phones, id, Message(Ai, message, time));
    case _ =>
  }

  /** Over any run without a refresh, no transcript entry is ever removed or
      edited: each transcript only grows at its end. */
  lemma {:induction false} RunOnlyAppends(s: State, events: seq<Event>)
    requires NoRefresh(events)
    ensures OnlyAppended(s.phones, Run(s, events).phones)
    decreases |events|
  {
    if events == [] {
      OnlyAppendedRefl(s.phones);
    } else {
      StepOnlyAppendsOne(s, events[0]);
      assert NoRefresh(events[1..]) by {
        forall k | 0 <= k < |events[1..]| ensures !events[1..][k].Refresh? {
          assert events[1..][k] == events[k + 1];
        }
      }
      RunOnlyAppends(Step(s, events[0]), events[1..]);
      OnlyAppendedTrans(s.phones, Step(s, events[0]).phones, Run(s, events).phones);
    }
  }

  /** Over a run without a refresh, the transcripts grow by at most one entry
      per event. */
  lemma {:induction false} RunAppendsAtMostOnePerEvent(s: State, events: seq<Event>)
    requires NoRefresh(events)
    ensures TotalMessages(Run(s, events).phones) <= TotalMessages(s.phones) + |events|
    decreases |events|
  {
    if events != [] {
      StepOnlyAppendsOne(s, events[0]);
      assert NoRefresh(events[1..]) by {
        forall k | 0 <= k < |events[1..]| ensures !events[1..][k].Refresh? {
          assert events[1..][k] == events[k + 1];
        }
      }
      RunAppendsAtMostOnePerEvent(Step(s, events[0]), events[1..]);
    }
  }

  /** Once a device has been selected, input stays enabled for good: no
      operation sets `currentPhoneId` back to `null`. */
  lemma {:induction false} InputStaysEnabled(s: State, events: seq<Event>)
    requires InputEnabled(s)
    ensures InputEnabled(Run(s, events))
    decreases |events|
  {
    if events != [] {
      InputStaysEnabled(Step(s, events[0]), events[1..]);
    }
  }

  /** Only a send that gets through sets the flag: it then also queued a
      fresh timer and emitted a 'send-message'. */
  lemma OnlySendSetsFlag(s: State, e: Event)
    requires !s.isSending && Step(s, e).isSending
    ensures e.Press?
    ensures Truthy(s.currentPhoneId) && Known(s.phones, s.currentPhoneId.value)
    ensures Step(s, e).outbox == s.outbox + [SendRequest(s.currentPhoneId.value, Trim(s.input))]
    ensures Step(s, e).sendTimeout == Some(s.nextTimer)
    ensures Step(s, e).pendingTimers == s.pendingTimers + {s.nextTimer}
  {
  }

  /** A device that drops out of one poll and returns in the next comes back
      with whatever transcript the new list carries: the earlier one is lost. */
  lemma RefreshDropsHistory(s: State, d: Phone)
    requires |Transcript(s.phones, d.id)| > 0 && d.messages == []
    ensures var r := Step(Step(s, Refresh([])), Refresh([d]));
      Transcript(r.phones, d.id) == [] != Transcript(s.phones, d.id)
  {
  }

  /** The auto-reset timer of an answered send stays queued, so it can end a
      LATER send early: after a reply, a second send is in flight, and when
      the first timer runs the flag drops although no reply to the second
      send has come. */
  lemma StaleTimerEndsLaterSend(d: Phone)
    requires d.id != ""
    ensures var s1 := Step(Step(Step(Step(Init(), Refresh([d])), Select(d.id)), Type("a")), Press("t0"));
      var s2 := Step(Step(Step(s1, Receive(d.id, "r", "t1")), Type("b")), Press("t2"));
      && s1.isSending && s1.sendTimeout == Some(1)
      && s2.isSending && s2.sendTimeout == Some(2) && 1 in s2.pendingTimers
      && |s2.outbox| == 3 && s2.outbox[2] == SendRequest(d.id, "b")
      && !FireTimer(s2, 1).isSending && FireTimer(s2, 1).outbox == s2.outbox
  {
    assert Trim("a") == "a" by { assert SkipSpace("a", 1) == 1; assert SkipSpace("a", 0) == 0; }
    assert Trim("b") == "b" by { assert SkipSpace("b", 1) == 1; assert SkipSpace("b", 0) == 0; }
    var s := Step(Step(Step(Init(), Refresh([d])), Select(d.id)), Type("a"));
    assert Find(s.phones, d.id) == Some(0);
    var s1 := Step(s, Press("t0"));
    assert s1.isSending && s1.sendTimeout == Some(1) && s1.pendingTimers == {1};
    assert |s1.phones| == 1 && s1.phones[0].id == d.id;
    var s2 := Step(Step(s1, Receive(d.id, "r", "t1")), Type("b"));
    assert !s2.isSending && s2.pendingTimers == {1} && s2.nextTimer == 2;
    assert Find(s2.phones, d.id) == Some(0);
  }
}
