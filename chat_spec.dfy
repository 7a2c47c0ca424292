/** The chat-session state of renderer.js with the DOM taken away, and one
    function per operation giving the state it leaves behind. Outbound IPC
    is recorded in `outbox`; the runtime's timer queue is `pendingTimers`. */
module ChatSpec {
  import opened Wrappers
  import opened Text
  import opened Devices

  /** A message sent to the main process over IPC. */
  datatype Outbound =
    | SendRequest(phoneId: string, message: string)  // 'send-message'
    | CancelRequest(cancelled: Option<string>)       // 'cancel-message'
    | DevicesRequest                                 // 'get-devices'

  /** The module-level variables of renderer.js:4-8, the text in the message
      box, the timers the runtime still has to run (with the id it hands out
      next), and the log of outbound IPC. */
  datatype State = State(
    phones: seq<Phone>,
    currentPhoneId: Option<string>,
    isSending: bool,
    sendTimeout: Option<nat>,
    pendingTimers: set<nat>,
    nextTimer: nat,
    input: string,
    outbox: seq<Outbound>)

  /** The system entry shown when a send is aborted (renderer.js:172). */
  const CancelNotice: string := "当前操作已中止"

  /** JavaScript truthiness of `currentPhoneId`: `null` and `''` are falsy. */
  predicate Truthy(id: Option<string>) {
    id.Some? && id.value != ""
  }

  /** The state once the script has loaded: no devices, nothing selected,
      not sending, and the first `get-devices` request sent (renderer.js:253). */
  function Init(): State {
    State([], None, false, None, {}, 1, "", [DevicesRequest])
  }

  /** The invariant every reachable state keeps: a send in flight has a
      device selected and its auto-reset timer still queued; timer ids in use
      were handed out before. */
  ghost predicate Inv(s: State) {
    (s.isSending ==> s.currentPhoneId.Some? && s.sendTimeout.Some?
                     && s.sendTimeout.value in s.pendingTimers)
    && (s.sendTimeout.Some? ==> s.sendTimeout.value < s.nextTimer)
    && (forall t :: t in s.pendingTimers ==> t < s.nextTimer)
  }

  /** `updateInputState` (renderer.js:135-139): the box and the button are
      enabled exactly when some id is selected, even the empty one. */
  predicate InputEnabled(s: State) {
    s.currentPhoneId.Some?
  }

  /** `selectPhone(phoneId)` (renderer.js:42-51). */
  function SelectPhone(s: State, phoneId: string): State {
    s.(currentPhoneId := Some(phoneId))
  }

  /** Typing into the message box. */
  function SetInput(s: State, text: string): State {
    s.(input := text)
  }

  /** `resetSendButton` (renderer.js:183-187). */
  function ResetSendButton(s: State): State {
    s.(isSending := false)
  }

  /** `showCancelMessage` (renderer.js:166-180): the notice goes to the device
      selected NOW, if the list holds it. */
  function ShowCancelMessage(s: State, time: string): State {
    match s.currentPhoneId
    case None => s
    case Some(id) => s.(phones := PushTo(s.phones, id, Message(System, CancelNotice, time)))
  }

  /** The `if (sendTimeout) { clearTimeout(...); sendTimeout = null; }` step
      of `cancelSend` (renderer.js:150-153). */
  function ClearSendTimeout(s: State): State {
    match s.sendTimeout
    case None => s
    case Some(t) => s.(pendingTimers := s.pendingTimers - {t}, sendTimeout := None)
  }

  /** `cancelSend` (renderer.js:149-163). */
  function CancelSend(s: State, time: string): State {
    var r := ResetSendButton(ClearSendTimeout(s));
    var r := r.(outbox := r.outbox + [CancelRequest(r.currentPhoneId)]);
    ShowCancelMessage(r, time)
  }

  /** `sendMessage` (renderer.js:91-132): cancel while a send is in flight;
      otherwise append the trimmed text as a user entry, clear the box, mark
      the send in flight, emit 'send-message' and queue the auto-reset timer. */
  function SendMessage(s: State, time: string): State {
    var message := Trim(s.input);
    if s.isSending then CancelSend(s, time)
    else if message == [] || !Truthy(s.currentPhoneId) then s
    else
      var id := s.currentPhoneId.value;
      match Find(s.phones, id)
      case None => s
      case Some(i) =>
        s.(phones := PushAt(s.phones, i, Message(User, message, time)),
           input := "",
           isSending := true,
           outbox := s.outbox + [SendRequest(id, message)],
           sendTimeout := Some(s.nextTimer),
           pendingTimers := s.pendingTimers + {s.nextTimer},
           nextTimer := s.nextTimer + 1)
  }

  /** The 'receive-message' handler (renderer.js:190-207). */
  function ReceiveMessage(s: State, phoneId: string, message: string, time: string): State {
    match Find(s.phones, phoneId)
    case None => s
    case Some(i) =>
      ResetSendButton(s.(phones := PushAt(s.phones, i, Message(Ai, message, time))))
  }

  /** The 'devices-list' handler (renderer.js:221-224). */
  function DevicesList(s: State, devices: seq<Phone>): State {
    s.(phones := devices)
  }

  /** The runtime runs timer `t` if it is still queued; the callback queued
      by `sendMessage` only calls `resetSendButton` (renderer.js:129-131). */
  function FireTimer(s: State, t: nat): State {
    if t in s.pendingTimers then ResetSendButton(s.(pendingTimers := s.pendingTimers - {t}))
    else s
  }

  /** `fetchDevices` (renderer.js:216-218). */
  function FetchDevices(s: State): State {
    s.(outbox := s.outbox + [DevicesRequest])
  }

  // ---------------------------------------------------------------------
  // What each operation does

  /** Pressing send while a send is in flight cancels it, whatever the box
      holds: no user entry, nothing in flight, the timer cleared, and one
      'cancel-message' for the selected device. The only transcript change
      is the cancel notice on the selected device. */
  lemma SendWhileSendingCancels(s: State, time: string)
    requires Inv(s) && s.isSending
    ensures var r := SendMessage(s, time);
      && !r.isSending
      && r.sendTimeout.None?
      && r.pendingTimers == s.pendingTimers - {s.sendTimeout.value}
      && r.outbox == s.outbox + [CancelRequest(s.currentPhoneId)]
      && r.currentPhoneId.Some?
      && r.input == s.input
      && r.phones == PushTo(s.phones, s.currentPhoneId.value, Message(System, CancelNotice, time))
      && (forall other :: other != s.currentPhoneId.value ==>
            Transcript(r.phones, other) == Transcript(s.phones, other))
      && Transcript(r.phones, s.currentPhoneId.value)
         == Transcript(s.phones, s.currentPhoneId.value)
            + (if Known(s.phones, s.currentPhoneId.value)
               then [Message(System, CancelNotice, time)] else [])
  {
    PushToTranscripts(s.phones, s.currentPhoneId.value, Message(System, CancelNotice, time));
  }

  /** The cancel path emits its 'cancel-message', drops the queued timer and
      resets the flag even when the selected device is gone from the list;
      then it appends nothing. Otherwise the notice is appended to the
      selected device, and no other transcript changes. */
  lemma CancelNoticeOnlyIfKnown(s: State, time: string)
    ensures var r := CancelSend(s, time);
      && !r.isSending && r.sendTimeout.None?
      && r.pendingTimers
         == (if s.sendTimeout.Some? then s.pendingTimers - {s.sendTimeout.value} else s.pendingTimers)
      && r.currentPhoneId == s.currentPhoneId && r.input == s.input
      && r.outbox == s.outbox + [CancelRequest(s.currentPhoneId)]
      && (s.currentPhoneId.Some? ==>
            var id := s.currentPhoneId.value;
            && Transcript(r.phones, id)
               == Transcript(s.phones, id)
                  + (if Known(s.phones, id) then [Message(System, CancelNotice, time)] else [])
            && forall other :: other != id ==>
                 Transcript(r.phones, other) == Transcript(s.phones, other))
      && (r.phones == s.phones <==>
            (s.currentPhoneId.None? || !Known(s.phones, s.currentPhoneId.value)))
      && TotalMessages(r.phones)
         == TotalMessages(s.phones)
            + (if s.currentPhoneId.Some? && Known(s.phones, s.currentPhoneId.value) then 1 else 0)
  {
    if s.currentPhoneId.Some? {
      PushToTotal(s.phones, s.currentPhoneId.value, Message(System, CancelNotice, time));
      PushToTranscripts(s.phones, s.currentPhoneId.value, Message(System, CancelNotice, time));
    }
  }

  /** `sendMessage` leaves the state exactly as it was if and only if no send
      is in flight and the trimmed text is empty, no id is selected, or the
      selected id names no device (renderer.js:92, 99-102). */
  lemma SendNoOpExactly(s: State, time: string)
    ensures SendMessage(s, time) == s <==>
      !s.isSending
      && (AllSpace(s.input) || !Truthy(s.currentPhoneId)
          || !Known(s.phones, s.currentPhoneId.value))
  {
    if s.isSending {
      assert |CancelSend(s, time).outbox| == |s.outbox| + 1;
    } else if Trim(s.input) != [] && Truthy(s.currentPhoneId) && Known(s.phones, s.currentPhoneId.value) {
      assert |SendMessage(s, time).outbox| == |s.outbox| + 1;
    }
  }

  /** A send that gets through appends exactly one user entry holding the
      trimmed text at the end of the selected device's transcript, touches no
      other device, and emits exactly one 'send-message'. */
  lemma SendSuccess(s: State, time: string)
    requires !s.isSending && !AllSpace(s.input)
    requires Truthy(s.currentPhoneId) && Known(s.phones, s.currentPhoneId.value)
    ensures var r := SendMessage(s, time);
      var id := s.currentPhoneId.value;
      var m := Message(User, Trim(s.input), time);
      && AppendedOne(s.phones, r.phones, Find(s.phones, id).value, m)
      && Transcript(r.phones, id) == Transcript(s.phones, id) + [m]
      && (forall other :: other != id ==> Transcript(r.phones, other) == Transcript(s.phones, other))
      && r.isSending
      && r.input == ""
      && r.outbox == s.outbox + [SendRequest(id, Trim(s.input))]
      && r.sendTimeout == Some(s.nextTimer)
      && r.pendingTimers == s.pendingTimers + {s.nextTimer}
      && r.currentPhoneId == s.currentPhoneId
  {
    var id := s.currentPhoneId.value;
    var m := Message(User, Trim(s.input), time);
    PushAtAppendsOne(s.phones, Find(s.phones, id).value, m);
    PushToTranscripts(s.phones, id, m);
  }

  /** A reply for an id not in the list changes nothing, not even the flag:
      the handler returns before `resetSendButton` (renderer.js:191-192). */
  lemma ReceiveUnknownIsNoOp(s: State, phoneId: string, message: string, time: string)
    requires !Known(s.phones, phoneId)
    ensures ReceiveMessage(s, phoneId, message, time) == s
  {
  }

  /** A reply for a listed id appends exactly one AI entry to that device,
      whichever device is selected, clears the flag, and leaves the queued
      timer and `sendTimeout` alone (renderer.js:190-206). */
  lemma ReceiveKnown(s: State, phoneId: string, message: string, time: string)
    requires Known(s.phones, phoneId)
    ensures var r := ReceiveMessage(s, phoneId, message, time);
      && Transcript(r.phones, phoneId) == Transcript(s.phones, phoneId) + [Message(Ai, message, time)]
      && (forall other :: other != phoneId ==> Transcript(r.phones, other) == Transcript(s.phones, other))
      && !r.isSending
      && r.sendTimeout == s.sendTimeout
      && r.pendingTimers == s.pendingTimers
      && r.currentPhoneId == s.currentPhoneId
      && r.outbox == s.outbox
  {
    PushToTranscripts(s.phones, phoneId, Message(Ai, message, time));
  }

  /** `resetSendButton`, and a timer that runs it, only clear the flag, and
      doing it twice is doing it once. */
  lemma ResetIdempotent(s: State, t: nat)
    ensures ResetSendButton(ResetSendButton(s)) == ResetSendButton(s)
    ensures var r := ResetSendButton(s);
      && !r.isSending
      && r.phones == s.phones && r.currentPhoneId == s.currentPhoneId
      && r.sendTimeout == s.sendTimeout && r.pendingTimers == s.pendingTimers
      && r.nextTimer == s.nextTimer && r.input == s.input && r.outbox == s.outbox
    ensures FireTimer(FireTimer(s, t), t) == FireTimer(s, t)
    ensures var r := FireTimer(s, t);
      && (!r.isSending <==> (t in s.pendingTimers || !s.isSending))
      && r.pendingTimers == s.pendingTimers - {t}
      && r.phones == s.phones && r.currentPhoneId == s.currentPhoneId
      && r.sendTimeout == s.sendTimeout && r.nextTimer == s.nextTimer
      && r.input == s.input && r.outbox == s.outbox
  {
  }

  /** A refresh replaces the list wholesale: what was there before, its
      transcripts included, is gone; the selection and the flag stay. */
  lemma DevicesListReplaces(s: State, devices: seq<Phone>)
    ensures var r := DevicesList(s, devices);
      && r.phones == devices
      && r.currentPhoneId == s.currentPhoneId && r.isSending == s.isSending
  {
  }

  /** Selecting stores the id without checking that the list holds it, and
      enables input; transcripts and the flag are untouched. */
  lemma SelectPhoneSetsOnly(s: State, phoneId: string)
    ensures var r := SelectPhone(s, phoneId);
      && r.currentPhoneId == Some(phoneId)
      && InputEnabled(r)
      && r.phones == s.phones && r.isSending == s.isSending
      && r.outbox == s.outbox
  {
  }
}
