/** renderer.js as an object: its module-level variables become the fields of
    `ChatWindow`, its functions and IPC handlers become methods, and each
    method is proved to leave the state that the matching `ChatSpec`
    function describes. */
module Renderer {
  import opened Wrappers
  import opened Text
  import opened Devices
  import opened ChatSpec

  class ChatWindow {
    var phones: seq<Phone>
    var currentPhoneId: Option<string>
    var isSending: bool
    var sendTimeout: Option<nat>
    /** The runtime's queue of timers not yet run or cleared, and the id the
        next `setTimeout` hands out. */
    var pendingTimers: set<nat>
    var nextTimer: nat
    /** `messageInput.value`. */
    var input: string
    /** Every message sent to the main process, oldest first. */
    var outbox: seq<Outbound>

    function View(): State
      reads this
    {
      State(phones, currentPhoneId, isSending, sendTimeout, pendingTimers, nextTimer, input, outbox)
    }

    ghost predicate Valid()
      reads this
    {
      Inv(View())
    }

    /** Loading the script: the variables of renderer.js:4-8 and the first
        device poll (renderer.js:253). */
    constructor ()
      ensures Valid() && View() == Init()
    {
      phones := [];
      currentPhoneId := None;
      isSending := false;
      sendTimeout := None;
      pendingTimers := {};
      nextTimer := 1;
      input := "";
      outbox := [];
      new;
      FetchDevices();
    }

    method FetchDevices()
      requires Valid()
      modifies this
      ensures Valid() && View() == ChatSpec.FetchDevices(old(View()))
    {
      outbox := outbox + [DevicesRequest];
    }

    method SelectPhone(phoneId: string)
      requires Valid()
      modifies this
      ensures Valid() && View() == ChatSpec.SelectPhone(old(View()), phoneId)
    {
      currentPhoneId := Some(phoneId);
    }

    method SetInput(text: string)
      requires Valid()
      modifies this
      ensures Valid() && View() == ChatSpec.SetInput(old(View()), text)
    {
      input := text;
    }

    method ResetSendButton()
      modifies this
      ensures View() == ChatSpec.ResetSendButton(old(View()))
    {
      isSending := false;
    }

    /** The runtime's `setTimeout`: queue a timer under a new id. */
    method SetTimeout() returns (t: nat)
      requires forall x :: x in pendingTimers ==> x < nextTimer
      modifies this
      ensures t == old(nextTimer) && t !in old(pendingTimers)
      ensures View() == old(View()).(pendingTimers := old(pendingTimers) + {t}, nextTimer := t + 1)
    {
      t := nextTimer;
      pendingTimers := pendingTimers + {t};
      nextTimer := nextTimer + 1;
    }

    /** The runtime's `clearTimeout`: drop the timer if it is still queued. */
    method ClearTimeout(t: nat)
      modifies this
      ensures View() == old(View()).(pendingTimers := old(pendingTimers) - {t})
    {
      pendingTimers := pendingTimers - {t};
    }

    method ShowCancelMessage(time: string)
      requires Valid()
      modifies this
      ensures Valid() && View() == ChatSpec.ShowCancelMessage(old(View()), time)
    {
      if currentPhoneId.None? {
        return;
      }
      var found := Find(phones, currentPhoneId.value);
      if found.None? {
        return;
      }
      phones := PushAt(phones, found.value, Message(System, CancelNotice, time));
    }

    method CancelSend(time: string)
      requires Valid()
      modifies this
      ensures Valid() && View() == ChatSpec.CancelSend(old(View()), time)
    {
      if sendTimeout.Some? {
        ClearTimeout(sendTimeout.value);
        sendTimeout := None;
      }
      ResetSendButton();
      outbox := outbox + [CancelRequest(currentPhoneId)];
      ShowCancelMessage(time);
    }

    /** Enter or the send button. */
    method SendMessage(time: string)
      requires Valid()
      modifies this
      ensures Valid() && View() == ChatSpec.SendMessage(old(View()), time)
    {
      var message := Trim(input);
      if isSending {
        CancelSend(time);
        return;
      }
      if message == [] || !Truthy(currentPhoneId) {
        return;
      }
      var found := Find(phones, currentPhoneId.value);
      if found.None? {
        return;
      }
      phones := PushAt(phones, found.value, Message(User, message, time));
      input := "";
      isSending := true;
      outbox := outbox + [SendRequest(currentPhoneId.value, message)];
      var t := SetTimeout();
      sendTimeout := Some(t);
    }

    /** The 'receive-message' handler. */
    method ReceiveMessage(phoneId: string, message: string, time: string)
      requires Valid()
      modifies this
      ensures Valid() && View() == ChatSpec.ReceiveMessage(old(View()), phoneId, message, time)
    {
      var found := Find(phones, phoneId);
      if found.None? {
        return;
      }
      phones := PushAt(phones, found.value, Message(Ai, message, time));
      ResetSendButton();
    }

    /** The 'devices-list' handler. */
    method DevicesList(devices: seq<Phone>)
      requires Valid()
      modifies this
      ensures Valid() && View() == ChatSpec.DevicesList(old(View()), devices)
    {
      phones := devices;
    }

    /** The runtime runs timer `t`, if it is still queued; every timer the
        renderer queues runs `resetSendButton`. */
    method FireTimer(t: nat)
      requires Valid()
      modifies this
      ensures Valid() && View() == ChatSpec.FireTimer(old(View()), t)
    {
      if t !in pendingTimers {
        return;
      }
      pendingTimers := pendingTimers - {t};
      ResetSendButton();
    }
  }
}
