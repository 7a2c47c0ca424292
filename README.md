# Chat sessions of the AI Phone Agent renderer

The AI Phone Agent desktop window lists the Android devices attached over ADB
and keeps one chat transcript per device. Its renderer script holds the whole
chat-session state in four module-level variables:

- `phones`: the device list, where each device carries its transcript `messages`;
- `currentPhoneId`: the selected device;
- `isSending`: whether a send is in flight;
- `sendTimeout`: the 5-second auto-reset timer of the last send.

Its operations change that state:

- selecting a device;
- sending, which doubles as cancel while a send is in flight;
- the cancel notice;
- resetting the send button;
- the `receive-message` and `devices-list` IPC handlers;
- the timer callback.

This project models that state machine with the DOM taken away:

- `Text`: ECMAScript `trim` over the exact WhiteSpace and LineTerminator set.
- `Devices`: devices, transcript entries, `phones.find` (first match by id), and
  pushing one entry onto one device.
- `ChatSpec`: the state as a value, one function per operation, and lemmas
  stating what each operation does (guards, appends, flag and timer changes).
  Outbound IPC (`send-message`, `cancel-message`, `get-devices`) is an
  appended log. The runtime's timer queue is part of the state.
- `Traces`: events, runs, the invariant every reachable state keeps, and facts
  over whole runs. Transcripts only grow at their end between refreshes. At most
  one entry is added per event. Input stays enabled once a device was selected.
  A refresh drops history. A stale timer can end a later send.
- `Renderer.ChatWindow`: the renderer as a class, with one field per variable
  and one method per operation. Each operation method ensures that its new
  state is the matching `ChatSpec` function of its old state, and keeps the
  invariant. `ResetSendButton` runs in the middle of a cancel, where the
  invariant is briefly broken, so it states only its new state. The runtime
  helpers `SetTimeout` and `ClearTimeout` have no `ChatSpec` function; they
  state their effect on the timer queue directly.

A `devices-list` event replaces the list wholesale, with no merge
by id. So a device that leaves and returns loses its transcript
(`RefreshDropsHistory`). A reply does not cancel the pending timer, so the
timer of an answered send can end a later send early
(`StaleTimerEndsLaterSend`). The cancel notice goes to the device selected at
cancel time, not the one the send went to. `currentPhoneId` is checked for
truthiness when sending, so an empty id blocks a send. It is compared against
`null` when enabling input, so an empty id still enables input.

## Model

| member | source | states |
|---|---|---|
| `Text.Trim` | renderer.js:92 | the trimmed text is a contiguous piece of the input with no white space at either end; everything stripped is white space; it is empty exactly when the input is all white space |
| `Text.TrimIdempotent` | renderer.js:92 | trimming an already trimmed text changes nothing |
| `Text.TrimKeepsInnerSpace` | renderer.js:92 | for every input, only the ends are stripped: each character between the first and last non-space one, inner spaces included, stays in place |
| `Text.TrimExample` | renderer.js:92 | an example: `"  hello world\n"` trims to `"hello world"` |
| `Devices.Find` | renderer.js:101 | `phones.find` by id gives the first device with that id, and nothing exactly when no device has it |
| `Devices.FindSameIds` | renderer.js:191 | lookup by id depends only on the ids in the list, so pushing entries never changes which device an id resolves to |
| `Devices.PushAtAppendsOne` | renderer.js:110 | `phone.messages.push` adds exactly one entry at the end of one device's transcript and changes no other device or field |
| `Devices.PushToTranscripts` | renderer.js:167-175 | find-then-push extends the transcript of that id by the one entry when the id is listed, by nothing otherwise, and leaves every other id's transcript unchanged |
| `Devices.PushAtTotal` | renderer.js:199 | one push adds exactly one entry over all devices |
| `Devices.PushToTotal` | renderer.js:191-199 | find-then-push adds one entry when the id is listed and none otherwise |
| `ChatSpec.SendWhileSendingCancels` | renderer.js:95-98 | sending while a send is in flight appends no user entry; it clears the flag and the timer and emits one `cancel-message` for the selected id; the only transcript change is the cancel notice on the selected device |
| `ChatSpec.CancelNoticeOnlyIfKnown` | renderer.js:149-180 | cancelling always resets the flag, nulls `sendTimeout`, drops that timer from the queue and emits `cancel-message` for the selected id; it appends the cancel notice to the selected device exactly when that id is listed, leaves every other transcript unchanged, and otherwise leaves the list unchanged |
| `ChatSpec.SendNoOpExactly` | renderer.js:92-102 | a send changes nothing if and only if no send is in flight and the trimmed text is empty, no truthy id is selected, or the selected id is not listed |
| `ChatSpec.SendSuccess` | renderer.js:104-131 | a send that gets through appends exactly one user entry with the trimmed text to the selected device only; it clears the box, sets the flag, emits one `send-message` with the id and text, and queues a new timer |
| `ChatSpec.ReceiveUnknownIsNoOp` | renderer.js:190-192 | a reply for an unlisted id changes nothing, not even the flag |
| `ChatSpec.ReceiveKnown` | renderer.js:190-206 | a reply for a listed id appends one AI entry to that device whichever is selected; other transcripts stay; it clears the flag but leaves the timer and `sendTimeout` alone |
| `ChatSpec.ResetIdempotent` | renderer.js:183-187 | resetting clears the flag, keeps every other field and is idempotent; a timer firing drops that timer from the queue, clears the flag only if the timer was still queued, keeps every other field (`sendTimeout` included) and is idempotent |
| `ChatSpec.DevicesListReplaces` | renderer.js:221-224 | a refresh replaces the list and all transcripts with the new list, keeping selection and flag |
| `ChatSpec.SelectPhoneSetsOnly` | renderer.js:42-51 | selecting stores the id unchecked and enables input, with transcripts, flag and log unchanged |
| `ChatSpec.Truthy` | renderer.js:99 | JavaScript truthiness of the selected id: false for `null` and for the empty id |
| `ChatSpec.InputEnabled` | renderer.js:135-139 | `updateInputState`: the box and the button are enabled exactly when the selected id is not `null`, the empty id included |
| `ChatSpec.Init` | renderer.js:4-8 | the state after loading: no devices, nothing selected, not sending, no timer, and the first `get-devices` request of renderer.js:253 |
| `ChatSpec.SelectPhone` | renderer.js:42-51 | the new state stores the id as selected, unchecked, and changes nothing else |
| `ChatSpec.SetInput` | renderer.js:92 | the new state holds the typed text as the value of the message box that a send reads |
| `ChatSpec.ResetSendButton` | renderer.js:183-187 | the new state has the flag cleared and nothing else changed |
| `ChatSpec.ShowCancelMessage` | renderer.js:166-180 | the cancel notice is pushed onto the device whose id is selected now, if the list holds it; with no such device nothing changes |
| `ChatSpec.ClearSendTimeout` | renderer.js:150-153 | if `sendTimeout` holds a timer, that timer leaves the queue and `sendTimeout` becomes `null`; otherwise nothing changes |
| `ChatSpec.CancelSend` | renderer.js:149-163 | clear the timer, reset the flag, emit `cancel-message` with the selected id, then show the cancel notice |
| `ChatSpec.SendMessage` | renderer.js:91-132 | cancel while a send is in flight; otherwise do nothing on empty trimmed text, a falsy id or an unlisted id; otherwise push the user entry, clear the box, set the flag, emit `send-message` and queue a new timer in `sendTimeout` |
| `ChatSpec.ReceiveMessage` | renderer.js:190-207 | for a listed id push the AI entry onto that device and clear the flag; for an unlisted id nothing changes |
| `ChatSpec.DevicesList` | renderer.js:221-224 | the list is replaced by the new one and nothing else changes |
| `ChatSpec.FireTimer` | renderer.js:129-131 | a queued timer leaves the queue and clears the flag; a timer no longer queued changes nothing; `sendTimeout` is never touched |
| `ChatSpec.FetchDevices` | renderer.js:216-218 | one `get-devices` request is appended to the log |
| `Renderer.ChatWindow.SetInput` | renderer.js:92 | leaves the state `ChatSpec.SetInput` describes, the new value of the message box, and keeps the invariant |
| `Traces.StepInv` | renderer.js:117-131 | every event keeps the invariant: while a send is in flight a device is selected and its auto-reset timer is queued |
| `Traces.RunInv` | renderer.js:117-131 | the invariant holds after any run from a state that has it |
| `Traces.Reachable` | renderer.js:4-8 | every state reachable from the initial one keeps the invariant, so a send in flight always has a queued timer that will clear it |
| `Traces.StepOnlyAppendsOne` | renderer.js:104-206 | apart from a refresh, every event only appends to transcripts and adds at most one entry in all |
| `Traces.RunOnlyAppends` | renderer.js:110 | over any run without a refresh, no entry is removed or edited; each transcript grows only at its end |
| `Traces.RunAppendsAtMostOnePerEvent` | renderer.js:175 | over a run without a refresh, the total grows by at most one entry per event |
| `Traces.InputStaysEnabled` | renderer.js:135-139 | once a device is selected, input stays enabled through any run |
| `Traces.OnlySendSetsFlag` | renderer.js:117-131 | only a send that gets through sets the flag, and it then emitted `send-message`, stored the new timer in `sendTimeout` and added it to the timer queue |
| `Traces.RefreshDropsHistory` | renderer.js:221-224 | a device absent from one refresh and back in the next loses its earlier transcript |
| `Traces.StaleTimerEndsLaterSend` | renderer.js:128-131 | the timer of an answered send stays queued, and firing it clears the flag while a later send is still unanswered |
| `Renderer.ChatWindow.constructor` | renderer.js:4-8 | loading starts with no devices, nothing selected, not sending, no timer, and one `get-devices` request |
| `Renderer.ChatWindow.FetchDevices` | renderer.js:216-218 | appends one `get-devices` request |
| `Renderer.ChatWindow.SelectPhone` | renderer.js:42-51 | leaves the state `ChatSpec.SelectPhone` describes and keeps the invariant |
| `Renderer.ChatWindow.ResetSendButton` | renderer.js:183-187 | clears the flag and nothing else |
| `Renderer.ChatWindow.SetTimeout` | renderer.js:129-131 | given that every queued id is below the next id, queues one timer under an id not already queued and returns that id |
| `Renderer.ChatWindow.ClearTimeout` | renderer.js:150-153 | drops the given timer from the queue and nothing else |
| `Renderer.ChatWindow.ShowCancelMessage` | renderer.js:166-180 | leaves the state `ChatSpec.ShowCancelMessage` describes, the notice on the selected device if listed, and keeps the invariant |
| `Renderer.ChatWindow.CancelSend` | renderer.js:149-163 | leaves the state `ChatSpec.CancelSend` describes and keeps the invariant |
| `Renderer.ChatWindow.SendMessage` | renderer.js:91-132 | leaves the state `ChatSpec.SendMessage` describes and keeps the invariant |
| `Renderer.ChatWindow.ReceiveMessage` | renderer.js:190-207 | leaves the state `ChatSpec.ReceiveMessage` describes and keeps the invariant |
| `Renderer.ChatWindow.DevicesList` | renderer.js:221-224 | leaves the state `ChatSpec.DevicesList` describes and keeps the invariant |
| `Renderer.ChatWindow.FireTimer` | renderer.js:129-131 | leaves the state `ChatSpec.FireTimer` describes and keeps the invariant |

## Left out

- Rendering: the HTML built by `renderPhoneList` and `renderChat`, scrolling, button text and classes, placeholders and the textarea height (renderer.js:17-88, 236-239). These are presentation only.
- `getCurrentTime` reads the wall clock (renderer.js:210-213). Every appending operation takes the time text as a parameter instead.
- The Electron IPC transport and the event-listener wiring (renderer.js:1, 242-250). Outbound messages are a log. Inbound events, key presses and clicks are method calls.
- The 30-second `setInterval` poll (renderer.js:256). `FetchDevices` is the step it runs. Real timer scheduling is also left out: a timer firing is the explicit `FireTimer` step, and timer ids are handed out in sequence.
- The `device-connected` handler (renderer.js:227-233). It only writes to the console.
- main.js is window lifecycle plus a `send-message` stub that replies `AI 响应: ${message}` after one second (main.js:47-55). That reply is one possible content for `ReceiveMessage`. main.js answers neither `get-devices` nor `cancel-message`, so the producer of `devices-list` is outside the files shown and is not part of this model. Each device is taken to arrive with a `messages` array; without one, `push` would throw.
- Devices are values held in a sequence, and a push replaces that element with its transcript extended. The source mutates the device object in place. The model assumes that no two devices in a `devices-list` payload share one object or one `messages` array. Electron's structured clone keeps such sharing within one payload, and then a push would show on both devices. The model does not capture that aliasing.
- Spawning per-device agent processes, routing their output and tearing them down is not part of this model: neither renderer.js nor main.js contains it.
