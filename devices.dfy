/** The device list `phones` of renderer.js:4 and the per-device transcripts
    that grow by `phone.messages.push(...)`. */
module Devices {
  import opened Wrappers

  /** `msg.type` of a transcript entry. */
  datatype Role = User | Ai | System

  /** One transcript entry `{type, content, time}`; the time is the opaque
      clock text the renderer formats for display. */
  datatype Message = Message(role: Role, content: string, time: string)

  /** One device as delivered by the `devices-list` event, with its
      transcript `messages`. */
  datatype Phone = Phone(id: string, name: string, number: string,
                         androidVersion: string, status: string,
                         messages: seq<Message>)

  /** `phones.find(p => p.id === id)`: the index of the FIRST device whose
      id is `id`, or `None` when no device has that id. */
  function Find(phones: seq<Phone>, id: string): (r: Option<nat>)
    ensures r.Some? ==> r.value < |phones| && phones[r.value].id == id
    ensures r.Some? ==> forall j :: 0 <= j < r.value ==> phones[j].id != id
    ensures r.None? <==> forall j :: 0 <= j < |phones| ==> phones[j].id != id
  {
    if phones == [] then None
    else if phones[0].id == id then Some(0)
    else match Find(phones[1..], id)
      case None => None
      case Some(i) => Some(i + 1)
  }

  /** `phone.messages.push(m)` on the device at index `i`. */
  function PushAt(phones: seq<Phone>, i: nat, m: Message): seq<Phone>
    requires i < |phones|
  {
    phones[i := phones[i].(messages := phones[i].messages + [m])]
  }

  /** Find the device with id `id`; if there is one, push `m` onto its
      transcript, otherwise leave the list alone (the `if (!phone) return;`
      guards of renderer.js:102, 168 and 192). */
  function PushTo(phones: seq<Phone>, id: string, m: Message): seq<Phone> {
    match Find(phones, id)
    case None => phones
    case Some(i) => PushAt(phones, i, m)
  }

  /** The transcript that the renderer shows and extends for device `id`:
      that of the first device with that id, empty if there is none. */
  function Transcript(phones: seq<Phone>, id: string): seq<Message> {
    match Find(phones, id)
    case None => []
    case Some(i) => phones[i].messages
  }

  predicate Known(phones: seq<Phone>, id: string) {
    Find(phones, id).Some?
  }

  /** Exactly one entry `m` was appended to the transcript of device `i`;
      every other field and every other device is unchanged. */
  ghost predicate AppendedOne(before: seq<Phone>, after: seq<Phone>, i: nat, m: Message) {
    |after| == |before| && i < |before|
    && after[i] == before[i].(messages := before[i].messages + [m])
    && forall j :: 0 <= j < |before| && j != i ==> after[j] == before[j]
  }

  /** Same devices, in the same order, each transcript extended at its end
      and never rewritten. */
  ghost predicate OnlyAppended(before: seq<Phone>, after: seq<Phone>) {
    |after| == |before|
    && forall j :: 0 <= j < |before| ==>
         after[j].(messages := []) == before[j].(messages := [])
         && before[j].messages <= after[j].messages
  }

  /** Number of transcript entries held over all devices. */
  function TotalMessages(phones: seq<Phone>): nat {
    if phones == [] then 0 else |phones[0].messages| + TotalMessages(phones[1..])
  }

  lemma PushAtAppendsOne(phones: seq<Phone>, i: nat, m: Message)
    requires i < |phones|
    ensures AppendedOne(phones, PushAt(phones, i, m), i, m)
    ensures OnlyAppended(phones, PushAt(phones, i, m))
  {
  }

  /** The ids of two lists with the same ids resolve to the same index. */
  lemma FindSameIds(a: seq<Phone>, b: seq<Phone>, id: string)
    requires |a| == |b|
    requires forall j :: 0 <= j < |a| ==> a[j].id == b[j].id
    ensures Find(a, id) == Find(b, id)
  {
  }

  /** Pushing to one device extends the transcript of its id by exactly `m`
      and leaves the transcript of every other id as it was. */
  lemma PushToTranscripts(phones: seq<Phone>, id: string, m: Message)
    ensures Transcript(PushTo(phones, id, m), id)
            == Transcript(phones, id) + (if Known(phones, id) then [m] else [])
    ensures forall other :: other != id ==>
              Transcript(PushTo(phones, id, m), other) == Transcript(phones, other)
    ensures OnlyAppended(phones, PushTo(phones, id, m))
  {
    var r := PushTo(phones, id, m);
    match Find(phones, id)
    case None =>
    case Some(i) =>
      forall x {
        FindSameIds(r, phones, x);
      }
  }

  /** Each push adds one entry to the total. */
  lemma {:induction false} PushAtTotal(phones: seq<Phone>, i: nat, m: Message)
    requires i < |phones|
    ensures TotalMessages(PushAt(phones, i, m)) == TotalMessages(phones) + 1
  {
    var r := PushAt(phones, i, m);
    assert r[1..] == if i == 0 then phones[1..] else PushAt(phones[1..], i - 1, m);
    if i > 0 {
      PushAtTotal(phones[1..], i - 1, m);
    }
  }

  /** Find-then-push adds one entry for a listed id and none otherwise. */
  lemma PushToTotal(phones: seq<Phone>, id: string, m: Message)
    ensures TotalMessages(PushTo(phones, id, m))
            == TotalMessages(phones) + (if Known(phones, id) then 1 else 0)
  {
    if Known(phones, id) {
      PushAtTotal(phones, Find(phones, id).value, m);
    }
  }

  /** Appending only is reflexive and transitive. */
  lemma OnlyAppendedTrans(a: seq<Phone>, b: seq<Phone>, c: seq<Phone>)
    requires OnlyAppended(a, b) && OnlyAppended(b, c)
    ensures OnlyAppended(a, c)
  {
  }

  lemma OnlyAppendedRefl(a: seq<Phone>)
    ensures OnlyAppended(a, a)
  {
  }
}
