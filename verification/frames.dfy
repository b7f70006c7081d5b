/** Outbound and inbound frames of the socket client, as structured records
    (the JSON text encoding is not modelled). */
module Frames {
  import opened Wrappers
  import opened JsValues

  /** An outbound frame: its `event` (when it is a string), its `channel`
      field, its `ping` field and every other field the caller put in it,
      which `send` stores and transmits unchanged. Control frames carry the
      first two, the heartbeat frame only the third. */
  datatype OutFrame = OutFrame(event: Option<string>, channel: Value, ping: Option<string>,
                               rest: map<string, Value>)

  /** How `send` classifies a frame: the `event` contains "addChannel",
      else it contains "removeChannel", else neither. */
  datatype Kind = AddRequest | RemoveRequest | Plain

  const AddChannel: string := "addChannel"
  const RemoveChannel: string := "removeChannel"

  function KindOf(f: OutFrame): (k: Kind)
    ensures k == AddRequest <==> f.event.Some? && Includes(f.event.value, AddChannel)
    ensures k == RemoveRequest <==>
              f.event.Some? && !Includes(f.event.value, AddChannel) && Includes(f.event.value, RemoveChannel)
  {
    match f.event
    case None => Plain
    case Some(ev) =>
      if Includes(ev, AddChannel) then AddRequest
      else if Includes(ev, RemoveChannel) then RemoveRequest
      else Plain
  }

  /** `{event: 'addChannel', channel}`, the frame `subscribe` sends. */
  function AddChannelFrame(channel: Value): OutFrame {
    OutFrame(Some(AddChannel), channel, None, map[])
  }

  /** `{event: 'removeChannel', channel}`, the frame `unsubscribe` sends. */
  function RemoveChannelFrame(channel: Value): OutFrame {
    OutFrame(Some(RemoveChannel), channel, None, map[])
  }

  /** `{ping: timestamp}`, the heartbeat frame; the timestamp is opaque. */
  function PingFrame(timestamp: string): OutFrame {
    OutFrame(None, Undefined, Some(timestamp), map[])
  }

  lemma AddChannelFrameIsAdd(channel: Value)
    ensures KindOf(AddChannelFrame(channel)) == AddRequest
  {
    IncludesSelf(AddChannel);
  }

  /** "removeChannel" does not contain "addChannel", so `send` takes the
      removal branch for it. */
  lemma RemoveChannelFrameIsRemove(channel: Value)
    ensures KindOf(RemoveChannelFrame(channel)) == RemoveRequest
  {
    IncludesSelf(RemoveChannel);
    IncludesIff(RemoveChannel, AddChannel);
    forall i | 0 <= i && i + |AddChannel| <= |RemoveChannel|
      ensures !OccursAt(RemoveChannel, AddChannel, i)
    {
      var window := RemoveChannel[i..i + |AddChannel|];
      assert window[0] == RemoveChannel[i] != AddChannel[0];
      assert window != AddChannel;
    }
  }

  lemma PingFrameIsPlain(timestamp: string)
    ensures KindOf(PingFrame(timestamp)) == Plain
  {
  }

  /** An inbound frame after parsing: the fields the router reads, and the
      remaining fields, which it never touches. A missing field is `Undefined`. */
  datatype InFrame = InFrame(
    tong: Value,
    channel: Value,
    success: Value,
    first: Value,
    ticker: Value,
    data: Value,
    rest: map<string, Value>)

  /** The payload normalisation applied before delivery: when `first` is
      the string "0", `data` is overwritten with `ticker`. */
  function Normalize(f: InFrame): (g: InFrame)
    ensures g.(data := f.data) == f
    ensures f.first == Str("0") ==> g.data == f.ticker
    ensures f.first != Str("0") ==> g == f
  {
    if f.first == Str("0") then f.(data := f.ticker) else f
  }

  /** Normalising twice is normalising once. */
  lemma NormalizeIdempotent(f: InFrame)
    ensures Normalize(Normalize(f)) == Normalize(f)
  {
  }
}
