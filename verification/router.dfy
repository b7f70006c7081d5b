/** The inbound message router: what the `onmessage` handler decides for
    one parsed frame, given the registry. */
module Router {
  import opened Wrappers
  import opened JsValues
  import opened Frames
  import opened Registry

  /** What happens at channel level for a delivered frame. */
  datatype Action =
    | Silent                       // no registration, or a registration without callback
    | Invoke(callback: CallbackId) // the channel's callback is called with the frame
    | ReportError                  // `captureError(frame, {url: channel})`

  /** A heartbeat acknowledgement is discarded outright; any other frame is
      delivered (stored as the last message and passed to `onMessage`)
      with a channel-level action. `frame` is the frame as it stands after
      normalisation, which is also what the last-message cell receives. */
  datatype Delivery = Discarded | Delivered(frame: InFrame, action: Action)

  /** The field whose truthiness marks a heartbeat acknowledgement. */
  const PingReturnKey: string := "tong"

  function Route(reg: Registry, f: InFrame): (r: Delivery)
    ensures r.Discarded? <==> Truthy(f.tong)
    ensures r.Delivered? && r.action != Silent ==> Has(reg, f.channel)
    ensures r.Delivered? && r.action.Invoke? ==> Truthy(f.success)
    ensures r.Delivered? && r.action == ReportError <==> !Truthy(f.tong) && Has(reg, f.channel) && !Truthy(f.success)
    ensures r.Delivered? && r.frame != f ==> Has(reg, f.channel) && Truthy(f.success) && f.first == Str("0")
  {
    if Truthy(f.tong) then Discarded
    else
      match Lookup(reg, f.channel)
      case None => Delivered(f, Silent)
      case Some(e) =>
        if Truthy(f.success) then
          Delivered(Normalize(f), if e.callback.Some? then Invoke(e.callback.value) else Silent)
        else Delivered(f, ReportError)
  }

  /** A frame for the channel registered at position `i`: with truthy
      `success` the normalised frame goes to that entry's callback, otherwise
      the unchanged frame is reported as a channel error. */
  lemma RouteRegistered(reg: Registry, f: InFrame, i: int)
    requires Distinct(reg)
    requires 0 <= i < |reg| && reg[i].key == f.channel
    requires !Truthy(f.tong)
    ensures Truthy(f.success) && reg[i].callback.Some? ==>
              Route(reg, f) == Delivered(Normalize(f), Invoke(reg[i].callback.value))
    ensures Truthy(f.success) && reg[i].callback.None? ==> Route(reg, f) == Delivered(Normalize(f), Silent)
    ensures !Truthy(f.success) ==> Route(reg, f) == Delivered(f, ReportError)
  {
    LookupAt(reg, i);
  }

  /** A frame for a channel nobody registered is delivered unchanged with no
      channel-level action, unless it is a heartbeat acknowledgement. */
  lemma RouteUnregistered(reg: Registry, f: InFrame)
    requires !Has(reg, f.channel)
    requires !Truthy(f.tong)
    ensures Route(reg, f) == Delivered(f, Silent)
  {
  }
}
