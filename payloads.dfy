/**
 * The message-type constants and payload records the providers exchange
 * (`destination-types.ts`, `system-types.ts`), and the destination entity.
 */
module Payloads {
  import opened Wrappers

  // Destination message types.
  const SELECTED: string := "destination.selected"
  const DETAILS_REQUESTED: string := "destination.details.requested"
  const DETAILS_RESPONSE: string := "destination.details.response"

  // System message types.
  const APP_READY: string := "system.app.ready"
  const ERROR: string := "system.error"
  const CONFIG_UPDATED: string := "system.config.updated"

  /** `Object.values(DESTINATION_MESSAGES)`, in declaration order. */
  const DestinationMessageValues: seq<string> := [SELECTED, DETAILS_REQUESTED, DETAILS_RESPONSE]
  /** `Object.values(SYSTEM_MESSAGES)`, in declaration order. */
  const SystemMessageValues: seq<string> := [APP_READY, ERROR, CONFIG_UPDATED]

  /** A JSON-like value held in a configuration record or an error's details. */
  datatype Value =
    | Undefined
    | Null
    | Bool(b: bool)
    | Num(n: int)
    | Str(s: string)
    | Composite(json: string)  // an array or object, kept whole (merges are shallow)

  /** An entry of a destination's `tags` array; entries that are not strings are kept but never searched. */
  datatype Tag = TextTag(text: string) | OtherTag

  /** A destination record; the numeric rendering fields (emission, radius, position, price, distance) are not modelled. */
  datatype Destination = Destination(
    id: string,
    name: string,
    description: Option<string>,
    tags: Option<seq<Tag>>,
    color: string)

  datatype ReadyPayload = ReadyPayload(appId: string, timestamp: int)
  datatype ErrorPayload = ErrorPayload(code: string, message: string, details: Option<Value>, source: Option<string>, timestamp: int)
  datatype ConfigPayload = ConfigPayload(config: map<string, Value>, source: string, timestamp: int)

  /** Every payload the providers send or receive, one alternative per message type. */
  datatype Payload =
    | Ready(ready: ReadyPayload)
    | SystemError(error: ErrorPayload)
    | ConfigUpdate(update: ConfigPayload)
    | Selected(selected: Option<Destination>)
    | DetailsRequested(destinationId: Option<string>)
    | DetailsResponse(response: Option<Destination>)

  /** A message handed to the bus's `send` by a typed sender: its type and its payload. */
  datatype Outgoing = Outgoing(typ: string, payload: Payload)

  /**
   * `destinations.find((d) => d.id === id)`: the first destination whose id is `id`;
   * `None` when there is none, and always when `id` is `None` (JavaScript `null`).
   */
  function FindById(ds: seq<Destination>, id: Option<string>): (r: Option<Destination>)
    ensures r.Some? ==> id.Some? && exists i :: 0 <= i < |ds| && ds[i] == r.value && FirstWithId(ds, id.value, i)
    ensures r.None? ==> id.None? || forall i :: 0 <= i < |ds| ==> ds[i].id != id.value
  {
    if id.None? || ds == [] then None
    else if ds[0].id == id.value then Some(ds[0])
    else
      var r := FindById(ds[1..], id);
      assert r.Some? ==> exists i :: 0 <= i < |ds| && ds[i] == r.value && FirstWithId(ds, id.value, i) by {
        if r.Some? {
          var j :| 0 <= j < |ds[1..]| && ds[1..][j] == r.value && FirstWithId(ds[1..], id.value, j);
          assert FirstWithId(ds, id.value, j + 1);
        }
      }
      r
  }

  /** Index `i` holds the first destination whose id is `id`. */
  ghost predicate FirstWithId(ds: seq<Destination>, id: string, i: int) {
    0 <= i < |ds| && ds[i].id == id && forall j :: 0 <= j < i ==> ds[j].id != id
  }
}
