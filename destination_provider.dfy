/**
 * The destination provider's state machine (`DestinationProvider` without its
 * React wrapper): the active destination, the destination list and a loading
 * flag, changed by actions and by SELECTED / DETAILS_RESPONSE messages.
 * Messages the provider sends through its typed senders are appended to `outbox`.
 */
module DestinationState {
  import opened Wrappers
  import opened Payloads

  class DestinationProvider {
    var activeDestination: Option<Destination>
    var destinations: seq<Destination>
    var loading: bool
    var outbox: seq<Outgoing>

    constructor (initialDestinations: seq<Destination>)
      ensures activeDestination.None? && destinations == initialDestinations && !loading && outbox == []
    {
      activeDestination := None;
      destinations := initialDestinations;
      loading := false;
      outbox := [];
    }

    /**
     * `selectDestination(id)`: activates the first destination with that id, or none
     * (also for a `null` id), and sends one SELECTED message carrying the same value.
     */
    method SelectDestination(id: Option<string>)
      modifies this
      ensures activeDestination == FindById(destinations, id)
      ensures outbox == old(outbox) + [Outgoing(SELECTED, Selected(activeDestination))]
      ensures destinations == old(destinations) && loading == old(loading)
    {
      var destination := FindById(destinations, id);
      activeDestination := destination;
      outbox := outbox + [Outgoing(SELECTED, Selected(destination))];
    }

    /** `requestDestinationDetails(id)`: one DETAILS_REQUESTED message, no state change. */
    method RequestDestinationDetails(destinationId: string)
      modifies this
      ensures outbox == old(outbox) + [Outgoing(DETAILS_REQUESTED, DetailsRequested(Some(destinationId)))]
      ensures activeDestination == old(activeDestination) && destinations == old(destinations) && loading == old(loading)
    {
      outbox := outbox + [Outgoing(DETAILS_REQUESTED, DetailsRequested(Some(destinationId)))];
    }

    /** `provideDestinationDetails(d)`: one DETAILS_RESPONSE message, no state change. */
    method ProvideDestinationDetails(destination: Destination)
      modifies this
      ensures outbox == old(outbox) + [Outgoing(DETAILS_RESPONSE, DetailsResponse(Some(destination)))]
      ensures activeDestination == old(activeDestination) && destinations == old(destinations) && loading == old(loading)
    {
      outbox := outbox + [Outgoing(DETAILS_RESPONSE, DetailsResponse(Some(destination)))];
    }

    /** An incoming SELECTED message: its destination becomes active, listed or not. */
    method OnSelected(selected: Option<Destination>)
      modifies this
      ensures activeDestination == selected
      ensures destinations == old(destinations) && loading == old(loading) && outbox == old(outbox)
    {
      activeDestination := selected;
    }

    /** An incoming DETAILS_RESPONSE message: the subscriber's body is empty, so nothing changes. */
    method OnDetailsResponse(response: Option<Destination>)
      ensures activeDestination == old(activeDestination) && destinations == old(destinations)
      ensures loading == old(loading) && outbox == old(outbox)
    {
    }

    /** `setDestinations`: replaces the list only. */
    method SetDestinations(newDestinations: seq<Destination>)
      modifies this
      ensures destinations == newDestinations
      ensures activeDestination == old(activeDestination) && loading == old(loading) && outbox == old(outbox)
    {
      destinations := newDestinations;
    }

    /** `setLoading`: replaces the flag only. */
    method SetLoading(isLoading: bool)
      modifies this
      ensures loading == isLoading
      ensures activeDestination == old(activeDestination) && destinations == old(destinations) && outbox == old(outbox)
    {
      loading := isLoading;
    }
  }

  /** Selecting by an id that no destination has, or by `null`, clears the selection. */
  lemma UnknownIdDeselects(ds: seq<Destination>, id: Option<string>)
    requires id.None? || forall i :: 0 <= i < |ds| ==> ds[i].id != id.value
    ensures FindById(ds, id) == None
  {
  }

  /** Selecting the id of a listed destination activates the first listed destination with that id, at or before it. */
  lemma {:induction false} ListedIdSelects(ds: seq<Destination>, k: nat)
    requires k < |ds|
    ensures exists i :: 0 <= i <= k && FindById(ds, Some(ds[k].id)) == Some(ds[i]) && FirstWithId(ds, ds[k].id, i)
  {
    var r := FindById(ds, Some(ds[k].id));
    var i :| 0 <= i < |ds| && ds[i] == r.value && FirstWithId(ds, ds[k].id, i);
    assert i <= k;
  }
}
