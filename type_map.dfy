/**
 * `isValidMessageType` (`type-map.ts`): as written, the registry probed by the
 * `in` operator is `{...Object.values(DESTINATION_MESSAGES), ...Object.values(SYSTEM_MESSAGES)}`.
 * Spreading an array into an object literal copies its elements under the
 * index keys "0", "1", "2", so the probe tests index keys, not message types.
 * `IsKnownMessageType` is the check the doc-comment describes.
 *
 * Only own properties are modelled: the `in` operator also finds inherited
 * names such as "toString", which this model does not.
 */
module TypeMap {
  import opened Strings
  import opened Payloads

  /** `{...obj, ...arr}` for an array `arr`: each element is stored under its index, written in decimal. */
  function SpreadArray(obj: map<string, string>, arr: seq<string>): (r: map<string, string>)
    decreases |arr|
  {
    if arr == [] then obj
    else SpreadArray(obj, arr[..|arr| - 1])[NatToString(|arr| - 1) := arr[|arr| - 1]]
  }

  /** The object literal the guard probes. */
  function ProbedObject(): map<string, string> {
    SpreadArray(SpreadArray(map[], DestinationMessageValues), SystemMessageValues)
  }

  /** `isValidMessageType(t)` as written: `t in ProbedObject()`, a key test that never looks at the values. */
  predicate IsValidMessageType(t: string) {
    t in ProbedObject().Keys
  }

  /** The probed object has exactly the keys "0", "1" and "2", holding the system types, which overwrote the destination ones. */
  lemma ProbedObjectContents()
    ensures ProbedObject() == map["0" := APP_READY, "1" := ERROR, "2" := CONFIG_UPDATED]
  {
    SpreadThree(map[], SELECTED, DETAILS_REQUESTED, DETAILS_RESPONSE);
    var d := map["0" := SELECTED, "1" := DETAILS_REQUESTED, "2" := DETAILS_RESPONSE];
    SpreadThree(d, APP_READY, ERROR, CONFIG_UPDATED);
  }

  /** Spreading a three-element array writes its elements under "0", "1" and "2". */
  lemma SpreadThree(obj: map<string, string>, a: string, b: string, c: string)
    ensures SpreadArray(obj, [a, b, c]) == obj["0" := a]["1" := b]["2" := c]
  {
    assert NatToString(0) == "0" && NatToString(1) == "1" && NatToString(2) == "2";
    assert SpreadArray(obj, []) == obj;
    assert [a][..0] == [];
    assert SpreadArray(obj, [a]) == obj["0" := a];
    assert [a, b][..1] == [a];
    assert SpreadArray(obj, [a, b]) == obj["0" := a]["1" := b];
    assert [a, b, c][..2] == [a, b];
  }

  /** As written, exactly the strings "0", "1" and "2" pass the check. */
  lemma {:induction false} ValidMeansIndexKey(t: string)
    ensures IsValidMessageType(t) <==> t == "0" || t == "1" || t == "2"
  {
    ProbedObjectContents();
  }

  /** As written, every real message type fails the check. */
  lemma RealTypesRejected()
    ensures !IsValidMessageType(SELECTED) && !IsValidMessageType(DETAILS_REQUESTED) && !IsValidMessageType(DETAILS_RESPONSE)
    ensures !IsValidMessageType(APP_READY) && !IsValidMessageType(ERROR) && !IsValidMessageType(CONFIG_UPDATED)
  {
    ValidMeansIndexKey(SELECTED);
    ValidMeansIndexKey(DETAILS_REQUESTED);
    ValidMeansIndexKey(DETAILS_RESPONSE);
    ValidMeansIndexKey(APP_READY);
    ValidMeansIndexKey(ERROR);
    ValidMeansIndexKey(CONFIG_UPDATED);
  }

  /** The check the doc-comment describes: `t` is one of the six message-type values. */
  predicate IsKnownMessageType(t: string) {
    t in DestinationMessageValues || t in SystemMessageValues
  }

  /** The intended check accepts exactly the six message types, and the two families share none. */
  lemma KnownTypesAccepted(t: string)
    ensures IsKnownMessageType(t) <==>
      t in {SELECTED, DETAILS_REQUESTED, DETAILS_RESPONSE, APP_READY, ERROR, CONFIG_UPDATED}
    ensures forall i, j :: 0 <= i < |DestinationMessageValues| && 0 <= j < |SystemMessageValues| ==>
      DestinationMessageValues[i] != SystemMessageValues[j]
  {
  }
}
