/**
 * The mock destination catalogue (`MockDestinationService`): records loaded once
 * with their ids turned into strings, a copy of the list, lookup by id with a
 * "not found" error, and case-insensitive search over name, description and
 * string tags. The simulated network delays are not modelled.
 */
module DestinationService {
  import opened Wrappers
  import opened Strings
  import opened Payloads
  import opened OrderedSet

  /** An id as it appears in the mock data: a number or a string. */
  datatype RawId = NumericId(n: nat) | TextId(text: string)

  /** A record of the mock data. */
  datatype RawDestination = RawDestination(id: RawId, name: string, description: Option<string>, tags: Option<seq<Tag>>, color: string)

  /** `String(item.id)`. */
  function IdText(id: RawId): string {
    match id
    case NumericId(n) => NatToString(n)
    case TextId(t) => t
  }

  /** Different numeric ids stay different once written as strings: the digits spell the number. */
  lemma NatToStringInjective(a: nat, b: nat)
    requires NatToString(a) == NatToString(b)
    ensures a == b
  {
    assert a == DecimalValue(NatToString(a)) == DecimalValue(NatToString(b)) == b;
  }

  /** The catalogue: the private `destinations` field, set once by the constructor. */
  datatype MockDestinationService = MockDestinationService(destinations: seq<Destination>)

  /** `{...item, id: String(item.id)}`. */
  function Normalize(item: RawDestination): (d: Destination)
    ensures d.id == IdText(item.id)
    ensures d.name == item.name && d.description == item.description && d.tags == item.tags && d.color == item.color
  {
    Destination(IdText(item.id), item.name, item.description, item.tags, item.color)
  }

  /** The constructor: every record kept, in order, with its id converted to a string. */
  function New(mockData: seq<RawDestination>): (s: MockDestinationService)
    ensures |s.destinations| == |mockData|
    ensures forall i :: 0 <= i < |mockData| ==> s.destinations[i] == Normalize(mockData[i])
    ensures forall i, j ::
      (0 <= i < j < |mockData| && mockData[i].id.NumericId? && mockData[j].id.NumericId? && mockData[i].id != mockData[j].id)
      ==> s.destinations[i].id != s.destinations[j].id
  {
    var ds := seq(|mockData|, i requires 0 <= i < |mockData| => Normalize(mockData[i]));
    assert forall i, j ::
      (0 <= i < j < |mockData| && mockData[i].id.NumericId? && mockData[j].id.NumericId? && mockData[i].id != mockData[j].id)
      ==> ds[i].id != ds[j].id by {
      forall i, j | 0 <= i < j < |mockData| && mockData[i].id.NumericId? && mockData[j].id.NumericId? && ds[i].id == ds[j].id
        ensures mockData[i].id == mockData[j].id
      {
        NatToStringInjective(mockData[i].id.n, mockData[j].id.n);
      }
    }
    MockDestinationService(ds)
  }

  /** `getDestinations`: a new list with the stored destinations. */
  function GetDestinations(s: MockDestinationService): (r: seq<Destination>)
    ensures r == s.destinations
  {
    s.destinations[..]
  }

  /** `getDestinationById`: a copy of the first destination with that id, or the "not found" error. */
  function GetDestinationById(s: MockDestinationService, id: string): (r: Result<Destination, string>)
    ensures r.Success? <==> exists i :: 0 <= i < |s.destinations| && s.destinations[i].id == id
    ensures r.Success? ==> exists i :: FirstWithId(s.destinations, id, i) && r.value == s.destinations[i]
    ensures r.Failure? ==> r.error == "Destination with ID " + id + " not found"
  {
    match FindById(s.destinations, Some(id))
    case Some(d) => Success(d)
    case None => Failure("Destination with ID " + id + " not found")
  }

  /** Some string tag, lower-cased, includes `q`; other tags are skipped. */
  function AnyTagMatches(tags: seq<Tag>, q: string): (r: bool)
    ensures r <==> exists i :: 0 <= i < |tags| && tags[i].TextTag? && Includes(Lower(tags[i].text), q)
  {
    if tags == [] then false
    else (tags[0].TextTag? && Includes(Lower(tags[0].text), q)) || AnyTagMatches(tags[1..], q)
  }

  /** The search test for an already lower-cased query: name, else description, else some string tag. */
  predicate Matches(d: Destination, q: string) {
    || Includes(Lower(d.name), q)
    || (d.description.Some? && Includes(Lower(d.description.value), q))
    || (d.tags.Some? && AnyTagMatches(d.tags.value, q))
  }

  /** `idx` holds the position of every destination of `ds` that matches `q`. */
  ghost predicate CoversMatching(idx: seq<nat>, ds: seq<Destination>, q: string) {
    forall i :: 0 <= i < |ds| && Matches(ds[i], q) ==> i in idx
  }

  lemma CoversMatchingDroppedHead(idx: seq<nat>, ds: seq<Destination>, q: string)
    requires ds != [] && !Matches(ds[0], q) && CoversMatching(idx, ds[1..], q)
    ensures CoversMatching(Shift(idx), ds, q)
  {
  }

  lemma CoversMatchingKeptHead(idx: seq<nat>, ds: seq<Destination>, q: string)
    requires ds != [] && CoversMatching(idx, ds[1..], q)
    ensures CoversMatching([0] + Shift(idx), ds, q)
  {
  }

  /** `filter(Matches)`: the matching destinations, in their original order (`KeepMatchingKeepsOrder`). */
  function KeepMatching(ds: seq<Destination>, q: string): (r: seq<Destination>)
    ensures forall i :: 0 <= i < |r| ==> Matches(r[i], q)
    ensures forall i :: 0 <= i < |ds| && Matches(ds[i], q) ==> ds[i] in r
    ensures multiset(r) <= multiset(ds)
  {
    if ds == [] then []
    else
      var rest := KeepMatching(ds[1..], q);
      assert ds == [ds[0]] + ds[1..];
      if Matches(ds[0], q) then [ds[0]] + rest else rest
  }

  /**
   * The filter keeps order and multiplicity: its result is picked out of `ds` by
   * increasing positions, and those positions include every matching one.
   */
  lemma {:induction false} KeepMatchingKeepsOrder(ds: seq<Destination>, q: string)
    ensures exists idx :: Selects(idx, KeepMatching(ds, q), ds) && CoversMatching(idx, ds, q)
  {
    if ds == [] {
      assert Selects([], KeepMatching(ds, q), ds);
    } else {
      var rest := KeepMatching(ds[1..], q);
      KeepMatchingKeepsOrder(ds[1..], q);
      var idx' :| Selects(idx', rest, ds[1..]) && CoversMatching(idx', ds[1..], q);
      SelectsCons(idx', rest, ds);
      if Matches(ds[0], q) {
        CoversMatchingKeptHead(idx', ds, q);
        assert Selects([0] + Shift(idx'), KeepMatching(ds, q), ds);
      } else {
        CoversMatchingDroppedHead(idx', ds, q);
        assert Selects(Shift(idx'), KeepMatching(ds, q), ds);
      }
    }
  }

  /**
   * `searchDestinations(query)`: exactly the destinations matching the lower-cased
   * query, in their original order and multiplicity.
   */
  function SearchDestinations(s: MockDestinationService, query: string): (r: seq<Destination>)
    ensures forall i :: 0 <= i < |r| ==> Matches(r[i], Lower(query))
    ensures forall i :: 0 <= i < |s.destinations| && Matches(s.destinations[i], Lower(query)) ==> s.destinations[i] in r
    ensures multiset(r) <= multiset(s.destinations)
    ensures exists idx :: Selects(idx, r, s.destinations) && CoversMatching(idx, s.destinations, Lower(query))
  {
    KeepMatchingKeepsOrder(s.destinations, Lower(query));
    KeepMatching(s.destinations, Lower(query))
  }

  /** When every destination matches, the filter keeps the whole list in order. */
  lemma {:induction false} AllMatchingKept(ds: seq<Destination>, q: string)
    requires forall i :: 0 <= i < |ds| ==> Matches(ds[i], q)
    ensures KeepMatching(ds, q) == ds
  {
    if ds != [] {
      AllMatchingKept(ds[1..], q);
    }
  }

  /** The empty query is included in every name, so it returns every destination in order. */
  lemma EmptyQueryMatchesAll(s: MockDestinationService)
    ensures SearchDestinations(s, "") == s.destinations
  {
    forall i | 0 <= i < |s.destinations|
      ensures Matches(s.destinations[i], "")
    {
      IncludesEmpty(Lower(s.destinations[i].name));
    }
    AllMatchingKept(s.destinations, "");
  }

  /** Search ignores the case of the query. */
  lemma SearchIgnoresQueryCase(s: MockDestinationService, query: string)
    ensures SearchDestinations(s, Lower(query)) == SearchDestinations(s, query)
  {
    LowerIdempotent(query);
  }

  /** A destination without a description and without tags is found only through its name. */
  lemma BareDestinationMatchesByNameOnly(d: Destination, q: string)
    requires d.description.None? && d.tags.None?
    ensures Matches(d, q) <==> Includes(Lower(d.name), q)
  {
  }
}
