/** The location picker of components/LocationInput.tsx without its
    network and device calls: how a reverse-geocoded address is turned into
    one line of text, how many autocomplete predictions are kept, when a
    search is issued at all, and how the component's state fields are reset
    when a place lookup succeeds or fails. */
module LocationSearch {
  import opened Wrappers
  import opened Seqs

  /** At most this many predictions are kept from one autocomplete reply. */
  const MaxPredictions: nat := 5
  /** Shorter queries clear the results instead of searching. */
  const MinQueryLength: nat := 2
  const Separator: string := ", "
  const CurrentLocationFallback: string := "Current Location"

  /** One autocomplete prediction. */
  datatype Prediction = Prediction(placeId: string, description: string)

  /** The fields of a reverse-geocoding result that make up the address line. */
  datatype GeocodedAddress = GeocodedAddress(
    streetNumber: Option<string>,
    street: Option<string>,
    city: Option<string>,
    region: Option<string>,
    postalCode: Option<string>)

  /** The characters JavaScript's `String.prototype.trim` removes: white
      space and line terminators. */
  predicate IsTrimmable(c: char) {
    c == '\t' || c == '\n' || c == '\U{000B}' || c == '\U{000C}' || c == '\r' || c == ' ' ||
    c == '\U{00A0}' || c == '\U{1680}' || ('\U{2000}' <= c <= '\U{200A}') ||
    c == '\U{2028}' || c == '\U{2029}' || c == '\U{202F}' || c == '\U{205F}' ||
    c == '\U{3000}' || c == '\U{FEFF}'
  }

  /** `s.trim() === ""`. */
  predicate IsBlank(s: string) {
    forall i :: 0 <= i < |s| ==> IsTrimmable(s[i])
  }

  /** `part && part.trim() !== ""`. */
  predicate Kept(part: Option<string>) {
    part.Some? && !IsBlank(part.value)
  }

  /** The address parts in the order they are joined. */
  function Parts(a: GeocodedAddress): seq<Option<string>> {
    [a.streetNumber, a.street, a.city, a.region, a.postalCode]
  }

  /** The strings inside a sequence of present values. */
  function Values(s: seq<Option<string>>): (r: seq<string>)
    requires forall i :: 0 <= i < |s| ==> s[i].Some?
    ensures |r| == |s|
    ensures forall i :: 0 <= i < |s| ==> s[i] == Some(r[i])
  {
    if s == [] then [] else [s[0].value] + Values(s[1..])
  }

  /** Each string occurs in `Values(s)` as often as its `Some` occurs in `s`. */
  lemma {:induction false} ValuesMultiset(s: seq<Option<string>>, x: string)
    requires forall i :: 0 <= i < |s| ==> s[i].Some?
    ensures multiset(Values(s))[x] == multiset(s)[Some(x)]
  {
    if s != [] {
      ValuesMultiset(s[1..], x);
      assert s == [s[0]] + s[1..];
      assert Values(s) == [s[0].value] + Values(s[1..]);
    }
  }

  /** `Some` around every string. */
  ghost function Wrapped(r: seq<string>): (w: seq<Option<string>>)
    ensures |w| == |r| && forall i :: 0 <= i < |r| ==> w[i] == Some(r[i])
  {
    seq(|r|, i requires 0 <= i < |r| => Some(r[i]))
  }

  /** The parts that survive the filter: exactly the present, non-blank
      ones, each as often as it occurs, in their original order. */
  function KeptOf(parts: seq<Option<string>>): (r: seq<string>)
    ensures forall i :: 0 <= i < |r| ==> !IsBlank(r[i])
    ensures forall s :: s in r <==> Some(s) in parts && !IsBlank(s)
    ensures forall s :: multiset(r)[s] == if IsBlank(s) then 0 else multiset(parts)[Some(s)]
    ensures IsSubsequence(Wrapped(r), parts)
  {
    var kept := Filter(parts, Kept);
    assert forall i :: 0 <= i < |kept| ==> Kept(kept[i]) by {
      forall i | 0 <= i < |kept| ensures Kept(kept[i]) { assert kept[i] in kept; }
    }
    ValuesOfKept(kept);
    Values(kept)
  }

  /** `KeptOf` applied to the address parts in field order. */
  function KeptParts(a: GeocodedAddress): seq<string> {
    KeptOf(Parts(a))
  }

  /** The strings of a filtered sequence of present values carry over the
      filter's multiplicities and order. */
  lemma ValuesOfKept(kept: seq<Option<string>>)
    requires forall i :: 0 <= i < |kept| ==> kept[i].Some?
    ensures Wrapped(Values(kept)) == kept
    ensures forall s :: multiset(Values(kept))[s] == multiset(kept)[Some(s)]
    ensures forall s :: s in Values(kept) <==> Some(s) in kept
  {
    forall s
      ensures multiset(Values(kept))[s] == multiset(kept)[Some(s)]
    {
      ValuesMultiset(kept, s);
    }
  }

  /** Total number of characters in `parts`. */
  function TotalLength(parts: seq<string>): nat {
    if parts == [] then 0 else |parts[0]| + TotalLength(parts[1..])
  }

  /** `parts.join(sep)`. */
  function JoinWith(parts: seq<string>, sep: string): string {
    if |parts| == 0 then ""
    else if |parts| == 1 then parts[0]
    else parts[0] + sep + JoinWith(parts[1..], sep)
  }

  /** A join holds every character of its parts plus one separator fewer
      than there are parts. */
  lemma {:induction false} JoinWithLength(parts: seq<string>, sep: string)
    requires parts != []
    ensures |JoinWith(parts, sep)| == TotalLength(parts) + (|parts| - 1) * |sep|
  {
    if |parts| > 1 {
      JoinWithLength(parts[1..], sep);
      assert (|parts| - 1) * |sep| == (|parts| - 2) * |sep| + |sep|;
    }
  }

  /** Joining non-blank parts gives "" only when there are no parts. */
  lemma JoinOfNonBlank(parts: seq<string>, sep: string)
    requires forall i :: 0 <= i < |parts| ==> !IsBlank(parts[i])
    ensures JoinWith(parts, sep) == "" <==> parts == []
    ensures parts != [] ==> |JoinWith(parts, sep)| == TotalLength(parts) + (|parts| - 1) * |sep|
  {
    if parts != [] {
      JoinWithLength(parts, sep);
    }
  }

  /** The address line for a reverse-geocoded position: the kept parts
      joined by ", ", or "Current Location" when no part is kept. */
  function FormatAddress(a: GeocodedAddress): (line: string)
    ensures KeptParts(a) == [] ==> line == CurrentLocationFallback
    ensures KeptParts(a) != [] ==> line == JoinWith(KeptParts(a), Separator)
    ensures KeptParts(a) != [] ==>
      |line| == TotalLength(KeptParts(a)) + (|KeptParts(a)| - 1) * |Separator|
  {
    var kept := KeptParts(a);
    var joined := JoinWith(kept, Separator);
    JoinOfNonBlank(kept, Separator);
    if joined != "" then joined else CurrentLocationFallback
  }

  /** What a successful autocomplete request yields:
      `data.predictions?.slice(0, 5) || []`. */
  function TopPredictions(predictions: Option<seq<Prediction>>): (r: seq<Prediction>)
    ensures |r| <= MaxPredictions
    ensures predictions.None? ==> r == []
    ensures predictions.Some? ==>
      |r| == (if |predictions.value| < MaxPredictions then |predictions.value| else MaxPredictions) &&
      r == predictions.value[..|r|]
  {
    if predictions.None? then []
    else if |predictions.value| <= MaxPredictions then predictions.value
    else predictions.value[..MaxPredictions]
  }

  /** The component's state fields. */
  class LocationPicker {
    var showLocationModal: bool
    var searchText: string
    var searchResults: seq<Prediction>
    var currentLoadingPlaceId: Option<string>

    /** The result list never holds more than one reply's worth. */
    ghost predicate Valid()
      reads this
    {
      |searchResults| <= MaxPredictions
    }

    constructor ()
      ensures Valid()
      ensures !showLocationModal && searchText == "" && searchResults == [] && currentLoadingPlaceId == None
    {
      showLocationModal := false;
      searchText := "";
      searchResults := [];
      currentLoadingPlaceId := None;
    }

    /** Pressing the location field opens the modal. */
    method OpenModal()
      requires Valid()
      modifies this
      ensures Valid()
      ensures showLocationModal
      ensures searchText == old(searchText) && searchResults == old(searchResults)
      ensures currentLoadingPlaceId == old(currentLoadingPlaceId)
    {
      showLocationModal := true;
    }

    /** `handleSearchTextChange`: the text is stored at once; the debounced
        call of `SearchPlaces` with it is the caller's. */
    method HandleSearchTextChange(text: string)
      requires Valid()
      modifies this
      ensures Valid()
      ensures searchText == text
      ensures showLocationModal == old(showLocationModal) && searchResults == old(searchResults)
      ensures currentLoadingPlaceId == old(currentLoadingPlaceId)
    {
      searchText := text;
    }

    /** `searchPlaces`: a query shorter than two characters clears the
        results and sends nothing; any other sends an autocomplete request
        and changes nothing yet. */
    method SearchPlaces(query: string) returns (requested: bool)
      requires Valid()
      modifies this
      ensures Valid()
      ensures requested <==> |query| >= MinQueryLength
      ensures searchResults == if requested then old(searchResults) else []
      ensures showLocationModal == old(showLocationModal) && searchText == old(searchText)
      ensures currentLoadingPlaceId == old(currentLoadingPlaceId)
    {
      if |query| < MinQueryLength {
        searchResults := [];
        return false;
      }
      requested := true;
    }

    /** The autocomplete reply arrived: keep its first five predictions. */
    method OnSearchSuccess(predictions: Option<seq<Prediction>>)
      requires Valid()
      modifies this
      ensures Valid()
      ensures searchResults == TopPredictions(predictions)
      ensures showLocationModal == old(showLocationModal) && searchText == old(searchText)
      ensures currentLoadingPlaceId == old(currentLoadingPlaceId)
    {
      searchResults := TopPredictions(predictions);
    }

    /** The autocomplete request failed: no results. */
    method OnSearchError()
      requires Valid()
      modifies this
      ensures Valid()
      ensures searchResults == []
      ensures showLocationModal == old(showLocationModal) && searchText == old(searchText)
      ensures currentLoadingPlaceId == old(currentLoadingPlaceId)
    {
      searchResults := [];
    }

    /** `getPlaceDetails`: mark the place as loading and send the request. */
    method GetPlaceDetails(placeId: string)
      requires Valid()
      modifies this
      ensures Valid()
      ensures currentLoadingPlaceId == Some(placeId)
      ensures showLocationModal == old(showLocationModal) && searchText == old(searchText)
      ensures searchResults == old(searchResults)
    {
      currentLoadingPlaceId := Some(placeId);
    }

    /** The place details arrived: the place's address is selected, the
        modal closes, and search text, results and loading mark are reset. */
    method OnDetailsSuccess(formattedAddress: string) returns (selected: string)
      requires Valid()
      modifies this
      ensures Valid()
      ensures selected == formattedAddress
      ensures !showLocationModal && searchText == "" && searchResults == [] && currentLoadingPlaceId == None
    {
      selected := formattedAddress;
      showLocationModal := false;
      searchText := "";
      searchResults := [];
      currentLoadingPlaceId := None;
    }

    /** The place details request failed: only the loading mark is reset. */
    method OnDetailsError()
      requires Valid()
      modifies this
      ensures Valid()
      ensures currentLoadingPlaceId == None
      ensures showLocationModal == old(showLocationModal) && searchText == old(searchText)
      ensures searchResults == old(searchResults)
    {
      currentLoadingPlaceId := None;
    }

    /** The device position was reverse-geocoded: the first result, if any,
        gives the address line (`None` stands for the coordinate text used
        when there is no result), and the modal closes. */
    method OnCurrentLocationSuccess(geocode: seq<GeocodedAddress>) returns (selected: Option<string>)
      requires Valid()
      modifies this
      ensures Valid()
      ensures selected == if geocode == [] then None else Some(FormatAddress(geocode[0]))
      ensures !showLocationModal
      ensures searchText == old(searchText) && searchResults == old(searchResults)
      ensures currentLoadingPlaceId == old(currentLoadingPlaceId)
    {
      if |geocode| > 0 {
        selected := Some(FormatAddress(geocode[0]));
      } else {
        selected := None;
      }
      showLocationModal := false;
    }
  }
}
