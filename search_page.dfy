/**
  The search results page: it copies the URL query into its own state, hides
  the floating map button while the window scrolls down, toggles between list
  and map, centres the map on the results (or on Chandigarh), and prefixes the
  guest and date summaries with a bullet.
*/
module SearchPage {
  import opened Wrappers
  import opened SearchQuery
  import SearchBar

  // ---------------------------------------------------------------------------
  // Map centre
  // ---------------------------------------------------------------------------

  datatype Center = Center(latitude: real, longitude: real)

  /** Chandigarh, used when the results give no usable centre. */
  const DefaultCenter: Center := Center(30.7333, 76.7794)

  /** A centre JavaScript treats as present: both coordinates non-zero. */
  predicate Usable(c: Option<Center>) {
    c.Some? && c.value.latitude != 0.0 && c.value.longitude != 0.0
  }

  /** `getCenterMap`, given the centre computed from the results (`None` when there is none). */
  function CenterMap(computed: Option<Center>): (c: Center)
    ensures c.latitude != 0.0 && c.longitude != 0.0
    ensures Usable(computed) ==> c == computed.value
    ensures !Usable(computed) ==> c == DefaultCenter
  {
    if Usable(computed) then computed.value else DefaultCenter
  }

  /** The resolved centre is itself usable, so resolving it again changes nothing. */
  lemma CenterMapIdempotent(computed: Option<Center>)
    ensures CenterMap(Some(CenterMap(computed))) == CenterMap(computed)
  {
  }

  /** A centre on the equator or the prime meridian counts as missing. */
  lemma ZeroCoordinateFallsBack(latitude: real, longitude: real)
    requires latitude == 0.0 || longitude == 0.0
    ensures CenterMap(Some(Center(latitude, longitude))) == DefaultCenter
  {
  }

  // ---------------------------------------------------------------------------
  // Summaries
  // ---------------------------------------------------------------------------

  const Bullet: string := "• "

  /**
    `getGuests` / `getDates`: the formatter's text with a bullet in front, or
    nothing (undefined) when the formatter gave the empty string.
  */
  function Bulleted(formatted: string): (r: Option<string>)
    ensures r.Some? <==> formatted != ""
    ensures r.Some? ==> |r.value| == |Bullet| + |formatted| && r.value[..|Bullet|] == Bullet && r.value[|Bullet|..] == formatted
  {
    if formatted != "" then Some(Bullet + formatted) else None
  }

  const HeadingText: string := "Over 1,000 homes in "

  /** The place in the heading "Over 1,000 homes in ...". */
  function HeadingPlace(location: Option<string>): (place: string)
    ensures place != ""
    ensures Truthy(location) ==> place == location.value
    ensures !Truthy(location) ==> place == "Chandigarh"
  {
    if Truthy(location) then location.value else "Chandigarh"
  }

  // ---------------------------------------------------------------------------
  // Query state
  // ---------------------------------------------------------------------------

  /** The page's copy of the search criteria. */
  datatype Loaded = Loaded(location: Option<string>, checkIn: Option<Date>, checkOut: Option<Date>, guests: Option<Guests>)

  /**
    The effect run on every query change: the location is always overwritten
    (possibly with undefined); dates and guests only when the parameter is there.
  */
  function ReadQuery(prev: Loaded, p: Params): (next: Loaded)
    ensures next.location == p.location
    ensures Truthy(p.checkIn) ==> next.checkIn == Some(Date(p.checkIn.value))
    ensures !Truthy(p.checkIn) ==> next.checkIn == prev.checkIn
    ensures Truthy(p.checkOut) ==> next.checkOut == Some(Date(p.checkOut.value))
    ensures !Truthy(p.checkOut) ==> next.checkOut == prev.checkOut
    ensures next.guests == if p.guests.Some? then p.guests else prev.guests
  {
    Loaded(
      p.location,
      if Truthy(p.checkIn) then Some(Date(p.checkIn.value)) else prev.checkIn,
      if Truthy(p.checkOut) then Some(Date(p.checkOut.value)) else prev.checkOut,
      if p.guests.Some? then p.guests else prev.guests)
  }

  /**
    What the search bar submits is what the results page shows: the location
    and guests arrive, and each date arrives when it was set and otherwise the
    page keeps the one it had.
  */
  lemma SubmittedQueryArrives(prev: Loaded, q: Query)
    requires WellFormedDate(q.checkIn) && WellFormedDate(q.checkOut)
    ensures var next := ReadQuery(prev, SearchBar.SearchParams(q));
      && next.location == Some(q.location)
      && next.guests == Some(q.guests)
      && next.checkIn == (if q.checkIn.Some? then q.checkIn else prev.checkIn)
      && next.checkOut == (if q.checkOut.Some? then q.checkOut else prev.checkOut)
  {
  }

  class Page {
    var visibleMapButton: bool
    var currentScroll: int
    var isFullMap: bool
    /** The source's `map` flag: the map overlay is open on a small screen. */
    var mapOpen: bool
    var location: Option<string>
    var checkIn: Option<Date>
    var checkOut: Option<Date>
    var guests: Option<Guests>

    function Snapshot(): Loaded
      reads this
    {
      Loaded(location, checkIn, checkOut, guests)
    }

    constructor ()
      ensures visibleMapButton && currentScroll == 0 && !isFullMap && !mapOpen
      ensures ShowsList()
      ensures Snapshot() == Loaded(Some(""), None, None, None)
    {
      visibleMapButton := true;
      currentScroll := 0;
      isFullMap := false;
      mapOpen := false;
      location := Some("");
      checkIn := None;
      checkOut := None;
      guests := None;
    }

    /** The query effect; the view flags are untouched. */
    method ApplyQuery(p: Params)
      modifies this
      ensures Snapshot() == ReadQuery(old(Snapshot()), p)
      ensures visibleMapButton == old(visibleMapButton) && currentScroll == old(currentScroll)
      ensures isFullMap == old(isFullMap) && mapOpen == old(mapOpen)
    {
      location := p.location;
      if Truthy(p.checkIn) {
        checkIn := Some(Date(p.checkIn.value));
      }
      if Truthy(p.checkOut) {
        checkOut := Some(Date(p.checkOut.value));
      }
      if p.guests.Some? {
        guests := p.guests;
      }
    }

    /** `handleOnScroll`: the button shows unless the window moved down, and the position is remembered. */
    method WindowScroll(position: int)
      modifies this
      ensures visibleMapButton <==> position <= old(currentScroll)
      ensures currentScroll == position
      ensures isFullMap == old(isFullMap) && mapOpen == old(mapOpen) && Snapshot() == old(Snapshot())
    {
      if position > currentScroll {
        visibleMapButton := false;
      } else {
        visibleMapButton := true;
      }
      currentScroll := position;
    }

    /** The full-map button on the map. */
    method ToggleFullMap()
      modifies this
      ensures isFullMap == !old(isFullMap)
      ensures ShowsList() == !old(ShowsList())
      ensures mapOpen == old(mapOpen) && visibleMapButton == old(visibleMapButton)
      ensures currentScroll == old(currentScroll) && Snapshot() == old(Snapshot())
    {
      if isFullMap {
        isFullMap := false;
      } else {
        isFullMap := true;
      }
    }

    /** The floating list/map toggler on small screens. */
    method ToggleMap()
      modifies this
      ensures mapOpen == !old(mapOpen)
      ensures isFullMap == old(isFullMap) && visibleMapButton == old(visibleMapButton)
      ensures currentScroll == old(currentScroll) && Snapshot() == old(Snapshot())
    {
      if mapOpen {
        mapOpen := false;
      } else {
        mapOpen := true;
      }
    }

    /** The list column (with its heading) and the footer are hidden while the map is full width. */
    predicate ShowsList()
      reads this
    {
      !isFullMap
    }

    /** The heading is drawn only with the list column; while drawn it names the searched place or Chandigarh. */
    function VisibleHeading(): (h: Option<string>)
      reads this
      ensures h.Some? <==> !isFullMap
      ensures h.Some? ==> |h.value| > |HeadingText| && h.value[|HeadingText|..] == (if Truthy(location) then location.value else "Chandigarh")
    {
      if ShowsList() then Some(Heading()) else None
    }

    /** The results heading: the fixed text, then the searched place. */
    function Heading(): (h: string)
      reads this
      ensures |h| > |HeadingText|
      ensures h[..|HeadingText|] == HeadingText && h[|HeadingText|..] == HeadingPlace(location)
    {
      HeadingText + HeadingPlace(location)
    }
  }

  /** Two clicks on the full-map button bring the list back as it was. */
  method ToggleFullMapTwice(p: Page)
    modifies p
    ensures p.ShowsList() == old(p.ShowsList()) && p.isFullMap == old(p.isFullMap)
    ensures p.Snapshot() == old(p.Snapshot()) && p.mapOpen == old(p.mapOpen)
  {
    p.ToggleFullMap();
    p.ToggleFullMap();
  }
}
