/**
  The header search bar: a location field, a property-type menu, a furnishing
  menu (or, in the other header mode, a date-range field sharing the same menu
  slot) and a submit button. Which popover is open is one nullable value, set
  by focus and cleared by blur, clear and submit. Edits go to the shared data
  context, modelled as the `query` field.
*/
module SearchBar {
  import opened Wrappers
  import opened SearchQuery

  /** `ESearchMenu`: the popover slots. `Select` is the furnishing menu or the date picker. */
  datatype Menu = Location | PropertyType | Select

  const PropertyTypes: seq<string> := ["House/Flat", "PG", "Room", "Commercial"]
  const FurnishingOptions: seq<string> := ["Any", "Furnished", "Semi Furnished", "Unfurnished"]

  /** `className.slice(0, 3)`: the first three characters, or the whole name when shorter. */
  function ClassPrefix(className: string): (p: string)
    ensures |p| <= 3 && p <= className
  {
    if |className| >= 3 then className[..3] else className
  }

  /** A class name of the date picker's internals (`rdr...`) or of a button (`btn...`). */
  predicate IsRelatedClass(className: string) {
    ClassPrefix(className) in ["rdr", "btn"]
  }

  /** `relatedTargetClassList.some(...)`, scanned from the first class name. */
  predicate SomeRelatedClass(classes: seq<string>) {
    classes != [] && (IsRelatedClass(classes[0]) || SomeRelatedClass(classes[1..]))
  }

  /** Focus moving to an element keeps the popover exactly when one of its class names starts with `rdr` or `btn`. */
  lemma {:induction false} SomeRelatedClassIff(classes: seq<string>)
    ensures SomeRelatedClass(classes) <==>
      exists i :: 0 <= i < |classes| && |classes[i]| >= 3 && classes[i][..3] in ["rdr", "btn"]
  {
    if classes != [] {
      SomeRelatedClassIff(classes[1..]);
      RelatedClassIff(classes[0]);
      if SomeRelatedClass(classes[1..]) {
        var i :| 0 <= i < |classes[1..]| && |classes[1..][i]| >= 3 && classes[1..][i][..3] in ["rdr", "btn"];
        assert classes[i + 1] == classes[1..][i];
      }
      if exists i :: 0 <= i < |classes| && |classes[i]| >= 3 && classes[i][..3] in ["rdr", "btn"] {
        var i :| 0 <= i < |classes| && |classes[i]| >= 3 && classes[i][..3] in ["rdr", "btn"];
        if i > 0 {
          assert classes[1..][i - 1] == classes[i];
        }
      }
    }
  }

  /** A name shorter than three characters is never a related class. */
  lemma RelatedClassIff(className: string)
    ensures IsRelatedClass(className) <==> |className| >= 3 && className[..3] in ["rdr", "btn"]
  {
    if |className| < 3 {
      assert |"rdr"| == 3 && |"btn"| == 3;
    }
  }

  /** The `query` of the `router.push` done on submit. */
  function SearchParams(q: Query): (p: Params)
    ensures p.location == Some(q.location)
    ensures p.propertyType == Some(q.propertyType) && p.furnishing == Some(q.furnishing)
    ensures p.checkIn.Some? <==> q.checkIn.Some?
    ensures p.checkOut.Some? <==> q.checkOut.Some?
    ensures p.guests == Some(q.guests)
  {
    Params(
      Some(q.location),
      Some(q.propertyType),
      Some(q.furnishing),
      if q.checkIn.Some? then Some(q.checkIn.value.iso) else None,
      if q.checkOut.Some? then Some(q.checkOut.value.iso) else None,
      Some(q.guests))
  }

  datatype Navigation = Navigation(pathname: string, query: Params)

  class Bar {
    /** `searchPage`: the bar sits in the results page's header and must be closed on submit. */
    const searchPage: bool
    /** `searchMenu`: the open popover, if any. */
    var searchMenu: Option<Menu>
    /** The data context's search state. */
    var query: Query
    /** How many times the `closeSearch` callback has been called. */
    var closeSearchCalls: nat

    constructor (searchPage: bool, context: Query)
      ensures this.searchPage == searchPage
      ensures searchMenu == None && query == context && closeSearchCalls == 0
    {
      this.searchPage := searchPage;
      searchMenu := None;
      query := context;
      closeSearchCalls := 0;
    }

    /** Popover `m` is the one drawn open. */
    predicate IsActive(m: Menu)
      reads this
    {
      searchMenu == Some(m)
    }

    /** `isSearch={!!searchMenu}`: the submit button is expanded while any popover is open. */
    predicate IsSearch()
      reads this
    {
      searchMenu.Some?
    }

    /** A field gains focus: its popover opens and replaces any other. */
    method Focus(m: Menu)
      modifies this
      ensures searchMenu == Some(m)
      ensures query == old(query) && closeSearchCalls == old(closeSearchCalls)
    {
      searchMenu := Some(m);
    }

    /**
      `handleOnBlur`: `relatedTarget` is the class list of the element taking
      focus, or `None` when there is none (also when called without an event).
    */
    method Blur(relatedTarget: Option<seq<string>>)
      modifies this
      ensures searchMenu == (if relatedTarget.Some? && SomeRelatedClass(relatedTarget.value) then old(searchMenu) else None)
      ensures query == old(query) && closeSearchCalls == old(closeSearchCalls)
    {
      if relatedTarget.None? {
        searchMenu := None;
        return;
      }
      var result := SomeRelatedClass(relatedTarget.value);
      if !result {
        searchMenu := None;
      }
    }

    /** Typing in the location field. */
    method EditLocation(text: string)
      modifies this
      ensures query == old(query).(location := text)
      ensures searchMenu == old(searchMenu) && closeSearchCalls == old(closeSearchCalls)
    {
      query := query.(location := text);
    }

    method ClearLocation()
      modifies this
      ensures query == old(query).(location := "") && searchMenu == None
      ensures closeSearchCalls == old(closeSearchCalls)
    {
      query := query.(location := "");
      Blur(None);
    }

    method ClearPropertyType()
      modifies this
      ensures query == old(query).(propertyType := "") && searchMenu == None
      ensures closeSearchCalls == old(closeSearchCalls)
    {
      query := query.(propertyType := "");
      Blur(None);
    }

    method ClearFurnishing()
      modifies this
      ensures query == old(query).(furnishing := "") && searchMenu == None
      ensures closeSearchCalls == old(closeSearchCalls)
    {
      query := query.(furnishing := "");
      Blur(None);
    }

    /** `resetDate`: both dates dropped and the popover closed. */
    method ResetDates()
      modifies this
      ensures query == old(query).(checkIn := None, checkOut := None) && searchMenu == None
      ensures closeSearchCalls == old(closeSearchCalls)
    {
      query := query.(checkIn := None, checkOut := None);
      Blur(None);
    }

    /** Picking a property type from the menu commits it and closes the popover. */
    method ChoosePropertyType(t: string)
      requires t in PropertyTypes
      modifies this
      ensures query == old(query).(propertyType := t) && searchMenu == None
      ensures closeSearchCalls == old(closeSearchCalls)
    {
      query := query.(propertyType := t);
      Blur(None);
    }

    /** Picking a furnishing option commits it and closes the popover. */
    method ChooseFurnishing(option: string)
      requires option in FurnishingOptions
      modifies this
      ensures query == old(query).(furnishing := option) && searchMenu == None
      ensures closeSearchCalls == old(closeSearchCalls)
    {
      query := query.(furnishing := option);
      Blur(None);
    }

    /** The expanded search button's `onSearch`: back to the location field. */
    method PressSearch()
      modifies this
      ensures searchMenu == Some(Location)
      ensures query == old(query) && closeSearchCalls == old(closeSearchCalls)
    {
      searchMenu := Some(Location);
    }

    /**
      `handleOnSubmit`: an empty location reopens the location popover and
      goes nowhere; otherwise the header search is closed (on the results
      page), the popover closes and the browser is sent to `/search`.
    */
    method Submit() returns (nav: Option<Navigation>)
      modifies this
      ensures query == old(query)
      ensures query.location == "" ==> nav == None && searchMenu == Some(Location) && closeSearchCalls == old(closeSearchCalls)
      ensures query.location != "" ==>
        && nav == Some(Navigation("/search", SearchParams(query)))
        && searchMenu == None
        && closeSearchCalls == old(closeSearchCalls) + (if searchPage then 1 else 0)
    {
      if query.location == "" {
        searchMenu := Some(Location);
        return None;
      }
      if searchPage {
        closeSearchCalls := closeSearchCalls + 1;
      }
      searchMenu := None;
      nav := Some(Navigation("/search", SearchParams(query)));
    }
  }

  /** Only one popover can be open at a time. */
  lemma AtMostOneActive(bar: Bar, a: Menu, b: Menu)
    requires bar.IsActive(a) && bar.IsActive(b)
    ensures a == b
  {
  }

  /** The submit button is expanded exactly while some popover is open. */
  lemma SearchExpandedIffPopoverOpen(bar: Bar)
    ensures bar.IsSearch() <==> exists m :: bar.IsActive(m)
  {
    if bar.IsSearch() {
      assert bar.IsActive(bar.searchMenu.value);
    }
  }

  /** Choosing the option that is already selected leaves the query as it was. */
  method ChooseTwice(bar: Bar, t: string)
    requires t in PropertyTypes
    modifies bar
    ensures bar.query == old(bar.query).(propertyType := t) && bar.searchMenu == None
  {
    bar.ChoosePropertyType(t);
    var first := bar.query;
    bar.ChoosePropertyType(t);
    assert bar.query == first;
  }
}
