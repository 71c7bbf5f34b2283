/**
  The pre-launch carousel: properties shown three to a page, an autoplay
  interval that advances one page every four seconds, previous / next buttons
  and one dot per page, all of them only when there is more than one page's
  worth of properties. Timers are explicit events: `Tick` is one firing of the
  autoplay interval and `Resume` the ten-second timeout set by a manual move.
*/
module PreLaunch {
  import opened SlideIndex

  const PropertiesPerView: nat := 3

  /** `Math.ceil(properties.length / propertiesPerView)`. */
  function TotalSlides(n: nat): (r: nat)
    ensures (r - 1) * PropertiesPerView < n <= r * PropertiesPerView || (n == 0 && r == 0)
    ensures n > 0 ==> r > 0
    ensures n > PropertiesPerView ==> r >= 2
  {
    CeilDiv(n, PropertiesPerView)
  }

  /** Previous / next buttons and the dot row are rendered only for more than one page of properties. */
  function ShowsControls(n: nat): (r: bool)
    ensures n > 0 ==> (r <==> TotalSlides(n) >= 2)
  {
    n > PropertiesPerView
  }

  /** The number of dots drawn under the carousel. */
  function DotCount(n: nat): (r: nat)
    ensures r > 0 <==> ShowsControls(n)
    ensures ShowsControls(n) ==> r == TotalSlides(n)
  {
    if ShowsControls(n) then TotalSlides(n) else 0
  }

  /** The scroll offset for a page: `index * (width / 3) * 3`, which is `index` container widths. */
  function ScrollTarget(index: nat, width: real): (left: real)
    ensures left == index as real * width
  {
    var cardWidth := width / PropertiesPerView as real;
    index as real * cardWidth * PropertiesPerView as real
  }

  class Carousel {
    /** `properties.length`. */
    const propertyCount: nat
    var currentIndex: nat
    var isAutoPlaying: bool
    /** Whether the four-second autoplay interval is registered. */
    var intervalRunning: bool

    /**
      The index names a page, and the interval runs exactly while autoplay is
      on and there is more than one page (the effect clears it otherwise).
    */
    ghost predicate Valid()
      reads this
    {
      && currentIndex < TotalSlides(propertyCount)
      && intervalRunning == (isAutoPlaying && propertyCount > PropertiesPerView)
    }

    /** The home page mounts the carousel only when it has at least one property. */
    constructor (propertyCount: nat)
      requires propertyCount > 0
      ensures Valid()
      ensures this.propertyCount == propertyCount
      ensures currentIndex == 0 && isAutoPlaying
    {
      this.propertyCount := propertyCount;
      currentIndex := 0;
      isAutoPlaying := true;
      intervalRunning := propertyCount > PropertiesPerView;
    }

    /** The effect run after every change of the autoplay flag: clear the old interval, maybe set a new one. */
    method SyncInterval()
      modifies this`intervalRunning
      ensures intervalRunning == (isAutoPlaying && propertyCount > PropertiesPerView)
    {
      intervalRunning := false;
      if isAutoPlaying && propertyCount > PropertiesPerView {
        intervalRunning := true;
      }
    }

    /** One firing of the autoplay interval: `(prevIndex + 1) % totalSlides`. */
    method Tick()
      requires Valid() && intervalRunning
      modifies this
      ensures Valid()
      ensures currentIndex == Next(old(currentIndex), TotalSlides(propertyCount))
      ensures isAutoPlaying == old(isAutoPlaying) && intervalRunning
    {
      currentIndex := (currentIndex + 1) % TotalSlides(propertyCount);
    }

    /** A dot click: jump to page `k` and pause autoplay until the resume timeout fires. */
    method GoToSlide(k: nat)
      requires Valid() && ShowsControls(propertyCount) && k < TotalSlides(propertyCount)
      modifies this
      ensures Valid()
      ensures currentIndex == k && !isAutoPlaying
    {
      currentIndex := k;
      isAutoPlaying := false;
      SyncInterval();
    }

    method GoToPrevious()
      requires Valid() && ShowsControls(propertyCount)
      modifies this
      ensures Valid()
      ensures currentIndex == Previous(old(currentIndex), TotalSlides(propertyCount))
      ensures !isAutoPlaying
    {
      var total := TotalSlides(propertyCount);
      GoToSlide((currentIndex - 1 + total) % total);
    }

    method GoToNext()
      requires Valid() && ShowsControls(propertyCount)
      modifies this
      ensures Valid()
      ensures currentIndex == Next(old(currentIndex), TotalSlides(propertyCount))
      ensures !isAutoPlaying
    {
      var total := TotalSlides(propertyCount);
      GoToSlide((currentIndex + 1) % total);
    }

    /** The ten-second timeout set by `goToSlide`: autoplay back on, the index untouched. */
    method Resume()
      requires Valid()
      modifies this
      ensures Valid()
      ensures isAutoPlaying && currentIndex == old(currentIndex)
    {
      isAutoPlaying := true;
      SyncInterval();
    }

    /** Pointer enters the row: autoplay pauses, the index stays. */
    method MouseEnter()
      requires Valid()
      modifies this
      ensures Valid()
      ensures !isAutoPlaying && !intervalRunning && currentIndex == old(currentIndex)
    {
      isAutoPlaying := false;
      SyncInterval();
    }

    /** Pointer leaves the row: autoplay resumes, the index stays. */
    method MouseLeave()
      requires Valid()
      modifies this
      ensures Valid()
      ensures isAutoPlaying && currentIndex == old(currentIndex)
    {
      isAutoPlaying := true;
      SyncInterval();
    }

    /** Dot `j` is drawn wide exactly when it is the current page. */
    predicate DotIsActive(j: nat)
      reads this
    {
      j == currentIndex
    }
  }

  /** With the controls shown, exactly one of the dots is the active one. */
  lemma ExactlyOneActiveDot(c: Carousel)
    requires c.Valid() && ShowsControls(c.propertyCount)
    ensures c.currentIndex < DotCount(c.propertyCount) && c.DotIsActive(c.currentIndex)
    ensures forall j :: 0 <= j < DotCount(c.propertyCount) && c.DotIsActive(j) ==> j == c.currentIndex
  {
  }
}
