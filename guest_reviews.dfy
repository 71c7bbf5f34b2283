/**
  The guest-review carousel: the same autoplay / pause / resume machine as the
  pre-launch carousel, over a fixed list of four reviews with one slide per
  review, no guard on the list length, and arrow buttons that are always
  drawn. Each review card shows five stars, the first `rating` of them filled.
*/
module GuestReviews {
  import opened SlideIndex

  datatype Review = Review(name: string, location: string, date: string, text: string, rating: int)

  /** The built-in review list (texts shortened; only their number and ratings matter here). */
  const Reviews: seq<Review> := [
    Review("Anita Desai", "Mumbai", "November 2025", "Amazing experience!", 5),
    Review("Vikram Mehta", "Delhi", "October 2025", "Great location, clean and comfortable.", 5),
    Review("Priya Sharma", "Bangalore", "September 2025", "Perfect stay for our family vacation.", 5),
    Review("Rajesh Kumar", "Pune", "August 2025", "Excellent service and beautiful property.", 5)
  ]

  /** `reviews.length`: one slide and one dot per review. */
  function TotalSlides(): (r: nat)
    ensures r == 4
  {
    |Reviews|
  }

  /** `reviews.map(...)` under the carousel: one dot per review, always drawn. */
  function DotCount(): (r: nat)
    ensures r == |Reviews| && r == TotalSlides()
  {
    |Reviews|
  }

  /** Cards shown side by side on a wide screen; a slide step is one card width. */
  const SlidesToShow: nat := 2

  /** `currentIndex * (offsetWidth / slidesToShow)`. */
  function ScrollTarget(index: nat, width: real): (left: real)
    ensures left * SlidesToShow as real == index as real * width
  {
    index as real * (width / SlidesToShow as real)
  }

  class Carousel {
    var currentIndex: nat
    var isAutoPlaying: bool
    /** Whether the four-second autoplay interval is registered. */
    var intervalRunning: bool

    /** The index names a review, and the interval runs exactly while autoplay is on. */
    ghost predicate Valid()
      reads this
    {
      currentIndex < TotalSlides() && intervalRunning == isAutoPlaying
    }

    constructor ()
      ensures Valid()
      ensures currentIndex == 0 && isAutoPlaying
    {
      currentIndex := 0;
      isAutoPlaying := true;
      intervalRunning := true;
    }

    /** The effect run after every change of the autoplay flag. */
    method SyncInterval()
      modifies this`intervalRunning
      ensures intervalRunning == isAutoPlaying
    {
      intervalRunning := false;
      if isAutoPlaying {
        intervalRunning := true;
      }
    }

    /** One firing of the autoplay interval: `(prevIndex + 1) % totalSlides`. */
    method Tick()
      requires Valid() && intervalRunning
      modifies this
      ensures Valid()
      ensures currentIndex == Next(old(currentIndex), TotalSlides())
      ensures isAutoPlaying && intervalRunning
    {
      currentIndex := (currentIndex + 1) % TotalSlides();
    }

    /** A dot click (or an arrow): jump to review `k` and pause autoplay until the resume timeout. */
    method GoToSlide(k: nat)
      requires Valid() && k < TotalSlides()
      modifies this
      ensures Valid()
      ensures currentIndex == k && !isAutoPlaying
    {
      currentIndex := k;
      isAutoPlaying := false;
      SyncInterval();
    }

    method GoToPrevious()
      requires Valid()
      modifies this
      ensures Valid()
      ensures currentIndex == Previous(old(currentIndex), TotalSlides())
      ensures !isAutoPlaying
    {
      var total := TotalSlides();
      GoToSlide((currentIndex - 1 + total) % total);
    }

    method GoToNext()
      requires Valid()
      modifies this
      ensures Valid()
      ensures currentIndex == Next(old(currentIndex), TotalSlides())
      ensures !isAutoPlaying
    {
      var total := TotalSlides();
      GoToSlide((currentIndex + 1) % total);
    }

    /** The ten-second timeout set by `goToSlide`. */
    method Resume()
      requires Valid()
      modifies this
      ensures Valid()
      ensures isAutoPlaying && currentIndex == old(currentIndex)
    {
      isAutoPlaying := true;
      SyncInterval();
    }

    method MouseEnter()
      requires Valid()
      modifies this
      ensures Valid()
      ensures !isAutoPlaying && currentIndex == old(currentIndex)
    {
      isAutoPlaying := false;
      SyncInterval();
    }

    method MouseLeave()
      requires Valid()
      modifies this
      ensures Valid()
      ensures isAutoPlaying && currentIndex == old(currentIndex)
    {
      isAutoPlaying := true;
      SyncInterval();
    }

    /** Dot `j` is drawn wide exactly when it is the current review. */
    predicate DotIsActive(j: nat)
      reads this
    {
      j == currentIndex
    }
  }

  /** The current review's dot exists and is the only wide one. */
  lemma ExactlyOneActiveDot(c: Carousel)
    requires c.Valid()
    ensures c.currentIndex < DotCount() && c.DotIsActive(c.currentIndex)
    ensures forall j :: 0 <= j < DotCount() && c.DotIsActive(j) ==> j == c.currentIndex
  {
  }

  // ---------------------------------------------------------------------------
  // Star rating
  // ---------------------------------------------------------------------------

  const StarCount: nat := 5

  /** `[...Array(5)].map((_, i) => i < review.rating)`: which of the five stars are filled. */
  function Stars(rating: int): (stars: seq<bool>)
    ensures |stars| == StarCount
  {
    seq(StarCount, i => i < rating)
  }

  /** The number of `true` entries. */
  function CountFilled(stars: seq<bool>): (r: nat)
    ensures r <= |stars|
  {
    if stars == [] then 0 else CountFilled(stars[..|stars| - 1]) + (if stars[|stars| - 1] then 1 else 0)
  }

  function Clamp(x: int, lo: int, hi: int): int
    requires lo <= hi
  {
    if x < lo then lo else if x > hi then hi else x
  }

  /** A rating fills its own number of stars, clamped to the range 0..5. */
  lemma FilledStarsMatchRating(rating: int)
    ensures CountFilled(Stars(rating)) == Clamp(rating, 0, StarCount)
  {
    FilledPrefix(rating, StarCount);
  }

  lemma {:induction false} FilledPrefix(rating: int, m: nat)
    ensures CountFilled(seq(m, i => i < rating)) == Clamp(rating, 0, m)
  {
    if m > 0 {
      var s := seq(m, i => i < rating);
      assert s[..m - 1] == seq(m - 1, i => i < rating);
      FilledPrefix(rating, m - 1);
    }
  }

  /** The filled stars come first: star `i` is filled exactly when `i < rating`. */
  lemma FilledStarsAreLeading(rating: int, i: nat, j: nat)
    requires i <= j < StarCount
    ensures Stars(rating)[i] <==> i < rating
    ensures Stars(rating)[j] ==> Stars(rating)[i]
  {
  }
}
