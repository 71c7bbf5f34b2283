# Rental storefront interaction rules, modelled in Dafny

This project models the client-side interaction logic of a short-term-rental
storefront: the listing card's price derivation and click state, the two
auto-playing carousels (pre-launch properties and guest reviews), the
scroll-button availability of a horizontal listing row, the search bar's
popover controller and submit gate, and the search results page's scroll,
toggle, map-centre and summary helpers. Browser timers are explicit events
(`Tick`, `Resume`, `Settle`); the browser's scroll geometry and the window
position are values passed to the events that read them.

Modules, one per component:

- `Wrappers` (wrappers.dfy): `Option`, the model's `undefined`/`null`.
- `SlideIndex` (slide_index.dfy): page count and wrap-around index steps shared by both carousels.
- `PlaceCard` (place_card.dfy): the price pattern `/₹?([\d,]+)/`, comma removal, `parseInt` with its NaN outcome, the 5-night total, the id and date fallbacks, and the `Card` class (favourite flag, selected image dot).
- `PreLaunch` (pre_launch.dfy) and `GuestReviews` (guest_reviews.dfy): the carousel classes, with the live autoplay interval as a field tied to the flags by `Valid()`, and the star-rating rule.
- `LocationSection` (location_section.dfy): the scroll flags, the button press and the delayed settle recomputation.
- `SearchQuery` (search_query.dfy): the shared search criteria and the `/search` URL parameters.
- `SearchBar` (search_bar.dfy): the `Bar` class with its single nullable popover value.
- `SearchPage` (search_page.dfy): the `Page` class, `CenterMap`, `Bulleted`, and the query read-back.

Behaviour worth knowing, as the components are written:

- An unmatched price text gives 0. A text whose first digit-or-comma run holds only commas (for example `Price, ₹2,511`) gives NaN, because `parseInt('')` is NaN. `PlaceCard.Parsed` keeps NaN as its own outcome.
- The guest-review carousel always draws its arrows and dots, and its autoplay interval has no length guard. Only the pre-launch carousel hides them, for three or fewer properties.
- The map wrapper seeds its view once from the centre it is given. Only `getCenterMap`'s fallback is modelled.
- The timeouts that resume autoplay are never cancelled. The model therefore allows a `Resume` event at any time.

## Model

| member | source | states |
|---|---|---|
| SlideIndex.CeilDiv | components/atoms/AppPreLaunch.tsx:35 | the page count covers all items: `n <= r*d`, `(r-1)*d < n`, and `r = 0` exactly when `n = 0` |
| SlideIndex.Next | components/atoms/AppPreLaunch.tsx:41 | `(i+1) % total` stays in range, goes from the last slide to 0 and otherwise to `i+1` |
| SlideIndex.Previous | components/atoms/AppPreLaunch.tsx:69-71 | `(i-1+total) % total` stays in range, goes from 0 to `total-1` and otherwise to `i-1` |
| SlideIndex.PreviousUndoesNext | components/atoms/AppPreLaunch.tsx:69-75 | previous and next are inverse moves on every valid index |
| SlideIndex.Advance | components/atoms/AppPreLaunch.tsx:39-42 | any number of autoplay ticks keeps the index in range |
| SlideIndex.AdvanceIsModular | components/atoms/AppPreLaunch.tsx:40-42 | `k` ticks from `i` land on `(i+k) % total` |
| SlideIndex.NextOfRemainder | components/atoms/AppGuestReviews.tsx:63 | one tick on `x % total` gives `(x+1) % total` |
| SlideIndex.FullCycleReturns | components/atoms/AppGuestReviews.tsx:61-64 | `total` ticks return the carousel to its starting slide |
| PlaceCard.RunEnd | components/atoms/AppPlaceCard.tsx:14 | the greedy `[\d,]+` run is maximal: every character inside is a digit or comma, and the next one is not |
| PlaceCard.MatchAt | components/atoms/AppPlaceCard.tsx:14 | a match at one position captures a non-empty run of digits and commas |
| PlaceCard.SearchFrom | components/atoms/AppPlaceCard.tsx:14 | the leftmost match captures a non-empty run of digits and commas |
| PlaceCard.PriceMatch | components/atoms/AppPlaceCard.tsx:14 | the first capture group, when present, is a non-empty run of digits and commas |
| PlaceCard.FirstPriceCharFrom | components/atoms/AppPlaceCard.tsx:14 | the index of the first digit or comma, with none before it |
| PlaceCard.CaptureIsFirstRun | components/atoms/AppPlaceCard.tsx:14 | the optional rupee sign never changes the capture: it is the first maximal run of `[0-9,]` |
| PlaceCard.PriceMatchInContext | components/atoms/AppPlaceCard.tsx:14 | a run between non-numeric text and a non-numeric character is exactly what is captured |
| PlaceCard.StripCommas | components/atoms/AppPlaceCard.tsx:15 | removing commas leaves no comma and turns a run of digits and commas into digits only |
| PlaceCard.StripCommasEmpty | components/atoms/AppPlaceCard.tsx:15 | nothing is left exactly when the run is made of commas only |
| PlaceCard.DecimalRoundTrip | components/atoms/AppPlaceCard.tsx:15 | reading a number's decimal numeral gives the number back |
| PlaceCard.Decimal | components/atoms/AppPlaceCard.tsx:122 | a number's numeral is a non-empty string of digits |
| PlaceCard.ParseDigits | components/atoms/AppPlaceCard.tsx:15 | `parseInt` on digits is NaN exactly for the empty string |
| PlaceCard.PerNightPrice | components/atoms/AppPlaceCard.tsx:14-15 | the per-night price is 0 when the text has no digit or comma; otherwise it is `parseInt` of the first digit-and-comma run with its commas removed |
| PlaceCard.TotalPrice | components/atoms/AppPlaceCard.tsx:16 | the total is NaN exactly when the per-night price is; otherwise it is a multiple of 5 whose fifth is the per-night price |
| PlaceCard.StayLabel | components/atoms/AppPlaceCard.tsx:122 | the label built from the same constant reads "for 5 nights" |
| PlaceCard.NoDigitsMeansZero | components/atoms/AppPlaceCard.tsx:14-15 | a price text with no digit and no comma gives 0 per night and 0 in total, not an error |
| PlaceCard.NaNExactlyForCommaOnlyRun | components/atoms/AppPlaceCard.tsx:14-16 | the price is NaN exactly when a match exists and it consists of commas only |
| PlaceCard.NumeralPriceReadsBack | components/atoms/AppPlaceCard.tsx:14-16 | any number written between non-numeric text reads back as itself, and the total is 5 times it |
| PlaceCard.FixturePrice2511 | utils/data.ts:68 | `₹2,511/night` gives 2511 per night and 12555 for the stay |
| PlaceCard.FixturePrice1898 | utils/data.ts:148 | `₹1,898/night` gives 1898 per night |
| PlaceCard.DecimalOfFourDigits | utils/data.ts:68 | four digits read as their positional value |
| PlaceCard.CommaFirstIsNaN | components/atoms/AppPlaceCard.tsx:14-16 | `Price, ₹2,511` captures `,` alone and gives NaN, not 0 |
| PlaceCard.OrElse | components/atoms/AppPlaceCard.tsx:24-27 | `v \|\| fallback` is never empty: it gives the value when present and non-empty, otherwise the fallback |
| PlaceCard.ListingUrl | components/atoms/AppPlaceCard.tsx:27-28 | the card link always starts with `/listing/` |
| PlaceCard.RouteId | components/atoms/AppPlaceCard.tsx:28 | the id the detail page reads from `router.query.id` (line 125 of the listing detail page, `pages/listing/[id].tsx`) is defined exactly for paths under the card link's `/listing/` prefix |
| PlaceCard.ListingUrlRoundTrip | components/atoms/AppPlaceCard.tsx:27-28 | the detail route receives the card's id, or `1` when the id is missing or empty |
| PlaceCard.StayDates | components/atoms/AppPlaceCard.tsx:24-25 | missing dates show as `20 Dec` and `25 Dec` |
| PlaceCard.Card.constructor | components/atoms/AppPlaceCard.tsx:9-10 | not a favourite, first image selected |
| PlaceCard.Card.ToggleFavorite | components/atoms/AppPlaceCard.tsx:48-51 | each heart click flips the favourite flag once and leaves the image selection alone |
| PlaceCard.Card.SelectImage | components/atoms/AppPlaceCard.tsx:67-75 | clicking dot `k` (dots exist only for more than one image, `k < images.length`) selects image `k` |
| PlaceCard.ExactlyOneActiveImageDot | components/atoms/AppPlaceCard.tsx:67-77 | with the dots drawn, the selected image has a dot and it is the only wide one |
| PreLaunch.TotalSlides | components/atoms/AppPreLaunch.tsx:34-35 | `ceil(n/3)` pages: at least one page for any property and at least two for more than three |
| PreLaunch.ShowsControls | components/atoms/AppPreLaunch.tsx:90 | the arrows and dots are drawn exactly when there is more than one page of properties |
| PreLaunch.DotCount | components/atoms/AppPreLaunch.tsx:185-187 | dots exist exactly when there are more than three properties, one per page |
| PreLaunch.ScrollTarget | components/atoms/AppPreLaunch.tsx:55-57 | the scroll offset `index * (width/3) * 3` is `index` container widths |
| PreLaunch.Carousel.constructor | components/atoms/AppPreLaunch.tsx:29-30 | starts on page 0 with autoplay on and the interval live iff there are more than three properties |
| PreLaunch.Carousel.SyncInterval | components/atoms/AppPreLaunch.tsx:38-50 | after the effect, the interval is live exactly when autoplay is on and there are more than three properties |
| PreLaunch.Carousel.Tick | components/atoms/AppPreLaunch.tsx:39-42 | a tick is delivered only by a live interval and moves to the next page, wrapping; the index stays in range |
| PreLaunch.Carousel.GoToSlide | components/atoms/AppPreLaunch.tsx:63-67 | a dot click sets the page and pauses autoplay |
| PreLaunch.Carousel.GoToPrevious | components/atoms/AppPreLaunch.tsx:69-71 | previous wraps from page 0 to the last page and pauses autoplay |
| PreLaunch.Carousel.GoToNext | components/atoms/AppPreLaunch.tsx:73-75 | next wraps from the last page to 0 and pauses autoplay |
| PreLaunch.Carousel.Resume | components/atoms/AppPreLaunch.tsx:66 | the delayed resume turns autoplay back on without moving the index |
| PreLaunch.Carousel.MouseEnter | components/atoms/AppPreLaunch.tsx:117 | hovering pauses autoplay and stops the interval; the index is unchanged |
| PreLaunch.Carousel.MouseLeave | components/atoms/AppPreLaunch.tsx:118 | leaving resumes autoplay; the index is unchanged |
| PreLaunch.ExactlyOneActiveDot | components/atoms/AppPreLaunch.tsx:187-198 | with controls shown, the current page's dot exists and is the only active one |
| GuestReviews.TotalSlides | components/atoms/AppGuestReviews.tsx:56 | the slide count is the fixed review list's length, 4 |
| GuestReviews.DotCount | components/atoms/AppGuestReviews.tsx:192-193 | one dot per review, as many as there are slides |
| GuestReviews.ScrollTarget | components/atoms/AppGuestReviews.tsx:77-80 | each slide step scrolls half the container width |
| GuestReviews.Carousel.constructor | components/atoms/AppGuestReviews.tsx:51-52 | starts on review 0 with autoplay and its interval on |
| GuestReviews.Carousel.SyncInterval | components/atoms/AppGuestReviews.tsx:60-72 | the interval is live exactly when autoplay is on, with no length guard |
| GuestReviews.Carousel.Tick | components/atoms/AppGuestReviews.tsx:61-64 | a tick advances to `(i+1) mod 4` and keeps the index in `[0, 4)` |
| GuestReviews.Carousel.GoToSlide | components/atoms/AppGuestReviews.tsx:85-90 | a dot click sets the review and pauses autoplay |
| GuestReviews.Carousel.GoToPrevious | components/atoms/AppGuestReviews.tsx:92-94 | previous wraps modulo 4 through `goToSlide`, pausing autoplay |
| GuestReviews.Carousel.GoToNext | components/atoms/AppGuestReviews.tsx:96-98 | next wraps modulo 4 through `goToSlide`, pausing autoplay |
| GuestReviews.Carousel.Resume | components/atoms/AppGuestReviews.tsx:89 | the delayed resume turns autoplay back on, index unchanged |
| GuestReviews.Carousel.MouseEnter | components/atoms/AppGuestReviews.tsx:140 | hovering pauses autoplay, index unchanged |
| GuestReviews.Carousel.MouseLeave | components/atoms/AppGuestReviews.tsx:141 | leaving resumes autoplay, index unchanged |
| GuestReviews.ExactlyOneActiveDot | components/atoms/AppGuestReviews.tsx:193-198 | the current review's dot exists and is the only wide one |
| GuestReviews.Stars | components/atoms/AppGuestReviews.tsx:152 | every card draws exactly five stars |
| GuestReviews.CountFilled | components/atoms/AppGuestReviews.tsx:152-157 | no more stars are filled than drawn |
| GuestReviews.FilledStarsMatchRating | components/atoms/AppGuestReviews.tsx:152-157 | the number of filled stars is the rating clamped to 0..5 |
| GuestReviews.FilledPrefix | components/atoms/AppGuestReviews.tsx:156 | among the first `m` stars, the rating clamped to 0..m are filled |
| GuestReviews.FilledStarsAreLeading | components/atoms/AppGuestReviews.tsx:156 | star `i` is filled iff `i < rating`, so the filled stars come first |
| LocationSection.RequestedOffset | components/atoms/AppLocationSection.tsx:19-22 | a press asks for exactly 400 px to the left or to the right |
| LocationSection.RightAvailabilityThreshold | components/atoms/AppLocationSection.tsx:45-46 | right is available up to 11 px short of the maximum offset; right availability only grows as the offset decreases, and left availability only grows as it increases |
| LocationSection.WideRowExamples | components/atoms/AppLocationSection.tsx:45-46 | for a 1000/400 row: offset 0 gives left off and right on; 589 gives right on; 590 and 610 give right off |
| LocationSection.Section.constructor | components/atoms/AppLocationSection.tsx:14-15 | the flags start as left off and right on, whatever the row's size |
| LocationSection.Section.HandleScroll | components/atoms/AppLocationSection.tsx:41-47 | left iff `scrollLeft > 0`; right iff `scrollLeft < scrollWidth - clientWidth - 10` |
| LocationSection.Section.Press | components/atoms/AppLocationSection.tsx:17-28 | a disabled button does nothing; an enabled one requests offset ±400 and starts a settle, leaving the flags as they were |
| LocationSection.Section.Settle | components/atoms/AppLocationSection.tsx:30-37 | the delayed recomputation sets the flags by the same rule as the scroll handler |
| LocationSection.DisabledFollowsGeometry | components/atoms/AppLocationSection.tsx:61-73 | with the flags read off a geometry, left is disabled iff the offset is at most 0 and right iff the offset is within 10 px of the end; a row that fits its viewport disables both |
| LocationSection.SettleAgreesWithScroll | components/atoms/AppLocationSection.tsx:30-47 | a settle and a scroll event on the same geometry leave the same flags |
| SearchBar.ClassPrefix | components/molecules/AppSearchBar.tsx:55 | `slice(0, 3)` is a prefix of at most three characters |
| SearchBar.SomeRelatedClassIff | components/molecules/AppSearchBar.tsx:52-57 | a blur to a target keeps the popover iff one of its class names has `rdr` or `btn` as its first three characters |
| SearchBar.RelatedClassIff | components/molecules/AppSearchBar.tsx:54-55 | a class name shorter than three characters never keeps the popover |
| SearchBar.SearchParams | components/molecules/AppSearchBar.tsx:76-86 | the submitted query carries the location, the property type, the furnishing, the dates when present (otherwise undefined) and the guests |
| SearchBar.Bar.constructor | components/molecules/AppSearchBar.tsx:41 | no popover is open at first |
| SearchBar.Bar.Focus | components/molecules/AppSearchBar.tsx:121 | focusing a field opens its popover and closes any other |
| SearchBar.Bar.Blur | components/molecules/AppSearchBar.tsx:46-58 | no related target closes the popover; a target keeps it only when one of its class names is allow-listed |
| SearchBar.Bar.EditLocation | components/molecules/AppSearchBar.tsx:118-120 | typing sets the location only |
| SearchBar.Bar.ClearLocation | components/molecules/AppSearchBar.tsx:123-126 | clearing empties the location and closes the popover |
| SearchBar.Bar.ClearPropertyType | components/molecules/AppSearchBar.tsx:151-154 | clearing empties the property type and closes the popover |
| SearchBar.Bar.ClearFurnishing | components/molecules/AppSearchBar.tsx:189-192 | clearing empties the furnishing and closes the popover |
| SearchBar.Bar.ResetDates | components/molecules/AppSearchBar.tsx:60-65 | clearing the dates drops both and closes the popover |
| SearchBar.Bar.ChoosePropertyType | components/molecules/AppSearchBar.tsx:162-168 | choosing a listed type commits it and closes the popover |
| SearchBar.Bar.ChooseFurnishing | components/molecules/AppSearchBar.tsx:203-209 | choosing a listed option commits it and closes the popover |
| SearchBar.Bar.PressSearch | components/molecules/AppSearchBar.tsx:194 | the expanded search button reopens the location popover |
| SearchBar.Bar.Submit | components/molecules/AppSearchBar.tsx:67-87 | an empty location reopens the location popover and goes nowhere; otherwise `closeSearch` is called iff on the search page, the popover closes, and the navigation is to `/search` with the query's parameters |
| SearchBar.AtMostOneActive | components/molecules/AppSearchBar.tsx:41 | at most one popover is open |
| SearchBar.SearchExpandedIffPopoverOpen | components/molecules/AppSearchBar.tsx:193 | `isSearch` holds exactly when some popover is open |
| SearchBar.ChooseTwice | components/molecules/AppSearchBar.tsx:162-168 | choosing the same option twice leaves the query as one choice does |
| SearchPage.CenterMap | pages/search.tsx:60-70 | the resolved centre never has a zero coordinate; a usable computed centre is kept unchanged, otherwise it falls back to (30.7333, 76.7794) |
| SearchPage.CenterMapIdempotent | pages/search.tsx:67-69 | resolving an already resolved centre changes nothing |
| SearchPage.ZeroCoordinateFallsBack | pages/search.tsx:67 | a zero latitude or longitude counts as missing |
| SearchPage.Bulleted | pages/search.tsx:50-58 | `getGuests`/`getDates` give `"• " + s` for a non-empty formatted `s` (the bullet strips back off to `s`) and undefined otherwise |
| SearchPage.HeadingPlace | pages/search.tsx:88 | the heading names the location, or Chandigarh when it is empty or undefined |
| SearchPage.ReadQuery | pages/search.tsx:33-38 | the location is always overwritten; check-in, check-out and guests change only when their parameter is present |
| SearchPage.SubmittedQueryArrives | pages/search.tsx:33-38 | what the search bar submits arrives on the results page: the location and guests always, and each date when it was set |
| SearchPage.Page.constructor | pages/search.tsx:23-31 | map button visible, scroll 0, list shown, empty location, no dates or guests |
| SearchPage.Page.ApplyQuery | pages/search.tsx:33-38 | the query effect updates the criteria as `ReadQuery` says and leaves the view flags alone |
| SearchPage.Page.WindowScroll | pages/search.tsx:41-45 | the map button is visible iff the new position is not below the recorded one, and the position is recorded |
| SearchPage.Page.ToggleFullMap | pages/search.tsx:131 | each click flips `isFullMap`, hides or shows the list, and changes nothing else |
| SearchPage.Page.VisibleHeading | pages/search.tsx:83-88 | the list column with its heading is drawn exactly when the map is not full width, and the heading then names the location or Chandigarh |
| SearchPage.ToggleFullMapTwice | pages/search.tsx:131 | two clicks on the full-map button bring the list back and change nothing else |
| SearchPage.Page.ToggleMap | pages/search.tsx:181-183 | each click flips the small-screen map overlay and nothing else |
| SearchPage.Page.Heading | pages/search.tsx:88 | the heading is exactly "Over 1,000 homes in " followed by the location, or Chandigarh |

## Left out

- Rendering: JSX markup, class strings, images, icons and style blocks. Only the visibility and active-state rules are modelled, as predicates (`ShowsDots`, `ShowsControls`, `DotIsActive`, `IsDisabled`, `ShowsList`).
- Currency formatting (`Intl.NumberFormat` for INR) is a locale library. The model stops at the integer total.
- PerNightPrice: takes the price as a string. A listing without a `price` field makes `data.price.match` throw a TypeError at AppPlaceCard.tsx:14, and that failure is not modelled.
- RouteId: reads everything after `/listing/` as the id. The single-segment `[id]` route and percent-decoding are not modelled, so `RouteId` accepts ids that contain `/`.
- `parseInt` returns an IEEE double. The model reads the digits as an unbounded natural number, so precision loss above 2^53 is not modelled.
- Timers: the 4 s autoplay interval, the 10 s resume timeout and the 300 ms settle timeout are explicit events. Their timing is not modelled, nor are overlapping resume timeouts. A `Resume` may arrive at any time, which over-approximates the real timeouts.
- Carousel unmount and prop changes: the model has no unmount event, and the property count is fixed when the carousel is created.
- Browser geometry: smooth scrolling, the browser's clamping of `scrollTo`, and fractional pixel values. Offsets and widths are integers in `LocationSection`, and scroll targets are reals in the carousels.
- Review ratings are integers. A fractional rating is not modelled.
- `router.push`, URL serialisation, `toISOString`, `new Date(...)`, `JSON.stringify` and `JSON.parse` are foreign. A date travels as its ISO text. The guests travel as their decoded value. Array-valued query parameters are not modelled.
- `formatGuests`, `formatRangeDate` and `formatCheckDate` are not part of this model. `Bulleted` takes their output as a parameter.
- `geolib.getCenter`, `react-map-gl` and the map wrapper are foreign. `CenterMap` takes the computed centre (`None` for no centre). Coordinates are reals, so a NaN coordinate is not modelled.
- The data-context reducer and its action types are not part of this model. Each dispatch is a field update on `Bar.query`.
- The header mode that chooses between the property-type/furnishing fields and the date field is not modelled. Both kinds of field are available in `Bar`, and the furnishing menu and the date picker share the `Select` slot as in the code.
- Static fixtures, the remote fetch, the home page composition and the marker keys are not modelled.
