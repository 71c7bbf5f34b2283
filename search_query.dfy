/**
  The search criteria shared between the search bar (which writes them into
  the data context) and the results page (which reads them back out of the
  URL), and the shape of the URL query that carries them.
*/
module SearchQuery {
  import opened Wrappers

  /** A calendar date, carried as the ISO-8601 text `toISOString` produces for it. */
  datatype Date = Date(iso: string)

  /** Guest counts by category (adults, children, ...). */
  type Guests = map<string, nat>

  /** The data context's search state. */
  datatype Query = Query(
    location: string,
    checkIn: Option<Date>,
    checkOut: Option<Date>,
    guests: Guests,
    propertyType: string,
    furnishing: string)

  /** The query parameters of a `/search` URL; `None` is an absent (undefined) parameter. */
  datatype Params = Params(
    location: Option<string>,
    propertyType: Option<string>,
    furnishing: Option<string>,
    checkIn: Option<string>,
    checkOut: Option<string>,
    guests: Option<Guests>)

  /** JavaScript truthiness of a string parameter: present and not empty. */
  predicate Truthy(v: Option<string>) {
    v.Some? && v.value != ""
  }

  /** `toISOString()` never yields the empty string. */
  predicate WellFormedDate(d: Option<Date>) {
    d.Some? ==> d.value.iso != ""
  }
}
