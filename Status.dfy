/**
 * The response status codes of the geocoding web service and the total mapping
 * from the response's `status` text to them.
 */
module GeocoderStatus {
  import opened Wrappers

  datatype Status =
    | OK                // no errors, at least one geocode returned
    | ZERO_RESULTS      // success, but nothing matched
    | OVER_QUERY_LIMIT  // over quota
    | REQUEST_DENIED
    | INVALID_REQUEST   // the query (address, components or latlng) is missing
    | UNKNOWN_ERROR     // server error; the same request may succeed later

  /** The constant's name, as Java's Enum.name() gives it. */
  function Name(s: Status): string {
    match s
    case OK => "OK"
    case ZERO_RESULTS => "ZERO_RESULTS"
    case OVER_QUERY_LIMIT => "OVER_QUERY_LIMIT"
    case REQUEST_DENIED => "REQUEST_DENIED"
    case INVALID_REQUEST => "INVALID_REQUEST"
    case UNKNOWN_ERROR => "UNKNOWN_ERROR"
  }

  /** True when `text` is exactly (same letter case) the name of some constant. */
  ghost predicate IsStatusName(text: string) {
    exists s: Status :: Name(s) == text
  }

  /**
   * Status.fromString: a null or empty text, and any text that is not exactly a
   * constant's name, gives UNKNOWN_ERROR; it never fails.
   */
  function FromString(text: Option<string>): (r: Status)
    ensures text.Some? && IsStatusName(text.value) ==> Name(r) == text.value
    ensures !(text.Some? && IsStatusName(text.value)) ==> r == UNKNOWN_ERROR
    ensures text == None || text == Some("") ==> r == UNKNOWN_ERROR
  {
    match text
    case None => UNKNOWN_ERROR
    case Some(t) =>
      if t == [] then UNKNOWN_ERROR
      else match t
        case "OK" => OK
        case "ZERO_RESULTS" => ZERO_RESULTS
        case "OVER_QUERY_LIMIT" => OVER_QUERY_LIMIT
        case "REQUEST_DENIED" => REQUEST_DENIED
        case "INVALID_REQUEST" => INVALID_REQUEST
        case "UNKNOWN_ERROR" => UNKNOWN_ERROR
        case _ => UNKNOWN_ERROR
  }

  /** Reading back the name of any constant gives that constant. */
  lemma {:induction false} FromNameRoundTrip(s: Status)
    ensures FromString(Some(Name(s))) == s
  {
    assert Name(s) != [];
  }

  /** Names differ from one another, so the round trip cannot confuse two constants. */
  lemma NameInjective(s: Status, t: Status)
    ensures Name(s) == Name(t) ==> s == t
  {
    FromNameRoundTrip(s);
    FromNameRoundTrip(t);
  }
}
