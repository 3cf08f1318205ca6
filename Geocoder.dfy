/**
 * The Geocoder around the parser: argument checks, the client-side quota gate
 * with its lazily loaded "allowed date", the request's query parameters, and
 * the forward lookup's single retry after an over-limit answer.
 *
 * What the platform supplies is an input here: the outcome of each download,
 * the clock readings, and whether the retry wait was interrupted.
 */
module GeocoderClient {
  import opened Wrappers
  import opened Json
  import opened GeocoderStatus
  import opened GeocoderErrors
  import opened AddressModel
  import opened Parser

  const PreferencesName := "com.doctoror.geocoder.preferences"
  const AllowKey := "com.doctoror.geocoder.preferences.keys.allow"
  const EndpointUrl := "https://maps.googleapis.com/maps/api/geocode/json"

  /** How long the forward lookup waits before its one retry, in milliseconds. */
  const RetryDelayMillis := 2000

  /** How long requests stay refused after a second over-limit answer: 24 hours in milliseconds. */
  const LockMillis := 86400000

  // ---------------------------------------------------------------------------
  // Query parameters

  /** A query parameter's value; the coordinate pair stays a pair (its decimal rendering is not modelled). */
  datatype ParameterValue = Text(s: string) | LatLng(latitude: real, longitude: real)

  datatype Parameter = Parameter(name: string, value: ParameterValue)

  /** The value of the first parameter called `name`, if any. */
  function Lookup(query: seq<Parameter>, name: string): (v: Option<ParameterValue>)
    ensures v.Some? <==> exists k :: 0 <= k < |query| && query[k].name == name
    ensures v.Some? ==> exists k :: 0 <= k < |query| && query[k] == Parameter(name, v.value)
  {
    if query == [] then None
    else if query[0].name == name then Some(query[0].value)
    else
      var v := Lookup(query[1..], name);
      assert forall k :: 1 <= k < |query| ==> query[k] == query[1..][k - 1];
      v
  }

  /** The first parameter called `name` is the one Lookup finds. */
  lemma {:induction false} LookupFirst(query: seq<Parameter>, name: string, k: nat)
    requires k < |query| && query[k].name == name
    requires forall j :: 0 <= j < k ==> query[j].name != name
    ensures Lookup(query, name) == Some(query[k].value)
  {
    if k > 0 {
      LookupFirst(query[1..], name, k - 1);
    }
  }

  /** `key` is appended only for a non-null, non-empty API key. */
  function KeyParameter(apiKey: Option<string>): seq<Parameter> {
    if apiKey.Some? && apiKey.value != [] then [Parameter("key", Text(apiKey.value))] else []
  }

  /** The parameters of a reverse lookup (getFromLocation). */
  function ReverseQuery(language: string, latitude: real, longitude: real, apiKey: Option<string>): seq<Parameter> {
    [Parameter("sensor", Text("true")), Parameter("language", Text(language)),
     Parameter("latlng", LatLng(latitude, longitude))] + KeyParameter(apiKey)
  }

  /** The parameters of a forward lookup (getFromLocationName). */
  function ForwardQuery(language: string, locationName: string, apiKey: Option<string>): seq<Parameter> {
    [Parameter("sensor", Text("false")), Parameter("language", Text(language)),
     Parameter("address", Text(locationName))] + KeyParameter(apiKey)
  }

  /** The key parameter is there exactly when the API key is non-null and non-empty, and it is the last one. */
  lemma KeyOnlyWithApiKey(head: seq<Parameter>, apiKey: Option<string>)
    requires |head| == 3 && forall j :: 0 <= j < 3 ==> head[j].name != "key"
    ensures Lookup(head + KeyParameter(apiKey), "key")
         == if apiKey.Some? && apiKey.value != [] then Some(Text(apiKey.value)) else None
  {
    var q := head + KeyParameter(apiKey);
    if apiKey.Some? && apiKey.value != [] {
      LookupFirst(q, "key", 3);
    } else {
      assert q == head;
    }
  }

  /**
   * A reverse lookup sends `sensor` true, the language, the coordinates and no
   * address, plus the key exactly when the API key is non-null and non-empty.
   */
  lemma ReverseQueryParameters(language: string, latitude: real, longitude: real, apiKey: Option<string>)
    ensures var q := ReverseQuery(language, latitude, longitude, apiKey);
      && Lookup(q, "sensor") == Some(Text("true"))
      && Lookup(q, "language") == Some(Text(language))
      && Lookup(q, "latlng") == Some(LatLng(latitude, longitude))
      && Lookup(q, "address") == None
      && Lookup(q, "key") == if apiKey.Some? && apiKey.value != [] then Some(Text(apiKey.value)) else None
  {
    var q := ReverseQuery(language, latitude, longitude, apiKey);
    var head := q[..3];
    assert q == head + KeyParameter(apiKey);
    assert head[0].name == "sensor" && head[1].name == "language" && head[2].name == "latlng";
    LookupFirst(q, "latlng", 2);
    KeyOnlyWithApiKey(head, apiKey);
  }

  /**
   * A forward lookup sends `sensor` false, the language, the address text and
   * no coordinates, plus the key exactly when the API key is non-null and non-empty.
   */
  lemma ForwardQueryParameters(language: string, locationName: string, apiKey: Option<string>)
    ensures var q := ForwardQuery(language, locationName, apiKey);
      && Lookup(q, "sensor") == Some(Text("false"))
      && Lookup(q, "language") == Some(Text(language))
      && Lookup(q, "address") == Some(Text(locationName))
      && Lookup(q, "latlng") == None
      && Lookup(q, "key") == if apiKey.Some? && apiKey.value != [] then Some(Text(apiKey.value)) else None
  {
    var q := ForwardQuery(language, locationName, apiKey);
    var head := q[..3];
    assert q == head + KeyParameter(apiKey);
    assert head[0].name == "sensor" && head[1].name == "language" && head[2].name == "address";
    LookupFirst(q, "address", 2);
    KeyOnlyWithApiKey(head, apiKey);
  }

  // ---------------------------------------------------------------------------
  // The decision logic as functions

  /** What download(url) returned: null after an I/O failure, else the body, decoded to JSON. */
  datatype Download = NoData | Body(document: Json)

  /** What a lookup throws. */
  datatype LookupError =
    | IllegalLatitude(latitude: real)    // IllegalArgumentException("latitude == ...")
    | IllegalLongitude(longitude: real)  // IllegalArgumentException("longitude == ...")
    | NullLocationName                   // IllegalArgumentException("locationName == null")
    | LimitExceeded                      // the gate's LimitExceededException
    | ParseFailed(error: ParseError)     // what parseJson raised

  /** The parser refused the response because the service reported OVER_QUERY_LIMIT. */
  predicate OverLimit(e: ParseError) {
    e.Raised? && e.error.status == Some(OVER_QUERY_LIMIT)
  }

  /** What a lookup did: its result, how many downloads it made, and the allowed date it wrote, if any. */
  datatype Outcome = Outcome(result: Result<seq<AddressValue>, LookupError>, downloads: nat, lock: Option<int>)

  /** A download and its parse: no data gives the still-empty result list. */
  function Attempt(d: Download, maxResults: int, parseComponents: bool): (r: Result<seq<AddressValue>, ParseError>)
    ensures d.NoData? ==> r == Success([])
    ensures d.Body? ==> r == Interpret(d.document, maxResults, parseComponents)
  {
    match d
    case NoData => Success([])
    case Body(doc) => Interpret(doc, maxResults, parseComponents)
  }

  function Surface(r: Result<seq<AddressValue>, ParseError>): (s: Result<seq<AddressValue>, LookupError>)
    ensures r.Success? ==> s == Success(r.value)
    ensures r.Failure? ==> s == Failure(ParseFailed(r.error))
  {
    match r
    case Success(v) => Success(v)
    case Failure(e) => Failure(ParseFailed(e))
  }

  predicate InRange(latitude: real, longitude: real) {
    -90.0 <= latitude <= 90.0 && -180.0 <= longitude <= 180.0
  }

  /** getFromLocation: range checks, the gate, then one download and parse; never a retry or a lock. */
  function ReverseLookup(latitude: real, longitude: real, allowed: int, now: int, response: Download,
                         maxResults: int, parseComponents: bool): Outcome
  {
    if latitude < -90.0 || latitude > 90.0 then Outcome(Failure(IllegalLatitude(latitude)), 0, None)
    else if longitude < -180.0 || longitude > 180.0 then Outcome(Failure(IllegalLongitude(longitude)), 0, None)
    else if now <= allowed then Outcome(Failure(LimitExceeded), 0, None)
    else Outcome(Surface(Attempt(response, maxResults, parseComponents)), 1, None)
  }

  /**
   * The forward lookup after the gate: a first over-limit answer leads to a
   * wait and one more download; an interrupted wait, or a failed second
   * download, gives the empty list; a second over-limit answer locks requests
   * out until `later` plus 24 hours and is raised.
   */
  function RetryPolicy(first: Download, interrupted: bool, second: Download, later: int,
                       maxResults: int, parseComponents: bool): Outcome
  {
    var r1 := Attempt(first, maxResults, parseComponents);
    if r1.Success? || !OverLimit(r1.error) then Outcome(Surface(r1), 1, None)
    else if interrupted then Outcome(Success([]), 1, None)
    else
      var r2 := Attempt(second, maxResults, parseComponents);
      if r2.Failure? && OverLimit(r2.error) then Outcome(Failure(ParseFailed(r2.error)), 2, Some(later + LockMillis))
      else Outcome(Surface(r2), 2, None)
  }

  /** getFromLocationName: the null check, the gate, then the retry policy. */
  function ForwardLookup(locationName: Option<string>, allowed: int, now: int, first: Download, interrupted: bool,
                         second: Download, later: int, maxResults: int, parseComponents: bool): Outcome
  {
    if locationName.None? then Outcome(Failure(NullLocationName), 0, None)
    else if now <= allowed then Outcome(Failure(LimitExceeded), 0, None)
    else RetryPolicy(first, interrupted, second, later, maxResults, parseComponents)
  }

  // ---------------------------------------------------------------------------
  // What the policy promises

  /**
   * Coordinates outside [-90, 90] and [-180, 180] are refused before the gate
   * and before any download; the bounds themselves are accepted.
   */
  lemma CoordinatesCheckedFirst(latitude: real, longitude: real, allowed: int, now: int, response: Download,
                                maxResults: int, parseComponents: bool)
    ensures var o := ReverseLookup(latitude, longitude, allowed, now, response, maxResults, parseComponents);
      && (!InRange(latitude, longitude) <==> o.result.Failure? && (o.result.error.IllegalLatitude? || o.result.error.IllegalLongitude?))
      && (!InRange(latitude, longitude) ==> o.downloads == 0)
      && (InRange(latitude, longitude) && allowed < now ==> o.downloads == 1)
  {
  }

  /** The extreme coordinates pass the range check. */
  lemma CornersOfTheMapAccepted(allowed: int, now: int, response: Download, maxResults: int, parseComponents: bool)
    requires allowed < now
    ensures ReverseLookup(90.0, 180.0, allowed, now, response, maxResults, parseComponents).downloads == 1
    ensures ReverseLookup(-90.0, -180.0, allowed, now, response, maxResults, parseComponents).downloads == 1
  {
  }

  /** A null location name is refused before the gate and before any download. */
  lemma NullNameCheckedFirst(allowed: int, now: int, first: Download, interrupted: bool, second: Download, later: int,
                             maxResults: int, parseComponents: bool)
    ensures ForwardLookup(None, allowed, now, first, interrupted, second, later, maxResults, parseComponents)
         == Outcome(Failure(NullLocationName), 0, None)
  {
  }

  /** While `now <= allowed`, valid requests are refused with LimitExceeded and nothing is downloaded. */
  lemma GateRefuses(latitude: real, longitude: real, locationName: string, allowed: int, now: int,
                    first: Download, interrupted: bool, second: Download, later: int, maxResults: int, parseComponents: bool)
    requires InRange(latitude, longitude)
    ensures var o := ReverseLookup(latitude, longitude, allowed, now, first, maxResults, parseComponents);
      (now <= allowed <==> o.result == Failure(LimitExceeded)) && (now <= allowed ==> o.downloads == 0)
    ensures var o := ForwardLookup(Some(locationName), allowed, now, first, interrupted, second, later, maxResults, parseComponents);
      (now <= allowed <==> o.result == Failure(LimitExceeded)) && (now <= allowed ==> o.downloads == 0 && o.lock == None)
  {
  }

  /** A reverse lookup downloads at most once and never writes the allowed date. */
  lemma ReverseNeverRetries(latitude: real, longitude: real, allowed: int, now: int, response: Download,
                            maxResults: int, parseComponents: bool)
    ensures var o := ReverseLookup(latitude, longitude, allowed, now, response, maxResults, parseComponents);
      o.downloads <= 1 && o.lock == None
    ensures var o := ReverseLookup(latitude, longitude, allowed, now, response, maxResults, parseComponents);
      (InRange(latitude, longitude) && allowed < now && response.Body?)
        ==> o.result == Surface(Interpret(response.document, maxResults, parseComponents))
  {
  }

  /** The forward lookup downloads a second time exactly when the first answer was over limit and the wait ran out. */
  lemma RetriesExactlyOnce(first: Download, interrupted: bool, second: Download, later: int,
                           maxResults: int, parseComponents: bool)
    ensures var o := RetryPolicy(first, interrupted, second, later, maxResults, parseComponents);
      var r1 := Attempt(first, maxResults, parseComponents);
      && 1 <= o.downloads <= 2
      && (o.downloads == 2 <==> r1.Failure? && OverLimit(r1.error) && !interrupted)
  {
  }

  /**
   * The allowed date is written only after two over-limit answers in a row, and
   * then it is `later` plus 24 hours and the second answer's error is raised.
   */
  lemma LockOnlyAfterTwoOverLimits(first: Download, interrupted: bool, second: Download, later: int,
                                   maxResults: int, parseComponents: bool)
    ensures var o := RetryPolicy(first, interrupted, second, later, maxResults, parseComponents);
      var r1 := Attempt(first, maxResults, parseComponents);
      var r2 := Attempt(second, maxResults, parseComponents);
      && (o.lock.Some? <==> r1.Failure? && OverLimit(r1.error) && !interrupted && r2.Failure? && OverLimit(r2.error))
      && (o.lock.Some? ==> o.lock.value == later + 86400000 && o.result == Failure(ParseFailed(r2.error)))
  {
  }

  /** An over-limit error that leaves the forward lookup has always set the lock. */
  lemma ForwardOverLimitLocks(locationName: Option<string>, allowed: int, now: int, first: Download, interrupted: bool,
                              second: Download, later: int, maxResults: int, parseComponents: bool)
    ensures var o := ForwardLookup(locationName, allowed, now, first, interrupted, second, later, maxResults, parseComponents);
      (o.result.Failure? && o.result.error.ParseFailed? && OverLimit(o.result.error.error))
        ==> o.lock == Some(later + LockMillis) && o.downloads == 2
  {
  }

  /**
   * Three ways to end with the empty list instead of an error: an interrupted
   * wait, a failed first download, and a failed second download.
   */
  lemma EmptyInsteadOfError(first: Download, interrupted: bool, second: Download, later: int,
                            maxResults: int, parseComponents: bool)
    ensures first.NoData? ==> RetryPolicy(first, interrupted, second, later, maxResults, parseComponents)
                               == Outcome(Success([]), 1, None)
    ensures var r1 := Attempt(first, maxResults, parseComponents);
      (r1.Failure? && OverLimit(r1.error) && interrupted)
        ==> RetryPolicy(first, interrupted, second, later, maxResults, parseComponents) == Outcome(Success([]), 1, None)
    ensures var r1 := Attempt(first, maxResults, parseComponents);
      (r1.Failure? && OverLimit(r1.error) && !interrupted && second.NoData?)
        ==> RetryPolicy(first, interrupted, second, later, maxResults, parseComponents) == Outcome(Success([]), 2, None)
  {
  }

  /** An error other than over-limit is raised at once, without retry or lock. */
  lemma OtherErrorsPropagate(first: Download, interrupted: bool, second: Download, later: int,
                             maxResults: int, parseComponents: bool)
    requires first.Body? && Interpret(first.document, maxResults, parseComponents).Failure?
    requires !OverLimit(Interpret(first.document, maxResults, parseComponents).error)
    ensures RetryPolicy(first, interrupted, second, later, maxResults, parseComponents)
         == Outcome(Failure(ParseFailed(Interpret(first.document, maxResults, parseComponents).error)), 1, None)
  {
  }

  // ---------------------------------------------------------------------------
  // The Geocoder object

  /** The preference file PREFERENCES_GEOCODER; `allow` is its KEY_ALLOW entry, absent until written. */
  class Preferences {
    var allow: Option<int>

    constructor (stored: Option<int>)
      ensures allow == stored
    {
      allow := stored;
    }
  }

  /** The results as the caller sees them agree with the specification's result. */
  ghost predicate Agrees(r: Result<seq<Address>, LookupError>, spec: Result<seq<AddressValue>, LookupError>)
    reads if r.Success? then set a | a in r.value else {}
  {
    && (r.Success? <==> spec.Success?)
    && (r.Success? ==> Values(r.value) == spec.value)
    && (r.Failure? ==> r.error == spec.error)
  }

  class Geocoder {
    const language: string
    const apiKey: Option<string>
    /** What getSharedPreferences(PREFERENCES_GEOCODER) opens. */
    const preferences: Preferences
    /** mSharedPreferences != null: the preference file has been preferencesOpen. */
    var preferencesOpen: bool
    /** mAllowedDate, the cached allowed date. */
    var allowedDate: int

    /** The allowed date the gate compares with: the cached one once the file is open, else the stored one or 0. */
    function AllowedDate(): int
      reads this, preferences
    {
      if preferencesOpen then allowedDate else preferences.allow.GetOr(0)
    }

    constructor (language: string, apiKey: Option<string>, preferences: Preferences)
      ensures this.language == language && this.apiKey == apiKey && this.preferences == preferences
      ensures !preferencesOpen && allowedDate == 0
      ensures AllowedDate() == preferences.allow.GetOr(0)
    {
      this.language := language;
      this.apiKey := apiKey;
      this.preferences := preferences;
      preferencesOpen := false;
      allowedDate := 0;
    }

    /**
     * getAllowedDate: on first use it reads the stored value (0 when absent) into
     * the cache; from then on it returns the cache. Loading changes no answer.
     */
    method GetAllowedDate() returns (date: int)
      modifies this
      ensures date == old(AllowedDate())
      ensures preferencesOpen && allowedDate == date
      ensures old(preferencesOpen) ==> date == old(allowedDate)
      ensures !old(preferencesOpen) ==> date == preferences.allow.GetOr(0)
      ensures AllowedDate() == old(AllowedDate())
    {
      if !preferencesOpen {
        preferencesOpen := true;
        allowedDate := preferences.allow.GetOr(0);
      }
      date := allowedDate;
    }

    /** setAllowedDate: updates the cache and the stored value. */
    method SetAllowedDate(date: int)
      modifies this, preferences
      ensures preferencesOpen && allowedDate == date && preferences.allow == Some(date)
      ensures AllowedDate() == date
    {
      allowedDate := date;
      preferencesOpen := true;
      preferences.allow := Some(date);
    }

    /** isLimitExceeded: requests are refused while the clock has not passed the allowed date. */
    method IsLimitExceeded(now: int) returns (exceeded: bool)
      modifies this
      ensures exceeded <==> now <= old(AllowedDate())
      ensures preferencesOpen && AllowedDate() == old(AllowedDate())
    {
      var allowed := GetAllowedDate();
      exceeded := now <= allowed;
    }

    /**
     * getFromLocation, with `now` the clock at the gate and `response` what the
     * download returns. `requests` lists the queries downloaded, in order.
     */
    method GetFromLocation(latitude: real, longitude: real, maxResults: int, parseComponents: bool,
                           now: int, response: Download)
      returns (r: Result<seq<Address>, LookupError>, requests: seq<seq<Parameter>>)
      modifies this
      ensures var o := ReverseLookup(latitude, longitude, old(AllowedDate()), now, response, maxResults, parseComponents);
        && Agrees(r, o.result)
        && |requests| == o.downloads
        && forall k :: 0 <= k < |requests| ==> requests[k] == ReverseQuery(language, latitude, longitude, apiKey)
      ensures r.Success? ==> forall k :: 0 <= k < |r.value| ==> fresh(r.value[k])
      ensures AllowedDate() == old(AllowedDate())
    {
      if latitude < -90.0 || latitude > 90.0 {
        return Failure(IllegalLatitude(latitude)), [];
      }
      if longitude < -180.0 || longitude > 180.0 {
        return Failure(IllegalLongitude(longitude)), [];
      }
      var exceeded := IsLimitExceeded(now);
      if exceeded {
        return Failure(LimitExceeded), [];
      }
      var results: seq<Address> := [];
      requests := [ReverseQuery(language, latitude, longitude, apiKey)];
      if response.Body? {
        var parsed := ParseJson(response.document, maxResults, parseComponents);
        if parsed.Failure? {
          return Failure(ParseFailed(parsed.error)), requests;
        }
        results := parsed.value;
      }
      r := Success(results);
    }

    /**
     * getFromLocationName, with `now` the clock at the gate, `first` and `second`
     * what the two downloads return, `interrupted` whether the two-second wait
     * was interrupted, and `later` the clock when the lock is written.
     */
    method GetFromLocationName(locationName: Option<string>, maxResults: int, parseComponents: bool,
                               now: int, first: Download, interrupted: bool, second: Download, later: int)
      returns (r: Result<seq<Address>, LookupError>, requests: seq<seq<Parameter>>)
      modifies this, preferences
      ensures var o := ForwardLookup(locationName, old(AllowedDate()), now, first, interrupted, second, later,
                                     maxResults, parseComponents);
        && Agrees(r, o.result)
        && |requests| == o.downloads
        && (o.lock.Some? ==> AllowedDate() == o.lock.value && preferences.allow == o.lock)
        && (o.lock.None? ==> AllowedDate() == old(AllowedDate()) && preferences.allow == old(preferences.allow))
      ensures forall k :: 0 <= k < |requests| ==>
        locationName.Some? && requests[k] == ForwardQuery(language, locationName.value, apiKey)
      ensures r.Success? ==> forall k :: 0 <= k < |r.value| ==> fresh(r.value[k])
    {
      if locationName.None? {
        return Failure(NullLocationName), [];
      }
      var exceeded := IsLimitExceeded(now);
      if exceeded {
        return Failure(LimitExceeded), [];
      }
      var results: seq<Address> := [];
      var query := ForwardQuery(language, locationName.value, apiKey);
      requests := [query];
      if first.Body? {
        var parsed := ParseJson(first.document, maxResults, parseComponents);
        if parsed.Success? {
          results := parsed.value;
        } else if !OverLimit(parsed.error) {
          return Failure(ParseFailed(parsed.error)), requests;
        } else {
          // too many calls per second: wait, then try once more
          if interrupted {
            return Success(results), requests;
          }
          requests := requests + [query];
          if second.Body? {
            var again := ParseJson(second.document, maxResults, parseComponents);
            if again.Success? {
              results := again.value;
            } else if OverLimit(again.error) {
              // too many calls per day: refuse requests for 24 hours
              SetAllowedDate(later + LockMillis);
              return Failure(ParseFailed(again.error)), requests;
            } else {
              return Failure(ParseFailed(again.error)), requests;
            }
          }
        }
      }
      r := Success(results);
    }
  }
}
