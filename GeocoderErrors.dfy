/**
 * GeocoderException: the checked exception the parser raises, carrying an
 * optional status, an optional error message from the response and an optional
 * cause (the Throwable it wraps).
 */
module GeocoderErrors {
  import opened Wrappers
  import opened GeocoderStatus
  import opened Json

  /** The Throwable a GeocoderException may wrap, as far as the library looks at it. */
  datatype Cause =
    | JsonCause(fault: JsonFault)                            // org.json.JSONException
    | IOCause(className: string, message: Option<string>)    // java.io.IOException or a subclass
    | OtherCause(className: string, message: Option<string>) // any other Throwable

  const JsonExceptionClass := "org.json.JSONException"
  const GeocoderExceptionClass := "com.doctoror.geocoder.GeocoderException"
  const NoStatusMessage := "No \"status\" field"

  /** The type name org.json names when a value cannot be converted. */
  function KindName(k: Kind): string {
    match k
    case StringKind => "String"
    case NumberKind => "double"
    case ObjectKind => "JSONObject"
    case ArrayKind => "JSONArray"
  }

  /** The decimal text of an array index. */
  function IndexText(n: nat): (r: string)
    ensures r != []
    ensures forall i :: 0 <= i < |r| ==> '0' <= r[i] <= '9'
  {
    if n < 10 then [('0' as int + n) as char]
    else IndexText(n / 10) + [('0' as int + n % 10) as char]
  }

  const ConversionSuffix := " cannot be converted to "

  /**
   * The message of the JSONException behind a fault: the parser's own text for a
   * missing status field, org.json's "No value for <key>" for an absent key, and
   * org.json's type-mismatch text, naming where the value sat and the type asked for.
   */
  function FaultMessage(f: JsonFault): (r: string)
    ensures r != []
    ensures f.NoStatusField? ==> r == NoStatusMessage
    ensures f.NoValue? ==> r == "No value for " + f.key
    ensures f.WrongType? ==> exists where :: r == "Value" + where + ConversionSuffix + KindName(f.expected)
    ensures f.WrongItemType? ==> exists where :: r == "Value" + where + ConversionSuffix + KindName(f.expected)
    ensures f.RootNotObject? ==> exists where :: r == "Value" + where + ConversionSuffix + KindName(ObjectKind)
  {
    match f
    case RootNotObject => "Value" + "" + ConversionSuffix + KindName(ObjectKind)
    case NoStatusField => NoStatusMessage
    case NoValue(key) => "No value for " + key
    case WrongType(key, k) => "Value" + (" at " + key) + ConversionSuffix + KindName(k)
    case WrongItemType(i, k) => "Value" + (" at " + IndexText(i)) + ConversionSuffix + KindName(k)
  }

  /** An absent key is named in the message: two missing keys give the same text only if they are the same key. */
  lemma MissingKeyNamed(k1: string, k2: string)
    ensures FaultMessage(NoValue(k1)) == FaultMessage(NoValue(k2)) <==> k1 == k2
  {
    var prefix := "No value for ";
    if FaultMessage(NoValue(k1)) == FaultMessage(NoValue(k2)) {
      assert k1 == (prefix + k1)[|prefix|..];
      assert k2 == (prefix + k2)[|prefix|..];
    }
  }

  /** The message a cause carries: every JSONException has one; other Throwables carry their own. */
  function CauseMessage(c: Cause): (r: Option<string>)
    ensures c.JsonCause? ==> r.Some? && r.value != []
    ensures c.JsonCause? && c.fault.NoValue? ==> r == Some("No value for " + c.fault.key)
    ensures c.JsonCause? && c.fault.NoStatusField? ==> r == Some(NoStatusMessage)
    ensures !c.JsonCause? ==> r == c.message
  {
    match c
    case JsonCause(f) => Some(FaultMessage(f))
    case IOCause(_, m) => m
    case OtherCause(_, m) => m
  }

  function CauseClass(c: Cause): string {
    match c
    case JsonCause(_) => JsonExceptionClass
    case IOCause(n, _) => n
    case OtherCause(n, _) => n
  }

  /** Throwable.toString: the class name, then ": " and the message when there is one. */
  function CauseText(c: Cause): (r: string)
    ensures CauseMessage(c).None? ==> r == CauseClass(c)
    ensures CauseMessage(c).Some? ==> r == CauseClass(c) + ": " + CauseMessage(c).value
  {
    var m := CauseMessage(c);
    if m.Some? then CauseClass(c) + ": " + m.value else CauseClass(c)
  }

  /** The state of a GeocoderException: what getStatus, getErrorMessage and getCause return. */
  datatype ErrorValue = ErrorValue(status: Option<Status>, errorMessage: Option<string>, cause: Option<Cause>)

  /**
   * toString's choice of text: a non-empty error message first, then the status
   * name, then the cause's text, and Throwable's own text (the class name) last.
   */
  function Describe(v: ErrorValue): (r: string)
    ensures v.errorMessage.Some? && v.errorMessage.value != [] ==> r == v.errorMessage.value
    ensures (v.errorMessage.None? || v.errorMessage.value == []) && v.status.Some? ==> r == Name(v.status.value)
    ensures (v.errorMessage.None? || v.errorMessage.value == []) && v.status.None? && v.cause.Some?
      ==> r == CauseText(v.cause.value)
    ensures (v.errorMessage.None? || v.errorMessage.value == []) && v.status.None? && v.cause.None?
      ==> r == GeocoderExceptionClass
  {
    if v.errorMessage.Some? && v.errorMessage.value != [] then v.errorMessage.value
    else if v.status.Some? then Name(v.status.value)
    else if v.cause.Some? then CauseText(v.cause.value)
    else GeocoderExceptionClass
  }

  /** Without a usable message, the text identifies the status: two statuses never print alike. */
  lemma DescribeIdentifiesStatus(v: ErrorValue, w: ErrorValue)
    requires v.errorMessage.None? || v.errorMessage.value == []
    requires w.errorMessage.None? || w.errorMessage.value == []
    requires v.status.Some? && w.status.Some?
    ensures Describe(v) == Describe(w) <==> v.status == w.status
  {
    if Describe(v) == Describe(w) {
      NameInjective(v.status.value, w.status.value);
    }
  }

  /** The message wins over whatever status and cause are set. */
  lemma MessageWins(v: ErrorValue, s: Option<Status>, c: Option<Cause>)
    requires v.errorMessage.Some? && v.errorMessage.value != []
    ensures Describe(v.(status := s, cause := c)) == v.errorMessage.value
  {
  }

  /** An exception wrapping a JSONException never prints as an empty text. */
  lemma DescribeNonEmpty(v: ErrorValue)
    requires v.cause.Some? && v.cause.value.JsonCause?
    ensures Describe(v) != []
  {
    if v.errorMessage.None? || v.errorMessage.value == [] {
      if v.status.Some? {
        assert Name(v.status.value) != [];
      } else {
        assert CauseText(v.cause.value)[..|JsonExceptionClass|] == JsonExceptionClass;
      }
    }
  }

  class GeocoderException {
    var status: Option<Status>
    var errorMessage: Option<string>
    const cause: Option<Cause>

    function Value(): ErrorValue
      reads this
    {
      ErrorValue(status, errorMessage, cause)
    }

    /** GeocoderException() */
    constructor ()
      ensures Value() == ErrorValue(None, None, None)
    {
      status := None;
      errorMessage := None;
      cause := None;
    }

    /** GeocoderException(Throwable cause) */
    constructor WithCause(c: Option<Cause>)
      ensures Value() == ErrorValue(None, None, c)
    {
      status := None;
      errorMessage := None;
      cause := c;
    }

    /** forStatus: a fresh exception with that status, no message and no cause. */
    static method ForStatus(s: Status) returns (e: GeocoderException)
      ensures fresh(e)
      ensures e.Value() == ErrorValue(Some(s), None, None)
    {
      e := new GeocoderException();
      e.SetStatus(Some(s));
    }

    /** forQueryOverLimit: forStatus(OVER_QUERY_LIMIT). */
    static method ForQueryOverLimit() returns (e: GeocoderException)
      ensures fresh(e)
      ensures e.Value() == ErrorValue(Some(OVER_QUERY_LIMIT), None, None)
    {
      e := ForStatus(OVER_QUERY_LIMIT);
    }

    method SetStatus(s: Option<Status>)
      modifies this
      ensures Value() == old(Value()).(status := s)
    {
      status := s;
    }

    method SetErrorMessage(m: Option<string>)
      modifies this
      ensures Value() == old(Value()).(errorMessage := m)
    {
      errorMessage := m;
    }

    /**
     * isCausedByNetworkError: the cause is an IOException. The contract is the
     * definition itself; the status and message play no part.
     */
    function IsCausedByNetworkError(): (r: bool)
      reads this
      ensures r <==> cause.Some? && cause.value.IOCause?
    {
      cause.Some? && cause.value.IOCause?
    }

    /**
     * toString: the text Describe chooses for the current state. What that text
     * promises is stated about Describe (MessageWins, DescribeIdentifiesStatus,
     * DescribeNonEmpty).
     */
    function ToString(): (r: string)
      reads this
      ensures r == Describe(Value())
    {
      Describe(Value())
    }
  }
}
