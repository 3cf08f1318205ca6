# Geocoder response interpreter, in Dafny

This project models the core of an Android geocoding client library (package
`com.doctoror.geocoder`). The library calls the Google Geocoding web service.
It turns the service's JSON answer into a list of `Address` records, or it
raises a `GeocoderException`. A small client-side quota gate and a retry policy
sit around the parser.

The model has one module per source file:

- `Wrappers` (Wrappers.dfy): `Option` (a Java reference that may be null) and `Result` (an operation that may throw).
- `Json` (Json.dfy): the already-decoded JSON tree. Its strict accessors behave like org.json's `getString`, `getDouble`, `getJSONObject` and `getJSONArray`. An absent key or a value of another kind gives a fault (a `JSONException`).
- `GeocoderStatus` (Status.dfy): the six status codes of the Google Geocoding API and the total mapping `FromString`.
- `Parcels` (Parcel.dfy): an Android `Parcel` as a sequence of tokens with a read cursor.
- `AddressModel` (Address.dfy):
  - The 40 string fields of `Address` are one map keyed by a 40-constructor `Field` enum. A missing key means Java `null`. The 40 setter/getter pairs become `SetText(f, v)` and `Get(f)`.
  - `Location`, `Viewport` and `Bounds` are immutable values.
  - `Address` is a class updated through its setters. Its `writeToParcel` and its `Address(Parcel)` constructor are proved to round-trip.
- `GeocoderErrors` (GeocoderErrors.dfy): `GeocoderException`, with its status, error message and cause, and `toString`'s choice of text.
- `Parser` (Parser.dfy):
  - The specification functions of `parseJson`, `parseResults`, `parseGeometry` and `parseAddressComponents`. The type-token switch is the function `TokenFields`.
  - The imperative methods that build fresh `Address` objects through their setters. Each method is proved equal to its function.
  - The lemmas stating what `parseJson` promises.
- `GeocoderClient` (Geocoder.dfy):
  - The `Geocoder` class: range checks, the quota gate, and the lazily loaded allowed date.
  - The query parameters.
  - The forward lookup's single retry after `OVER_QUERY_LIMIT`, with the 24-hour lock.
  - The downloads, the clock readings and the interruption of the two-second wait are method parameters.

Behaviour of the code worth knowing, which the model keeps:

- The `neighborhood` case of the type-token switch has no `break`, so a `neighborhood` component also sets `premise`. The model keeps this (`NeighborhoodAlsoSetsPremise`).
- A component's value is `long_name` whenever that key is present, even when it is empty. It falls back to `short_name` only when `long_name` is absent. An empty `long_name` skips the component.
- No type token sets `countryCode` (`NeverSetByComponents`).
- The gate refuses when `now <= allowedDate`. The equal case is refused too.
- A failed download (`download` returns null) yields the empty list, not a network error. So does an interrupted retry wait, and so does a failed second download.
- After two over-limit answers, the error raised is the parser's over-limit error. `Geocoder.java` calls a four-argument `parseJson` that `Parser.java` does not define. The model uses the three-argument `Parser.java:86` form, which returns the list. "Over limit" means a raised `GeocoderException` whose status is `OVER_QUERY_LIMIT`. Any other parser error is raised at once.
- A negative `maxResults` with `OK` and a `results` array reaches `new ArrayList<>(count)` with a negative count. That throws `IllegalArgumentException`, modelled as `ParseError.IllegalCapacity`.

## Model

| member | source | states |
|---|---|---|
| `GeocoderStatus.FromString` | library/src/main/java/com/doctoror/geocoder/Status.java:45-54 | total; null, empty or any text that is not exactly a constant's name (letter case included) gives UNKNOWN_ERROR; a constant's exact name gives that constant |
| `GeocoderStatus.FromNameRoundTrip` | library/src/main/java/com/doctoror/geocoder/Status.java:16-50 | `fromString(name(s)) == s` for every constant |
| `GeocoderStatus.NameInjective` | library/src/main/java/com/doctoror/geocoder/Status.java:10-43 | no two constants share a name |
| `Json.GetString` | library/src/main/java/com/doctoror/geocoder/Parser.java:119-121 | succeeds exactly on a present string member; otherwise the fault says whether the key was absent or of another kind |
| `Json.GetDouble` | library/src/main/java/com/doctoror/geocoder/Parser.java:160-161 | succeeds exactly on a present numeric member, with its value |
| `Json.GetObject` | library/src/main/java/com/doctoror/geocoder/Parser.java:153 | succeeds exactly on a present object member |
| `Json.GetArray` | library/src/main/java/com/doctoror/geocoder/Parser.java:127 | succeeds exactly on a present array member |
| `Json.ItemObject` | library/src/main/java/com/doctoror/geocoder/Parser.java:133 | succeeds exactly when the array item is an object |
| `Json.ItemString` | library/src/main/java/com/doctoror/geocoder/Parser.java:223 | succeeds exactly when the array item is a string |
| `Parcels.DecodeString` | library/src/main/java/com/doctoror/geocoder/Address.java:130-172 | reading a string consumes one token and returns the written string |
| `Parcels.DecodeDouble` | library/src/main/java/com/doctoror/geocoder/Address.java:888-891 | reading a double consumes one token and returns the written double |
| `Parcels.Parcel.constructor` | library/src/main/java/com/doctoror/geocoder/Address.java:179-225 | a new parcel is empty with the cursor at the start |
| `Parcels.Parcel.WriteString` | library/src/main/java/com/doctoror/geocoder/Address.java:180-221 | appends one string token, cursor unchanged |
| `Parcels.Parcel.WriteDouble` | library/src/main/java/com/doctoror/geocoder/Address.java:894-897 | appends one double token, cursor unchanged |
| `Parcels.Parcel.ReadString` | library/src/main/java/com/doctoror/geocoder/Address.java:130-172 | returns and consumes the next unread token as `DecodeString` says |
| `Parcels.Parcel.ReadDouble` | library/src/main/java/com/doctoror/geocoder/Address.java:888-891 | returns and consumes the next unread token as `DecodeDouble` says |
| `AddressModel.AddressValue.WithText` | library/src/main/java/com/doctoror/geocoder/Address.java:242-248 | after a setter, its getter returns the value set and every other field is unchanged |
| `AddressModel.SameGettersSameValue` | library/src/main/java/com/doctoror/geocoder/Address.java:242-813 | two addresses that agree on every getter are equal |
| `AddressModel.LocationRoundTrip` | library/src/main/java/com/doctoror/geocoder/Address.java:888-896 | a Location read back from what it wrote has the same latitude and longitude |
| `AddressModel.ParcelableLocationRoundTrip` | library/src/main/java/com/doctoror/geocoder/Address.java:222 | a Location written as a parcelable, or a null one, reads back as itself |
| `AddressModel.CornersRoundTrip` | library/src/main/java/com/doctoror/geocoder/Address.java:937-946 | both corners read back in order, absent ones as absent |
| `AddressModel.ViewportRoundTrip` | library/src/main/java/com/doctoror/geocoder/Address.java:937-946 | Viewport Parcel round trip, absent corners included |
| `AddressModel.BoundsRoundTrip` | library/src/main/java/com/doctoror/geocoder/Address.java:986-995 | Bounds Parcel round trip, absent corners included |
| `AddressModel.TextsRoundTrip` | library/src/main/java/com/doctoror/geocoder/Address.java:130-221 | reading strings in the order they were written restores exactly the fields named, nothing else |
| `AddressModel.TextPartRoundTrip` | library/src/main/java/com/doctoror/geocoder/Address.java:130-221 | an order naming every field restores every string field |
| `AddressModel.ReadOrderIsWriteOrder` | library/src/main/java/com/doctoror/geocoder/Address.java:129-221 | the constructor's 40 reads, transcribed separately, are in exactly the order of writeToParcel's 40 writes |
| `AddressModel.AllFieldsOrdered` | library/src/main/java/com/doctoror/geocoder/Address.java:180-221 | the parcel order leaves no string field out |
| `AddressModel.TextFieldsRoundTrip` | library/src/main/java/com/doctoror/geocoder/Address.java:130-221 | the 40 strings, read in the constructor's order from what writeToParcel wrote in its order, come back equal |
| `AddressModel.GeometryRoundTrip` | library/src/main/java/com/doctoror/geocoder/Address.java:173-224 | location, viewport and bounds read back equal to those written |
| `AddressModel.AddressTokensSplit` | library/src/main/java/com/doctoror/geocoder/Address.java:179-225 | an Address is written as its strings followed by its geometry |
| `AddressModel.AddressRoundTrip` | library/src/main/java/com/doctoror/geocoder/Address.java:129-225 | reading back what `writeToParcel` wrote reproduces every field, and leaves what follows unread |
| `AddressModel.TextTokensAppend` | library/src/main/java/com/doctoror/geocoder/Address.java:180-221 | writing the strings of two orders in turn is writing those of the joined order |
| `AddressModel.WriteLocation` | library/src/main/java/com/doctoror/geocoder/Address.java:894-897 | appends latitude then longitude |
| `AddressModel.ReadLocation` | library/src/main/java/com/doctoror/geocoder/Address.java:888-891 | reads latitude then longitude, as `DecodeLocation` says |
| `AddressModel.WriteParcelableLocation` | library/src/main/java/com/doctoror/geocoder/Address.java:222 | appends the class name (or null) then the payload |
| `AddressModel.ReadParcelableLocation` | library/src/main/java/com/doctoror/geocoder/Address.java:173 | reads a Location reference as `DecodeParcelableLocation` says |
| `AddressModel.WriteCorners` | library/src/main/java/com/doctoror/geocoder/Address.java:943-946 | appends southwest then northeast |
| `AddressModel.ReadCorners` | library/src/main/java/com/doctoror/geocoder/Address.java:937-940 | reads southwest then northeast |
| `AddressModel.WriteParcelableViewport` | library/src/main/java/com/doctoror/geocoder/Address.java:223 | appends the Viewport reference |
| `AddressModel.ReadParcelableViewport` | library/src/main/java/com/doctoror/geocoder/Address.java:174 | reads the Viewport reference |
| `AddressModel.WriteParcelableBounds` | library/src/main/java/com/doctoror/geocoder/Address.java:224 | appends the Bounds reference |
| `AddressModel.ReadParcelableBounds` | library/src/main/java/com/doctoror/geocoder/Address.java:175 | reads the Bounds reference |
| `AddressModel.ReadGeometry` | library/src/main/java/com/doctoror/geocoder/Address.java:173-175 | reads location, viewport and bounds into the address being built |
| `AddressModel.ReadTexts` | library/src/main/java/com/doctoror/geocoder/Address.java:130-172 | reads the strings of the given order into a blank address |
| `AddressModel.ParcelRoundTrip` | library/src/main/java/com/doctoror/geocoder/Address.java:129-225 | an Address written to a new parcel and created from it is a new object equal to the original |
| `AddressModel.Address.constructor` | library/src/main/java/com/doctoror/geocoder/Address.java:125-127 | a new Address has every field absent |
| `AddressModel.Address.SetText` | library/src/main/java/com/doctoror/geocoder/Address.java:246-248 | a string setter changes exactly its own field; its getter then returns the value set |
| `AddressModel.Address.SetLocation` | library/src/main/java/com/doctoror/geocoder/Address.java:744-746 | changes only the location |
| `AddressModel.Address.SetViewport` | library/src/main/java/com/doctoror/geocoder/Address.java:759-761 | changes only the viewport |
| `AddressModel.Address.SetBounds` | library/src/main/java/com/doctoror/geocoder/Address.java:775-777 | changes only the bounds |
| `AddressModel.Address.WriteTexts` | library/src/main/java/com/doctoror/geocoder/Address.java:180-221 | appends one string token per field of the order, in order |
| `AddressModel.Address.WriteToParcel` | library/src/main/java/com/doctoror/geocoder/Address.java:179-225 | appends exactly `AddressTokens` of the current state |
| `AddressModel.Address.WriteGeometry` | library/src/main/java/com/doctoror/geocoder/Address.java:222-224 | appends location, viewport and bounds |
| `AddressModel.Address.FromParcel` | library/src/main/java/com/doctoror/geocoder/Address.java:129-176 | reads the fields in the order `writeToParcel` writes them |
| `GeocoderErrors.IndexText` | library/src/main/java/com/doctoror/geocoder/Parser.java:133 | the decimal text of an array index is non-empty and made of digits |
| `GeocoderErrors.FaultMessage` | library/src/main/java/com/doctoror/geocoder/Parser.java:94-96 | every JSON fault has a non-empty message: the parser's own text for a missing status, `No value for <key>` for an absent key, and `Value… cannot be converted to <type>` for a mismatch |
| `GeocoderErrors.MissingKeyNamed` | library/src/main/java/com/doctoror/geocoder/Parser.java:153-161 | the message of an absent key names it: two such messages are equal exactly when the keys are |
| `GeocoderErrors.CauseMessage` | library/src/main/java/com/doctoror/geocoder/GeocoderException.java:85-88 | every JSONException cause carries a non-empty message (the missing-key and missing-status texts exactly); other causes carry their own |
| `GeocoderErrors.CauseText` | library/src/main/java/com/doctoror/geocoder/GeocoderException.java:85-88 | a cause prints as its class name, then its message if any |
| `GeocoderErrors.Describe` | library/src/main/java/com/doctoror/geocoder/GeocoderException.java:77-90 | a non-empty error message wins; else the status name; else the cause's text; else the class name |
| `GeocoderErrors.DescribeIdentifiesStatus` | library/src/main/java/com/doctoror/geocoder/GeocoderException.java:82-84 | without a usable message, two exceptions print alike exactly when their statuses are equal |
| `GeocoderErrors.MessageWins` | library/src/main/java/com/doctoror/geocoder/GeocoderException.java:79-81 | a non-empty message is the text whatever the status and cause |
| `GeocoderErrors.DescribeNonEmpty` | library/src/main/java/com/doctoror/geocoder/GeocoderException.java:77-90 | an exception wrapping a JSON fault never prints as empty text |
| `GeocoderErrors.GeocoderException.constructor` | library/src/main/java/com/doctoror/geocoder/GeocoderException.java:48-49 | no status, message or cause |
| `GeocoderErrors.GeocoderException.WithCause` | library/src/main/java/com/doctoror/geocoder/GeocoderException.java:51-53 | only the cause is set |
| `GeocoderErrors.GeocoderException.ForStatus` | library/src/main/java/com/doctoror/geocoder/GeocoderException.java:37-41 | status s, no error message, no cause |
| `GeocoderErrors.GeocoderException.ForQueryOverLimit` | library/src/main/java/com/doctoror/geocoder/GeocoderException.java:44-46 | status OVER_QUERY_LIMIT, nothing else |
| `GeocoderErrors.GeocoderException.SetStatus` | library/src/main/java/com/doctoror/geocoder/GeocoderException.java:60-62 | changes only the status |
| `GeocoderErrors.GeocoderException.SetErrorMessage` | library/src/main/java/com/doctoror/geocoder/GeocoderException.java:69-71 | changes only the error message |
| `GeocoderErrors.GeocoderException.IsCausedByNetworkError` | library/src/main/java/com/doctoror/geocoder/GeocoderException.java:73-75 | true exactly when the cause is an I/O error, whatever the status and message |
| `GeocoderErrors.GeocoderException.ToString` | library/src/main/java/com/doctoror/geocoder/GeocoderException.java:77-90 | the text `Describe` chooses for the current state |
| `Parser.Lift` | library/src/main/java/com/doctoror/geocoder/Parser.java:119-121 | a JSON fault becomes a GeocoderException with that cause; success passes through |
| `Parser.KnownToken` | library/src/main/java/com/doctoror/geocoder/Parser.java:224-375 | a token the switch handles is the token of the first field its case sets |
| `Parser.FieldTokenSets` | library/src/main/java/com/doctoror/geocoder/Parser.java:224-371 | each field's own token sets that field (and `neighborhood` also `premise`) |
| `Parser.TokenTableAgrees` | library/src/main/java/com/doctoror/geocoder/Parser.java:222-375 | a token sets field f exactly when it is f's token, or it is `neighborhood` and f is premise |
| `Parser.UnknownTokenSetsNothing` | library/src/main/java/com/doctoror/geocoder/Parser.java:372-374 | an unrecognised token sets nothing |
| `Parser.NeighborhoodAlsoSetsPremise` | library/src/main/java/com/doctoror/geocoder/Parser.java:301-306 | `neighborhood` sets neighborhood and then premise |
| `Parser.NeverSetByComponents` | library/src/main/java/com/doctoror/geocoder/Parser.java:222-375 | no token sets the country code, the formatted address or the location type |
| `Parser.CopyText` | library/src/main/java/com/doctoror/geocoder/Parser.java:154-156 | an absent key changes nothing; a present key must hold a string, which is copied into the field |
| `Parser.ParseLocation` | library/src/main/java/com/doctoror/geocoder/Parser.java:159-161 | succeeds exactly when both `lat` and `lng` are numbers; the fault is the latitude's, else the longitude's |
| `Parser.ParseBox` | library/src/main/java/com/doctoror/geocoder/Parser.java:164-198 | a box with both corner keys must have both corners with both coordinates; otherwise nothing |
| `Parser.CopyLocation` | library/src/main/java/com/doctoror/geocoder/Parser.java:158-162 | a present location is copied and must have both coordinates |
| `Parser.ApplyGeometry` | library/src/main/java/com/doctoror/geocoder/Parser.java:150-200 | no geometry changes nothing; geometry never touches a string field other than the location type |
| `Parser.GeometryCopied` | library/src/main/java/com/doctoror/geocoder/Parser.java:150-200 | what a successful parseGeometry copies: location type, location with both coordinates, and each box only with both corners |
| `Parser.ComponentValue` | library/src/main/java/com/doctoror/geocoder/Parser.java:212-217 | `long_name` if that key is present, else `short_name`, else nothing |
| `Parser.SetFields` | library/src/main/java/com/doctoror/geocoder/Parser.java:224-306 | the fields of a case get the value; every other field and the geometry stay |
| `Parser.TypesSucceed` | library/src/main/java/com/doctoror/geocoder/Parser.java:222-223 | the types loop succeeds exactly when every token is a string |
| `Parser.TypesFailAtFirst` | library/src/main/java/com/doctoror/geocoder/Parser.java:222-223 | a failing types loop stops at the first non-string token |
| `Parser.TypesSetTheirFields` | library/src/main/java/com/doctoror/geocoder/Parser.java:222-376 | each field some token names gets the value; nothing else changes |
| `Parser.ApplyComponent` | library/src/main/java/com/doctoror/geocoder/Parser.java:208-221 | a component without `types`, or with an absent or empty value, is skipped |
| `Parser.ComponentWrites` | library/src/main/java/com/doctoror/geocoder/Parser.java:208-376 | one component writes its value into the fields its tokens name and changes nothing else |
| `Parser.FoldWrites` | library/src/main/java/com/doctoror/geocoder/Parser.java:207-377 | the components loop, from any index, keeps last-write-wins |
| `Parser.LastWriteWins` | library/src/main/java/com/doctoror/geocoder/Parser.java:207-377 | each field holds what the last component naming it wrote; geometry untouched |
| `Parser.NoTokenSets` | library/src/main/java/com/doctoror/geocoder/Parser.java:222-375 | no list of tokens names the country code, formatted address or location type |
| `Parser.NeverWritten` | library/src/main/java/com/doctoror/geocoder/Parser.java:207-377 | no component ever writes those three fields |
| `Parser.ComponentsKeepTheRest` | library/src/main/java/com/doctoror/geocoder/Parser.java:202-379 | parseAddressComponents leaves formatted address, location type, country code and geometry alone |
| `Parser.InterpretFromItems` | library/src/main/java/com/doctoror/geocoder/Parser.java:130-146 | the results loop appends one address per item in order; it fails exactly when some item fails, with that item's fault |
| `Parser.ResultCount` | library/src/main/java/com/doctoror/geocoder/Parser.java:128 | the count is the smaller of the array length and `maxResults` |
| `Parser.SetByToken` | library/src/main/java/com/doctoror/geocoder/Parser.java:224-375 | the setter calls of the token's case, in order |
| `Parser.SetByTypes` | library/src/main/java/com/doctoror/geocoder/Parser.java:222-376 | the types loop, equal to `ApplyTypes` |
| `Parser.ParseComponent` | library/src/main/java/com/doctoror/geocoder/Parser.java:208-376 | one component, equal to `ApplyComponent` |
| `Parser.ParseAddressComponents` | library/src/main/java/com/doctoror/geocoder/Parser.java:202-379 | the components loop, equal to `ApplyComponents` |
| `Parser.ParseCorners` | library/src/main/java/com/doctoror/geocoder/Parser.java:164-198 | reads a box as `ParseBox` specifies |
| `Parser.ParseGeometry` | library/src/main/java/com/doctoror/geocoder/Parser.java:150-200 | the setters called on the address give `ApplyGeometry`'s state, or its fault |
| `Parser.ParseResult` | library/src/main/java/com/doctoror/geocoder/Parser.java:132-145 | a fresh Address built from item i, equal to `InterpretResult` |
| `Parser.ParseResults` | library/src/main/java/com/doctoror/geocoder/Parser.java:124-148 | fresh addresses whose states are `InterpretResults`, or its error |
| `Parser.ParseJson` | library/src/main/java/com/doctoror/geocoder/Parser.java:86-122 | fresh addresses whose states are `Interpret`, or exactly its error |
| `Parser.StatusDispatch` | library/src/main/java/com/doctoror/geocoder/Parser.java:94-117 | missing status fails; ZERO_RESULTS, and OK without results, give []; any other status is raised with it and `error_message` |
| `Parser.LowerCaseStatusIsAnError` | library/src/main/java/com/doctoror/geocoder/Parser.java:98-117 | status text `ok` is raised as UNKNOWN_ERROR |
| `Parser.ResultsSucceed` | library/src/main/java/com/doctoror/geocoder/Parser.java:127-146 | parseResults succeeds exactly when the count is not negative and each of the first count items parses |
| `Parser.FirstResultsInOrder` | library/src/main/java/com/doctoror/geocoder/Parser.java:127-146 | min(maxResults, length) addresses, the i-th built from the i-th result |
| `Parser.IncompleteLocationAborts` | library/src/main/java/com/doctoror/geocoder/Parser.java:158-162 | a counted result whose location lacks a coordinate aborts the whole parse |
| `Parser.Placed` | library/src/main/java/com/doctoror/geocoder/Parser.java:132-143 | a parsed result is its formatted address, then its geometry, then (if asked) its components |
| `Parser.PlacedFields` | library/src/main/java/com/doctoror/geocoder/Parser.java:135-139 | before components, no component field is set and the formatted address is the result's |
| `Parser.NoComponentsWhenDisabled` | library/src/main/java/com/doctoror/geocoder/Parser.java:135-143 | with the flag false no component field is set, and formatted address, location type and geometry equal those with the flag true |
| `Parser.ComponentFieldsFromLastWriter` | library/src/main/java/com/doctoror/geocoder/Parser.java:141-143 | with the flag true each component field holds the last component's value naming it, or is absent |
| `Parser.HalfBoxIgnored` | library/src/main/java/com/doctoror/geocoder/Parser.java:164-198 | a viewport or bounds with only one corner key leaves that field absent |
| `GeocoderClient.Lookup` | library/src/main/java/com/doctoror/geocoder/Geocoder.java:145-152 | finds a parameter exactly when one of that name was appended |
| `GeocoderClient.LookupFirst` | library/src/main/java/com/doctoror/geocoder/Geocoder.java:145-152 | the first parameter of a name is the one found |
| `GeocoderClient.KeyOnlyWithApiKey` | library/src/main/java/com/doctoror/geocoder/Geocoder.java:150-152 | `key` is present exactly for a non-null, non-empty API key |
| `GeocoderClient.ReverseQueryParameters` | library/src/main/java/com/doctoror/geocoder/Geocoder.java:145-152 | sensor true, language, latlng, no address, key as above |
| `GeocoderClient.ForwardQueryParameters` | library/src/main/java/com/doctoror/geocoder/Geocoder.java:199-206 | sensor false, language, address, no latlng, key as above |
| `GeocoderClient.Attempt` | library/src/main/java/com/doctoror/geocoder/Geocoder.java:154-157 | no data gives the empty list; a body is parsed |
| `GeocoderClient.Surface` | library/src/main/java/com/doctoror/geocoder/Geocoder.java:156 | a parser error surfaces unchanged |
| `GeocoderClient.CoordinatesCheckedFirst` | library/src/main/java/com/doctoror/geocoder/Geocoder.java:132-137 | out-of-range coordinates, and only those, are rejected before the gate and any download |
| `GeocoderClient.CornersOfTheMapAccepted` | library/src/main/java/com/doctoror/geocoder/Geocoder.java:132-137 | the bounds ±90 and ±180 themselves are accepted |
| `GeocoderClient.NullNameCheckedFirst` | library/src/main/java/com/doctoror/geocoder/Geocoder.java:189-191 | a null location name is rejected before the gate and any download |
| `GeocoderClient.GateRefuses` | library/src/main/java/com/doctoror/geocoder/Geocoder.java:139-141 | both lookups are refused with LimitExceeded, without download, exactly when `now <= allowedDate` |
| `GeocoderClient.ReverseNeverRetries` | library/src/main/java/com/doctoror/geocoder/Geocoder.java:154-158 | a reverse lookup downloads at most once and never writes the allowed date |
| `GeocoderClient.RetriesExactlyOnce` | library/src/main/java/com/doctoror/geocoder/Geocoder.java:209-231 | a second download happens exactly after a first over-limit answer and an uninterrupted wait |
| `GeocoderClient.LockOnlyAfterTwoOverLimits` | library/src/main/java/com/doctoror/geocoder/Geocoder.java:221-229 | the allowed date is written exactly after two over-limit answers, as `now + 86400000`, and the error is raised |
| `GeocoderClient.ForwardOverLimitLocks` | library/src/main/java/com/doctoror/geocoder/Geocoder.java:209-231 | an over-limit error leaving the forward lookup has always set the lock |
| `GeocoderClient.EmptyInsteadOfError` | library/src/main/java/com/doctoror/geocoder/Geocoder.java:209-222 | interrupted wait, failed first download and failed second download give the empty list |
| `GeocoderClient.OtherErrorsPropagate` | library/src/main/java/com/doctoror/geocoder/Geocoder.java:211-213 | any other parser error is raised at once, without retry or lock |
| `GeocoderClient.Preferences.constructor` | library/src/main/java/com/doctoror/geocoder/Geocoder.java:319-322 | the stored entry as the preference file holds it |
| `GeocoderClient.Geocoder.constructor` | library/src/main/java/com/doctoror/geocoder/Geocoder.java:90-101 | preferences not yet opened, cached date 0, so the gate will read storage |
| `GeocoderClient.Geocoder.GetAllowedDate` | library/src/main/java/com/doctoror/geocoder/Geocoder.java:318-325 | first use loads the stored value (0 when absent) into the cache; later uses return the cache; the answer never changes by loading |
| `GeocoderClient.Geocoder.SetAllowedDate` | library/src/main/java/com/doctoror/geocoder/Geocoder.java:302-311 | updates both the cache and storage |
| `GeocoderClient.Geocoder.IsLimitExceeded` | library/src/main/java/com/doctoror/geocoder/Geocoder.java:293-295 | true exactly when `now <= allowedDate` |
| `GeocoderClient.Geocoder.GetFromLocation` | library/src/main/java/com/doctoror/geocoder/Geocoder.java:128-159 | equal to `ReverseLookup`: results, downloads made (each the reverse query), allowed date unchanged |
| `GeocoderClient.Geocoder.GetFromLocationName` | library/src/main/java/com/doctoror/geocoder/Geocoder.java:185-234 | equal to `ForwardLookup`: results, downloads made (each the forward query), and the lock written to cache and storage exactly when the policy sets it |

## Left out

- Turning the response bytes into a JSON tree is not modelled: UTF-8 decoding, the org.json tokenizer, and org.json's coercions (`getString` on a number, `getDouble` on a numeric string). The parser starts from a decoded `Json` value. A missing key or a value of the wrong kind is a fault.
- Latitude and longitude are `real`. Java doubles are copied and compared here, never computed with, so rounding is not modelled.
- GeocoderClient.CoordinatesCheckedFirst: NaN passes Java's range check, because both comparisons with NaN are false; reals have no NaN, so a lookup with NaN coordinates, which Java sends as "NaN,NaN", is not modelled.
- `download` (the URL connection, the read loop into a 4096-byte buffer, stream closing) is an input to the lookup methods: null data or a decoded body. Its swallowed `IOException` appears only as null data.
- `Uri` building, percent-encoding, the endpoint URL and the decimal text of `latitude + "," + longitude` are not modelled. A request is its list of query parameters, and the coordinate pair stays a pair.
- `System.currentTimeMillis()` is two parameters, the clock at the gate and the clock when the lock is written. `Thread.sleep(2000)` is a boolean saying whether the wait was interrupted.
- `SharedPreferences` is one object holding the one stored entry. The asynchronous `apply()` is treated as an immediate write.
- GeocoderClient.RetryPolicy: the lock date `now + 86400000` is computed on unbounded integers. Java's `long` wrap-around near `Long.MAX_VALUE` is not modelled.
- The Android Parcel machinery (`CREATOR`, class loaders, `describeContents`) and `Address.toString` are not modelled. A parcel is a token sequence, and a parcelable is written as its class name followed by its payload.
- `Throwable`'s stack trace is not modelled. A cause is its class, its message and, for the parser's own faults, the fault.
- GeocoderErrors.FaultMessage: org.json's type-mismatch message also prints the offending value and its Java class (`Value <value> at <key> of type <class> cannot be converted to <type>`); the model's text leaves those two out and keeps the key or index and the type asked for.
- The sample application's activity is outside the library core and is not part of this model. So is the instrumentation test, which calls a four-argument parser that the library does not define.
