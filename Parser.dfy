/**
 * The response interpreter: from the decoded JSON response to the list of
 * addresses it describes, or to what the parser raises.
 *
 * The functions below are the specification: each states what one part of the
 * parser computes, with a JSON fault (org.json's JSONException) as the error.
 * The methods after them build mutable Address objects step by step, as the
 * parser does, and are proved to agree with the functions.
 */
module Parser {
  import opened Wrappers
  import opened Json
  import opened GeocoderStatus
  import opened GeocoderErrors
  import opened AddressModel

  /**
   * What parseJson raises: a GeocoderException, or the IllegalArgumentException
   * of `new ArrayList<>(count)` for a negative count.
   */
  datatype ParseError = Raised(error: ErrorValue) | IllegalCapacity(capacity: int)

  /** A JSONException caught by parseJson and rethrown as the cause of a GeocoderException. */
  function JsonError(f: JsonFault): ParseError {
    Raised(ErrorValue(None, None, Some(JsonCause(f))))
  }

  function Lift<T>(r: Result<T, JsonFault>): (e: Result<T, ParseError>)
    ensures r.Success? ==> e == Success(r.value)
    ensures r.Failure? ==> e == Failure(JsonError(r.error))
  {
    match r
    case Success(v) => Success(v)
    case Failure(f) => Failure(JsonError(f))
  }

  // ---------------------------------------------------------------------------
  // The type-token table of parseAddressComponents

  /**
   * The fields the switch on a component type token sets. Its case labels are
   * grouped here by length (javac likewise picks a case by the token's hash code
   * before comparing text); the labels are distinct, so the grouping changes no
   * outcome. The "neighborhood" case has no `break` and runs on into "premise".
   */
  function TokenFields(token: string): seq<Field> {
    match |token|
    case 4 => CasesOfLength4(token)
    case 5 => CasesOfLength5(token)
    case 7 => CasesOfLength7(token)
    case 8 => CasesOfLength8(token)
    case 9 => CasesOfLength9(token)
    case 10 => CasesOfLength10(token)
    case 11 => CasesOfLength11(token)
    case 12 => CasesOfLength12(token)
    case 13 => CasesOfLength13(token)
    case 14 => CasesOfLength14(token)
    case 15 => CasesOfLength15(token)
    case 17 => CasesOfLength17(token)
    case 19 => CasesOfLength19(token)
    case 27 => CasesOfLength27(token)
    case _ => []
  }

  /** The cases of the switch whose label has 4 characters, in source order. */
  function CasesOfLength4(token: string): seq<Field> {
    match token
    case "ward" => [Ward]
    case "park" => [Park]
    case "room" => [Room]
    case _ => []
  }

  /** The cases of the switch whose label has 5 characters, in source order. */
  function CasesOfLength5(token: string): seq<Field> {
    match token
    case "route" => [Route]
    case "floor" => [Floor]
    case _ => []
  }

  /** The cases of the switch whose label has 7 characters, in source order. */
  function CasesOfLength7(token: string): seq<Field> {
    match token
    case "country" => [Country]
    case "premise" => [Premise]
    case "airport" => [Airport]
    case "parking" => [Parking]
    case _ => []
  }

  /** The cases of the switch whose label has 8 characters, in source order. */
  function CasesOfLength8(token: string): seq<Field> {
    match token
    case "locality" => [Locality]
    case "post_box" => [PostBox]
    case _ => []
  }

  /** The cases of the switch whose label has 9 characters, in source order. */
  function CasesOfLength9(token: string): seq<Field> {
    match token
    case "political" => [Political]
    case _ => []
  }

  /** The cases of the switch whose label has 10 characters, in source order. */
  function CasesOfLength10(token: string): seq<Field> {
    match token
    case "subpremise" => [SubPremise]
    case _ => []
  }

  /** The cases of the switch whose label has 11 characters, in source order. */
  function CasesOfLength11(token: string): seq<Field> {
    match token
    case "sublocality" => [SubLocality]
    case "postal_code" => [PostalCode]
    case "postal_town" => [PostTown]
    case "bus_station" => [BusStation]
    case _ => []
  }

  /** The cases of the switch whose label has 12 characters, in source order. */
  function CasesOfLength12(token: string): seq<Field> {
    match token
    case "intersection" => [Intersection]
    case "neighborhood" => [Neighborhood, Premise]
    case _ => []
  }

  /** The cases of the switch whose label has 13 characters, in source order. */
  function CasesOfLength13(token: string): seq<Field> {
    match token
    case "establishment" => [Establishment]
    case "street_number" => [StreetNumber]
    case "train_station" => [TrainStation]
    case _ => []
  }

  /** The cases of the switch whose label has 14 characters, in source order. */
  function CasesOfLength14(token: string): seq<Field> {
    match token
    case "street_address" => [StreetAddress]
    case _ => []
  }

  /** The cases of the switch whose label has 15 characters, in source order. */
  function CasesOfLength15(token: string): seq<Field> {
    match token
    case "colloquial_area" => [ColloquialArea]
    case "natural_feature" => [NaturalFeature]
    case "transit_station" => [TransitStation]
    case _ => []
  }

  /** The cases of the switch whose label has 17 characters, in source order. */
  function CasesOfLength17(token: string): seq<Field> {
    match token
    case "point_of_interest" => [PointOfInterest]
    case _ => []
  }

  /** The cases of the switch whose label has 19 characters, in source order. */
  function CasesOfLength19(token: string): seq<Field> {
    match token
    case "sublocality_level_1" => [SubLocalityLevel1]
    case "sublocality_level_2" => [SubLocalityLevel2]
    case "sublocality_level_3" => [SubLocalityLevel3]
    case "sublocality_level_4" => [SubLocalityLevel4]
    case "sublocality_level_5" => [SubLocalityLevel5]
    case _ => []
  }

  /** The cases of the switch whose label has 27 characters, in source order. */
  function CasesOfLength27(token: string): seq<Field> {
    match token
    case "administrative_area_level_1" => [AdministrativeAreaLevel1]
    case "administrative_area_level_2" => [AdministrativeAreaLevel2]
    case "administrative_area_level_3" => [AdministrativeAreaLevel3]
    case "administrative_area_level_4" => [AdministrativeAreaLevel4]
    case "administrative_area_level_5" => [AdministrativeAreaLevel5]
    case _ => []
  }

  // The type tokens, named after the field whose setter their case calls.
  const StreetAddressLabel := "street_address"
  const RouteLabel := "route"
  const IntersectionLabel := "intersection"
  const PoliticalLabel := "political"
  const CountryLabel := "country"
  const AdministrativeAreaLevel1Label := "administrative_area_level_1"
  const AdministrativeAreaLevel2Label := "administrative_area_level_2"
  const AdministrativeAreaLevel3Label := "administrative_area_level_3"
  const AdministrativeAreaLevel4Label := "administrative_area_level_4"
  const AdministrativeAreaLevel5Label := "administrative_area_level_5"
  const ColloquialAreaLabel := "colloquial_area"
  const LocalityLabel := "locality"
  const WardLabel := "ward"
  const SubLocalityLabel := "sublocality"
  const SubLocalityLevel1Label := "sublocality_level_1"
  const SubLocalityLevel2Label := "sublocality_level_2"
  const SubLocalityLevel3Label := "sublocality_level_3"
  const SubLocalityLevel4Label := "sublocality_level_4"
  const SubLocalityLevel5Label := "sublocality_level_5"
  const NeighborhoodLabel := "neighborhood"
  const PremiseLabel := "premise"
  const SubPremiseLabel := "subpremise"
  const PostalCodeLabel := "postal_code"
  const NaturalFeatureLabel := "natural_feature"
  const AirportLabel := "airport"
  const ParkLabel := "park"
  const PointOfInterestLabel := "point_of_interest"
  const FloorLabel := "floor"
  const EstablishmentLabel := "establishment"
  const ParkingLabel := "parking"
  const PostBoxLabel := "post_box"
  const PostTownLabel := "postal_town"
  const RoomLabel := "room"
  const StreetNumberLabel := "street_number"
  const BusStationLabel := "bus_station"
  const TrainStationLabel := "train_station"
  const TransitStationLabel := "transit_station"

  /**
   * The type token whose case names a field's setter, field by field: the
   * reference the switch is checked against.
   */
  function TokenName(f: Field): Option<string> {
    match f
    case FormattedAddress => None
    case StreetAddress => Some(StreetAddressLabel)
    case Route => Some(RouteLabel)
    case Intersection => Some(IntersectionLabel)
    case Political => Some(PoliticalLabel)
    case Country => Some(CountryLabel)
    case CountryCode => None
    case AdministrativeAreaLevel1 => Some(AdministrativeAreaLevel1Label)
    case AdministrativeAreaLevel2 => Some(AdministrativeAreaLevel2Label)
    case AdministrativeAreaLevel3 => Some(AdministrativeAreaLevel3Label)
    case AdministrativeAreaLevel4 => Some(AdministrativeAreaLevel4Label)
    case AdministrativeAreaLevel5 => Some(AdministrativeAreaLevel5Label)
    case ColloquialArea => Some(ColloquialAreaLabel)
    case Locality => Some(LocalityLabel)
    case Ward => Some(WardLabel)
    case SubLocality => Some(SubLocalityLabel)
    case SubLocalityLevel1 => Some(SubLocalityLevel1Label)
    case SubLocalityLevel2 => Some(SubLocalityLevel2Label)
    case SubLocalityLevel3 => Some(SubLocalityLevel3Label)
    case SubLocalityLevel4 => Some(SubLocalityLevel4Label)
    case SubLocalityLevel5 => Some(SubLocalityLevel5Label)
    case Neighborhood => Some(NeighborhoodLabel)
    case Premise => Some(PremiseLabel)
    case SubPremise => Some(SubPremiseLabel)
    case PostalCode => Some(PostalCodeLabel)
    case NaturalFeature => Some(NaturalFeatureLabel)
    case Airport => Some(AirportLabel)
    case Park => Some(ParkLabel)
    case PointOfInterest => Some(PointOfInterestLabel)
    case Floor => Some(FloorLabel)
    case Establishment => Some(EstablishmentLabel)
    case Parking => Some(ParkingLabel)
    case PostBox => Some(PostBoxLabel)
    case PostTown => Some(PostTownLabel)
    case Room => Some(RoomLabel)
    case StreetNumber => Some(StreetNumberLabel)
    case BusStation => Some(BusStationLabel)
    case TrainStation => Some(TrainStationLabel)
    case TransitStation => Some(TransitStationLabel)
    case LocationType => None
  }

  /** What the switch sets for the token named after `f`. */
  function Mapped(f: Field): seq<Field> {
    if f == Neighborhood then [Neighborhood, Premise] else [f]
  }

  // Proof helpers for KnownToken: one lemma per token length, so that each
  // obligation only unfolds the cases of that length.

  lemma KnownTokenOfLength4(token: string)
    requires |token| == 4 && CasesOfLength4(token) != []
    ensures TokenName(CasesOfLength4(token)[0]) == Some(token)
    ensures CasesOfLength4(token) == Mapped(CasesOfLength4(token)[0])
  {
  }

  lemma KnownTokenOfLength5(token: string)
    requires |token| == 5 && CasesOfLength5(token) != []
    ensures TokenName(CasesOfLength5(token)[0]) == Some(token)
    ensures CasesOfLength5(token) == Mapped(CasesOfLength5(token)[0])
  {
  }

  lemma KnownTokenOfLength7(token: string)
    requires |token| == 7 && CasesOfLength7(token) != []
    ensures TokenName(CasesOfLength7(token)[0]) == Some(token)
    ensures CasesOfLength7(token) == Mapped(CasesOfLength7(token)[0])
  {
  }

  lemma KnownTokenOfLength8(token: string)
    requires |token| == 8 && CasesOfLength8(token) != []
    ensures TokenName(CasesOfLength8(token)[0]) == Some(token)
    ensures CasesOfLength8(token) == Mapped(CasesOfLength8(token)[0])
  {
  }

  lemma KnownTokenOfLength9(token: string)
    requires |token| == 9 && CasesOfLength9(token) != []
    ensures TokenName(CasesOfLength9(token)[0]) == Some(token)
    ensures CasesOfLength9(token) == Mapped(CasesOfLength9(token)[0])
  {
  }

  lemma KnownTokenOfLength10(token: string)
    requires |token| == 10 && CasesOfLength10(token) != []
    ensures TokenName(CasesOfLength10(token)[0]) == Some(token)
    ensures CasesOfLength10(token) == Mapped(CasesOfLength10(token)[0])
  {
  }

  lemma KnownTokenOfLength11(token: string)
    requires |token| == 11 && CasesOfLength11(token) != []
    ensures TokenName(CasesOfLength11(token)[0]) == Some(token)
    ensures CasesOfLength11(token) == Mapped(CasesOfLength11(token)[0])
  {
  }

  lemma KnownTokenOfLength12(token: string)
    requires |token| == 12 && CasesOfLength12(token) != []
    ensures TokenName(CasesOfLength12(token)[0]) == Some(token)
    ensures CasesOfLength12(token) == Mapped(CasesOfLength12(token)[0])
  {
  }

  lemma KnownTokenOfLength13(token: string)
    requires |token| == 13 && CasesOfLength13(token) != []
    ensures TokenName(CasesOfLength13(token)[0]) == Some(token)
    ensures CasesOfLength13(token) == Mapped(CasesOfLength13(token)[0])
  {
  }

  lemma KnownTokenOfLength14(token: string)
    requires |token| == 14 && CasesOfLength14(token) != []
    ensures TokenName(CasesOfLength14(token)[0]) == Some(token)
    ensures CasesOfLength14(token) == Mapped(CasesOfLength14(token)[0])
  {
  }

  lemma KnownTokenOfLength15(token: string)
    requires |token| == 15 && CasesOfLength15(token) != []
    ensures TokenName(CasesOfLength15(token)[0]) == Some(token)
    ensures CasesOfLength15(token) == Mapped(CasesOfLength15(token)[0])
  {
  }

  lemma KnownTokenOfLength17(token: string)
    requires |token| == 17 && CasesOfLength17(token) != []
    ensures TokenName(CasesOfLength17(token)[0]) == Some(token)
    ensures CasesOfLength17(token) == Mapped(CasesOfLength17(token)[0])
  {
  }

  lemma KnownTokenOfLength19(token: string)
    requires |token| == 19 && CasesOfLength19(token) != []
    ensures TokenName(CasesOfLength19(token)[0]) == Some(token)
    ensures CasesOfLength19(token) == Mapped(CasesOfLength19(token)[0])
  {
  }

  lemma KnownTokenOfLength27(token: string)
    requires |token| == 27 && CasesOfLength27(token) != []
    ensures TokenName(CasesOfLength27(token)[0]) == Some(token)
    ensures CasesOfLength27(token) == Mapped(CasesOfLength27(token)[0])
  {
  }

  /** A token the switch knows is the token of the first field it sets. */
  lemma KnownToken(token: string)
    requires TokenFields(token) != []
    ensures TokenName(TokenFields(token)[0]) == Some(token)
    ensures TokenFields(token) == Mapped(TokenFields(token)[0])
  {
    match |token|
    case 4 => KnownTokenOfLength4(token);
    case 5 => KnownTokenOfLength5(token);
    case 7 => KnownTokenOfLength7(token);
    case 8 => KnownTokenOfLength8(token);
    case 9 => KnownTokenOfLength9(token);
    case 10 => KnownTokenOfLength10(token);
    case 11 => KnownTokenOfLength11(token);
    case 12 => KnownTokenOfLength12(token);
    case 13 => KnownTokenOfLength13(token);
    case 14 => KnownTokenOfLength14(token);
    case 15 => KnownTokenOfLength15(token);
    case 17 => KnownTokenOfLength17(token);
    case 19 => KnownTokenOfLength19(token);
    case 27 => KnownTokenOfLength27(token);
    case _ =>
  }

  // Proof helpers for FieldTokenSets: one lemma per case of the switch.

  lemma StreetAddressToken()
    ensures TokenFields("street_address") == Mapped(StreetAddress)
  {
  }

  lemma RouteToken()
    ensures TokenFields("route") == Mapped(Route)
  {
  }

  lemma IntersectionToken()
    ensures TokenFields("intersection") == Mapped(Intersection)
  {
  }

  lemma PoliticalToken()
    ensures TokenFields("political") == Mapped(Political)
  {
  }

  lemma CountryToken()
    ensures TokenFields("country") == Mapped(Country)
  {
  }

  lemma AdministrativeAreaLevel1Token()
    ensures TokenFields("administrative_area_level_1") == Mapped(AdministrativeAreaLevel1)
  {
  }

  lemma AdministrativeAreaLevel2Token()
    ensures TokenFields("administrative_area_level_2") == Mapped(AdministrativeAreaLevel2)
  {
  }

  lemma AdministrativeAreaLevel3Token()
    ensures TokenFields("administrative_area_level_3") == Mapped(AdministrativeAreaLevel3)
  {
  }

  lemma AdministrativeAreaLevel4Token()
    ensures TokenFields("administrative_area_level_4") == Mapped(AdministrativeAreaLevel4)
  {
  }

  lemma AdministrativeAreaLevel5Token()
    ensures TokenFields("administrative_area_level_5") == Mapped(AdministrativeAreaLevel5)
  {
  }

  lemma ColloquialAreaToken()
    ensures TokenFields("colloquial_area") == Mapped(ColloquialArea)
  {
  }

  lemma LocalityToken()
    ensures TokenFields("locality") == Mapped(Locality)
  {
  }

  lemma WardToken()
    ensures TokenFields("ward") == Mapped(Ward)
  {
  }

  lemma SubLocalityToken()
    ensures TokenFields("sublocality") == Mapped(SubLocality)
  {
  }

  lemma SubLocalityLevel1Token()
    ensures TokenFields("sublocality_level_1") == Mapped(SubLocalityLevel1)
  {
  }

  lemma SubLocalityLevel2Token()
    ensures TokenFields("sublocality_level_2") == Mapped(SubLocalityLevel2)
  {
  }

  lemma SubLocalityLevel3Token()
    ensures TokenFields("sublocality_level_3") == Mapped(SubLocalityLevel3)
  {
  }

  lemma SubLocalityLevel4Token()
    ensures TokenFields("sublocality_level_4") == Mapped(SubLocalityLevel4)
  {
  }

  lemma SubLocalityLevel5Token()
    ensures TokenFields("sublocality_level_5") == Mapped(SubLocalityLevel5)
  {
  }

  lemma NeighborhoodToken()
    ensures TokenFields("neighborhood") == Mapped(Neighborhood)
  {
  }

  lemma PremiseToken()
    ensures TokenFields("premise") == Mapped(Premise)
  {
  }

  lemma SubPremiseToken()
    ensures TokenFields("subpremise") == Mapped(SubPremise)
  {
  }

  lemma PostalCodeToken()
    ensures TokenFields("postal_code") == Mapped(PostalCode)
  {
  }

  lemma NaturalFeatureToken()
    ensures TokenFields("natural_feature") == Mapped(NaturalFeature)
  {
  }

  lemma AirportToken()
    ensures TokenFields("airport") == Mapped(Airport)
  {
  }

  lemma ParkToken()
    ensures TokenFields("park") == Mapped(Park)
  {
  }

  lemma PointOfInterestToken()
    ensures TokenFields("point_of_interest") == Mapped(PointOfInterest)
  {
  }

  lemma FloorToken()
    ensures TokenFields("floor") == Mapped(Floor)
  {
  }

  lemma EstablishmentToken()
    ensures TokenFields("establishment") == Mapped(Establishment)
  {
  }

  lemma ParkingToken()
    ensures TokenFields("parking") == Mapped(Parking)
  {
  }

  lemma PostBoxToken()
    ensures TokenFields("post_box") == Mapped(PostBox)
  {
  }

  lemma PostTownToken()
    ensures TokenFields("postal_town") == Mapped(PostTown)
  {
  }

  lemma RoomToken()
    ensures TokenFields("room") == Mapped(Room)
  {
  }

  lemma StreetNumberToken()
    ensures TokenFields("street_number") == Mapped(StreetNumber)
  {
  }

  lemma BusStationToken()
    ensures TokenFields("bus_station") == Mapped(BusStation)
  {
  }

  lemma TrainStationToken()
    ensures TokenFields("train_station") == Mapped(TrainStation)
  {
  }

  lemma TransitStationToken()
    ensures TokenFields("transit_station") == Mapped(TransitStation)
  {
  }

  /** Each field's own token sets that field (and, for the neighborhood, the premise too). */
  lemma FieldTokenSets(f: Field)
    requires TokenName(f).Some?
    ensures TokenFields(TokenName(f).value) == Mapped(f)
  {
    match f
    case StreetAddress => StreetAddressToken();
    case Route => RouteToken();
    case Intersection => IntersectionToken();
    case Political => PoliticalToken();
    case Country => CountryToken();
    case AdministrativeAreaLevel1 => AdministrativeAreaLevel1Token();
    case AdministrativeAreaLevel2 => AdministrativeAreaLevel2Token();
    case AdministrativeAreaLevel3 => AdministrativeAreaLevel3Token();
    case AdministrativeAreaLevel4 => AdministrativeAreaLevel4Token();
    case AdministrativeAreaLevel5 => AdministrativeAreaLevel5Token();
    case ColloquialArea => ColloquialAreaToken();
    case Locality => LocalityToken();
    case Ward => WardToken();
    case SubLocality => SubLocalityToken();
    case SubLocalityLevel1 => SubLocalityLevel1Token();
    case SubLocalityLevel2 => SubLocalityLevel2Token();
    case SubLocalityLevel3 => SubLocalityLevel3Token();
    case SubLocalityLevel4 => SubLocalityLevel4Token();
    case SubLocalityLevel5 => SubLocalityLevel5Token();
    case Neighborhood => NeighborhoodToken();
    case Premise => PremiseToken();
    case SubPremise => SubPremiseToken();
    case PostalCode => PostalCodeToken();
    case NaturalFeature => NaturalFeatureToken();
    case Airport => AirportToken();
    case Park => ParkToken();
    case PointOfInterest => PointOfInterestToken();
    case Floor => FloorToken();
    case Establishment => EstablishmentToken();
    case Parking => ParkingToken();
    case PostBox => PostBoxToken();
    case PostTown => PostTownToken();
    case Room => RoomToken();
    case StreetNumber => StreetNumberToken();
    case BusStation => BusStationToken();
    case TrainStation => TrainStationToken();
    case TransitStation => TransitStationToken();
    case _ =>
  }

  /**
   * The switch agrees with the field-by-field table in both directions: a token
   * sets a field exactly when it is that field's token, except that
   * "neighborhood" also sets the premise. Any other text sets nothing.
   */
  lemma TokenTableAgrees(token: string, f: Field)
    ensures f in TokenFields(token) <==> TokenName(f) == Some(token) || (token == "neighborhood" && f == Premise)
  {
    if f in TokenFields(token) {
      KnownToken(token);
      var g := TokenFields(token)[0];
      if f != g {
        assert g == Neighborhood && f == Premise;
      }
    } else if TokenName(f) == Some(token) {
      FieldTokenSets(f);
    } else if token == "neighborhood" && f == Premise {
      FieldTokenSets(Neighborhood);
    }
  }

  /** A token naming no field sets nothing. */
  lemma UnknownTokenSetsNothing(token: string)
    requires forall f :: TokenName(f) != Some(token)
    ensures TokenFields(token) == []
  {
    if TokenFields(token) != [] {
      KnownToken(token);
    }
  }

  /** The case without `break`: "neighborhood" sets the neighborhood and then the premise. */
  lemma NeighborhoodAlsoSetsPremise()
    ensures TokenFields("neighborhood") == [Neighborhood, Premise]
  {
  }

  /** No token sets the country code, the formatted address or the location type. */
  lemma NeverSetByComponents(token: string, f: Field)
    requires f == CountryCode || f == FormattedAddress || f == LocationType
    ensures f !in TokenFields(token)
  {
    TokenTableAgrees(token, f);
  }

  // ---------------------------------------------------------------------------
  // Geometry: parseGeometry

  /** `if (o.has(key)) setX(o.getString(key))` */
  function CopyText(o: Members, key: string, f: Field, acc: AddressValue): (r: Result<AddressValue, JsonFault>)
    ensures key !in o ==> r == Success(acc)
    ensures key in o ==> (r.Success? <==> o[key].JString?)
    ensures key in o && r.Success? ==> r.value == acc.WithText(f, Some(o[key].s))
  {
    if key !in o then Success(acc)
    else
      var s :- GetString(o, key);
      Success(acc.WithText(f, Some(s)))
  }

  /** The point a JSON value describes when it is an object with numeric "lat" and "lng". */
  ghost function Coordinates(j: Json): Option<Location> {
    if j.JObject? && "lat" in j.members && "lng" in j.members
      && j.members["lat"].JNumber? && j.members["lng"].JNumber?
    then Some(Location(j.members["lat"].n, j.members["lng"].n))
    else None
  }

  /** `new Location(o.getDouble(LAT), o.getDouble(LNG))`: strict, latitude read first. */
  function ParseLocation(o: Members): (r: Result<Location, JsonFault>)
    ensures r.Success? <==> Coordinates(JObject(o)).Some?
    ensures r.Success? ==> Coordinates(JObject(o)) == Some(r.value)
    ensures r.Failure? ==> r.error == if GetDouble(o, "lat").Failure? then GetDouble(o, "lat").error else GetDouble(o, "lng").error
  {
    var lat :- GetDouble(o, "lat");
    var lng :- GetDouble(o, "lng");
    Success(Location(lat, lng))
  }

  predicate HasCorners(box: Members) {
    "southwest" in box && "northeast" in box
  }

  /** The two corners of the box under `key`, when it has both and both are points. */
  ghost function Corners(g: Members, key: string): Option<(Location, Location)> {
    if key in g && g[key].JObject? && HasCorners(g[key].members)
      && Coordinates(g[key].members["southwest"]).Some? && Coordinates(g[key].members["northeast"]).Some?
    then Some((Coordinates(g[key].members["southwest"]).value, Coordinates(g[key].members["northeast"]).value))
    else None
  }

  /**
   * A viewport or bounds box: nothing unless both corner keys are present; then
   * southwest (object, lat, lng) is read before northeast, and any missing or
   * mistyped value is a fault.
   */
  function ParseBox(g: Members, key: string): (r: Result<Option<(Location, Location)>, JsonFault>)
    ensures r.Success? ==> r.value == Corners(g, key)
    ensures r.Success? && key in g ==> g[key].JObject? && (HasCorners(g[key].members) ==> r.value.Some?)
  {
    if key !in g then Success(None)
    else
      var box :- GetObject(g, key);
      if !HasCorners(box) then Success(None)
      else
        var sw :- GetObject(box, "southwest");
        var southwest :- ParseLocation(sw);
        var ne :- GetObject(box, "northeast");
        var northeast :- ParseLocation(ne);
        Success(Some((southwest, northeast)))
  }

  /** `if (geometry.has(LOCATION)) setLocation(...)` */
  function CopyLocation(g: Members, acc: AddressValue): (r: Result<AddressValue, JsonFault>)
    ensures r.Success? ==> r.value == if "location" in g then acc.(location := Coordinates(g["location"])) else acc
    ensures r.Success? && "location" in g ==> Coordinates(g["location"]).Some?
  {
    if "location" !in g then Success(acc)
    else
      var o :- GetObject(g, "location");
      var l :- ParseLocation(o);
      Success(acc.(location := Some(l)))
  }

  function ViewportOf(c: Option<(Location, Location)>, otherwise: Option<Viewport>): Option<Viewport> {
    if c.Some? then Some(Viewport(Some(c.value.0), Some(c.value.1))) else otherwise
  }

  function BoundsOf(c: Option<(Location, Location)>, otherwise: Option<Bounds>): Option<Bounds> {
    if c.Some? then Some(Bounds(Some(c.value.0), Some(c.value.1))) else otherwise
  }

  /** parseGeometry on `acc`. */
  function ApplyGeometry(result: Members, acc: AddressValue): (r: Result<AddressValue, JsonFault>)
    ensures "geometry" !in result ==> r == Success(acc)
    ensures r.Success? ==> forall f :: f != LocationType ==> r.value.Get(f) == acc.Get(f)
  {
    if "geometry" !in result then Success(acc)
    else
      var g :- GetObject(result, "geometry");
      var typed :- CopyText(g, "location_type", LocationType, acc);
      var located :- CopyLocation(g, typed);
      var viewport :- ParseBox(g, "viewport");
      var bounds :- ParseBox(g, "bounds");
      Success(located.(viewport := ViewportOf(viewport, located.viewport), bounds := BoundsOf(bounds, located.bounds)))
  }

  /**
   * What a successful parseGeometry copies: the location type, the location and
   * the two boxes, each when present. A present location has both coordinates,
   * and a box with both corner keys has both corners with both coordinates.
   */
  lemma GeometryCopied(result: Members, acc: AddressValue)
    requires "geometry" in result && ApplyGeometry(result, acc).Success?
    ensures result["geometry"].JObject?
    ensures var g := result["geometry"].members; var r := ApplyGeometry(result, acc).value;
      && ("location_type" in g ==> g["location_type"].JString? && r.Get(LocationType) == Some(g["location_type"].s))
      && ("location_type" !in g ==> r.Get(LocationType) == acc.Get(LocationType))
      && r.location == (if "location" in g then Coordinates(g["location"]) else acc.location)
      && ("location" in g ==> Coordinates(g["location"]).Some?)
      && r.viewport == ViewportOf(Corners(g, "viewport"), acc.viewport)
      && r.bounds == BoundsOf(Corners(g, "bounds"), acc.bounds)
      && ("viewport" in g ==> g["viewport"].JObject? && (HasCorners(g["viewport"].members) ==> Corners(g, "viewport").Some?))
      && ("bounds" in g ==> g["bounds"].JObject? && (HasCorners(g["bounds"].members) ==> Corners(g, "bounds").Some?))
  {
  }

  // ---------------------------------------------------------------------------
  // Address components: parseAddressComponents

  /** The component's text: long_name when that key is present (even if empty), else short_name. */
  function ComponentValue(c: Members): (r: Result<Option<string>, JsonFault>)
    ensures "long_name" in c ==> (r.Success? <==> c["long_name"].JString?)
    ensures "long_name" in c && r.Success? ==> r.value == Some(c["long_name"].s)
    ensures "long_name" !in c && "short_name" in c ==> (r.Success? <==> c["short_name"].JString?)
    ensures "long_name" !in c && "short_name" in c && r.Success? ==> r.value == Some(c["short_name"].s)
    ensures "long_name" !in c && "short_name" !in c ==> r == Success(None)
  {
    if "long_name" in c then
      var s :- GetString(c, "long_name");
      Success(Some(s))
    else if "short_name" in c then
      var s :- GetString(c, "short_name");
      Success(Some(s))
    else Success(None)
  }

  /** The setter calls of one case of the switch, in order, each with `value`. */
  function SetFields(acc: AddressValue, fields: seq<Field>, value: string): (r: AddressValue)
    ensures forall f :: r.Get(f) == if f in fields then Some(value) else acc.Get(f)
    ensures r.location == acc.location && r.viewport == acc.viewport && r.bounds == acc.bounds
    decreases fields
  {
    if fields == [] then acc
    else SetFields(acc.WithText(fields[0], Some(value)), fields[1..], value)
  }

  /** The JSON value is a type token whose case sets `f`. */
  predicate TokenSets(j: Json, f: Field) {
    j.JString? && f in TokenFields(j.s)
  }

  /** The inner loop over `types`, from index `t`. */
  function ApplyTypes(types: seq<Json>, t: nat, value: string, acc: AddressValue): (r: Result<AddressValue, JsonFault>)
    requires t <= |types|
    decreases |types| - t
  {
    if t == |types| then Success(acc)
    else
      var token :- ItemString(types, t);
      ApplyTypes(types, t + 1, value, SetFields(acc, TokenFields(token), value))
  }

  /** Some token of `types[t..]` is a string whose case sets `f`. */
  ghost predicate SomeTokenSets(types: seq<Json>, t: nat, f: Field)
    requires t <= |types|
    decreases |types| - t
  {
    t < |types| && (TokenSets(types[t], f) || SomeTokenSets(types, t + 1, f))
  }

  /** The inner loop succeeds exactly when every token is a string. */
  lemma {:induction false} TypesSucceed(types: seq<Json>, t: nat, value: string, acc: AddressValue)
    requires t <= |types|
    decreases |types| - t
    ensures ApplyTypes(types, t, value, acc).Success? <==> forall k :: t <= k < |types| ==> types[k].JString?
  {
    if t < |types| {
      if types[t].JString? {
        var next := SetFields(acc, TokenFields(types[t].s), value);
        TypesSucceed(types, t + 1, value, next);
        assert ApplyTypes(types, t, value, acc) == ApplyTypes(types, t + 1, value, next);
      } else {
        assert ApplyTypes(types, t, value, acc).Failure?;
      }
    }
  }

  /** A failing inner loop stops at the first token that is not a string. */
  lemma {:induction false} TypesFailAtFirst(types: seq<Json>, t: nat, value: string, acc: AddressValue)
    requires t <= |types|
    decreases |types| - t
    ensures var r := ApplyTypes(types, t, value, acc);
      r.Failure? ==> exists k :: t <= k < |types| && !types[k].JString? && r.error == WrongItemType(k, StringKind)
                                 && forall j :: t <= j < k ==> types[j].JString?
  {
    var r := ApplyTypes(types, t, value, acc);
    if t < |types| && r.Failure? {
      if types[t].JString? {
        var next := SetFields(acc, TokenFields(types[t].s), value);
        TypesFailAtFirst(types, t + 1, value, next);
        assert r == ApplyTypes(types, t + 1, value, next);
        var k :| t + 1 <= k < |types| && !types[k].JString? && r.error == WrongItemType(k, StringKind)
                 && forall j :: t + 1 <= j < k ==> types[j].JString?;
        assert forall j :: t <= j < k ==> types[j].JString?;
      } else {
        assert r.error == WrongItemType(t, StringKind);
      }
    }
  }

  /**
   * A successful inner loop sets to `value` every field some token's case sets,
   * and leaves every other field and the geometry as they were.
   */
  lemma {:induction false} TypesSetTheirFields(types: seq<Json>, t: nat, value: string, acc: AddressValue)
    requires t <= |types|
    decreases |types| - t
    ensures var r := ApplyTypes(types, t, value, acc);
      r.Success? ==>
        && r.value.location == acc.location && r.value.viewport == acc.viewport && r.value.bounds == acc.bounds
        && forall f :: r.value.Get(f) == if SomeTokenSets(types, t, f) then Some(value) else acc.Get(f)
  {
    if t < |types| && types[t].JString? {
      var next := SetFields(acc, TokenFields(types[t].s), value);
      TypesSetTheirFields(types, t + 1, value, next);
      assert ApplyTypes(types, t, value, acc) == ApplyTypes(types, t + 1, value, next);
    }
  }

  /** One pass of the outer loop: the component at index `a`. */
  function ApplyComponent(components: seq<Json>, a: nat, acc: AddressValue): (r: Result<AddressValue, JsonFault>)
    requires a < |components|
    ensures components[a].JObject? && "types" !in components[a].members ==> r == Success(acc)
    ensures (components[a].JObject? && "types" in components[a].members
             && ComponentValue(components[a].members) in {Success(None), Success(Some(""))}) ==> r == Success(acc)
  {
    var c :- ItemObject(components, a);
    if "types" !in c then Success(acc)
    else
      var value :- ComponentValue(c);
      if value.None? || value.value == [] then Success(acc)
      else
        var types :- GetArray(c, "types");
        ApplyTypes(types, 0, value.value, acc)
  }

  /** The outer loop over the components, from index `a`. */
  function FoldComponents(components: seq<Json>, a: nat, acc: AddressValue): (r: Result<AddressValue, JsonFault>)
    requires a <= |components|
    decreases |components| - a
  {
    if a == |components| then Success(acc)
    else
      var next :- ApplyComponent(components, a, acc);
      FoldComponents(components, a + 1, next)
  }

  /** parseAddressComponents on `acc`. */
  function ApplyComponents(result: Members, acc: AddressValue): (r: Result<AddressValue, JsonFault>)
    ensures "address_components" !in result ==> r == Success(acc)
  {
    if "address_components" !in result then Success(acc)
    else
      var components :- GetArray(result, "address_components");
      FoldComponents(components, 0, acc)
  }

  /** The two states have the same location, viewport and bounds. */
  predicate SameGeometry(a: AddressValue, b: AddressValue) {
    a.location == b.location && a.viewport == b.viewport && a.bounds == b.bounds
  }

  /** `w` when the later write happened, else the earlier value. */
  function Over(w: Option<string>, earlier: Option<string>): Option<string> {
    if w.Some? then w else earlier
  }

  /**
   * The value a component writes into `f`, if it writes one: its text (long_name
   * if present, else short_name) when that is a non-empty string and some type
   * token's case sets `f`.
   */
  ghost function Written(c: Json, f: Field): Option<string> {
    if c.JObject? && "types" in c.members && c.members["types"].JArray? then
      var m := c.members;
      var text := if "long_name" in m then m["long_name"] else if "short_name" in m then m["short_name"] else JNull;
      if text.JString? && text.s != [] && SomeTokenSets(m["types"].items, 0, f) then Some(text.s) else None
    else None
  }

  /** The value the last component writing `f` writes, if any does. */
  ghost function LastWritten(components: seq<Json>, f: Field): Option<string>
    decreases |components|
  {
    if components == [] then None
    else Over(Written(components[|components| - 1], f), LastWritten(components[..|components| - 1], f))
  }

  /** One component writes its own value into the fields it names, and changes nothing else. */
  lemma ComponentWrites(components: seq<Json>, a: nat, acc: AddressValue)
    requires a < |components| && ApplyComponent(components, a, acc).Success?
    ensures var r := ApplyComponent(components, a, acc).value;
      SameGeometry(r, acc) && forall f :: r.Get(f) == Over(Written(components[a], f), acc.Get(f))
  {
    var c := components[a].members;
    if "types" in c {
      var value := ComponentValue(c).value;
      if value.Some? && value.value != [] {
        TypesSetTheirFields(c["types"].items, 0, value.value, acc);
      }
    }
  }

  lemma {:induction false} FoldWrites(components: seq<Json>, a: nat, acc: AddressValue, start: AddressValue)
    requires a <= |components| && FoldComponents(components, a, acc).Success?
    requires SameGeometry(acc, start)
    requires forall f :: acc.Get(f) == Over(LastWritten(components[..a], f), start.Get(f))
    decreases |components| - a
    ensures var r := FoldComponents(components, a, acc).value;
      SameGeometry(r, start) && forall f :: r.Get(f) == Over(LastWritten(components, f), start.Get(f))
  {
    if a == |components| {
      assert components[..a] == components;
    } else {
      var next := ApplyComponent(components, a, acc).value;
      ComponentWrites(components, a, acc);
      assert components[..a + 1][..a] == components[..a];
      FoldWrites(components, a + 1, next, start);
    }
  }

  /**
   * Later components overwrite earlier ones: after the outer loop each field
   * holds what the last component naming it wrote, or its earlier value when no
   * component names it; the geometry is untouched.
   */
  lemma LastWriteWins(components: seq<Json>, acc: AddressValue)
    requires FoldComponents(components, 0, acc).Success?
    ensures var r := FoldComponents(components, 0, acc).value;
      SameGeometry(r, acc) && forall f :: r.Get(f) == Over(LastWritten(components, f), acc.Get(f))
  {
    FoldWrites(components, 0, acc, acc);
  }

  lemma {:induction false} NoTokenSets(types: seq<Json>, t: nat, f: Field)
    requires t <= |types| && f in {CountryCode, FormattedAddress, LocationType}
    decreases |types| - t
    ensures !SomeTokenSets(types, t, f)
  {
    if t < |types| {
      if types[t].JString? {
        NeverSetByComponents(types[t].s, f);
      }
      NoTokenSets(types, t + 1, f);
    }
  }

  lemma {:induction false} NeverWritten(components: seq<Json>, f: Field)
    requires f in {CountryCode, FormattedAddress, LocationType}
    decreases |components|
    ensures LastWritten(components, f) == None
  {
    if components != [] {
      var c := components[|components| - 1];
      if c.JObject? && "types" in c.members && c.members["types"].JArray? {
        NoTokenSets(c.members["types"].items, 0, f);
      }
      NeverWritten(components[..|components| - 1], f);
    }
  }

  /**
   * parseAddressComponents never touches the formatted address, the location
   * type, the country code or the geometry.
   */
  lemma ComponentsKeepTheRest(result: Members, acc: AddressValue)
    requires ApplyComponents(result, acc).Success?
    ensures var r := ApplyComponents(result, acc).value;
      && SameGeometry(r, acc)
      && r.Get(FormattedAddress) == acc.Get(FormattedAddress)
      && r.Get(LocationType) == acc.Get(LocationType)
      && r.Get(CountryCode) == acc.Get(CountryCode)
  {
    if "address_components" in result {
      var components := result["address_components"].items;
      LastWriteWins(components, acc);
      NeverWritten(components, FormattedAddress);
      NeverWritten(components, LocationType);
      NeverWritten(components, CountryCode);
    }
  }

  // ---------------------------------------------------------------------------
  // Results and the status dispatch: parseResults, parseJson

  /** One iteration of parseResults' loop: the Address built from `results[i]`. */
  function InterpretResult(items: seq<Json>, i: nat, parseComponents: bool): (r: Result<AddressValue, JsonFault>)
    requires i < |items|
  {
    var result :- ItemObject(items, i);
    var named :- CopyText(result, "formatted_address", FormattedAddress, Blank);
    var placed :- ApplyGeometry(result, named);
    if parseComponents then ApplyComponents(result, placed) else Success(placed)
  }

  /** The loop of parseResults from index `i`, with `acc` built so far; the first failing item aborts. */
  function InterpretFrom(items: seq<Json>, count: nat, parseComponents: bool, i: nat, acc: seq<AddressValue>)
    : (r: Result<seq<AddressValue>, JsonFault>)
    requires i <= count <= |items|
    decreases count - i
  {
    if i == count then Success(acc)
    else
      var address :- InterpretResult(items, i, parseComponents);
      InterpretFrom(items, count, parseComponents, i + 1, acc + [address])
  }

  /**
   * The loop keeps what it was given and appends one address per item, in item
   * order; it succeeds exactly when every item does, and otherwise fails with
   * the fault of a failing item.
   */
  lemma {:induction false} InterpretFromItems(items: seq<Json>, count: nat, parseComponents: bool, i: nat, acc: seq<AddressValue>)
    requires i <= count <= |items|
    decreases count - i
    ensures var r := InterpretFrom(items, count, parseComponents, i, acc);
      && (r.Success? <==> forall k :: i <= k < count ==> InterpretResult(items, k, parseComponents).Success?)
      && (r.Success? ==> |r.value| == |acc| + count - i && r.value[..|acc|] == acc)
      && (r.Success? ==> forall k :: i <= k < count ==> InterpretResult(items, k, parseComponents) == Success(r.value[|acc| + k - i]))
      && (r.Failure? ==> exists k :: i <= k < count && InterpretResult(items, k, parseComponents) == Failure(r.error))
  {
    if i < count {
      var first := InterpretResult(items, i, parseComponents);
      if first.Success? {
        var acc' := acc + [first.value];
        InterpretFromItems(items, count, parseComponents, i + 1, acc');
        var r := InterpretFrom(items, count, parseComponents, i, acc);
        if r.Success? {
          assert r.value[..|acc'|] == acc';
          assert r.value[..|acc|] == acc'[..|acc|];
        }
      }
    }
  }

  /** `results.length() >= maxResults ? maxResults : results.length()` */
  function ResultCount(length: nat, maxResults: int): (count: int)
    ensures count == if length < maxResults then length else maxResults
  {
    if length >= maxResults then maxResults else length
  }

  /** parseResults: the first ResultCount items, in order. */
  function InterpretResults(o: Members, maxResults: int, parseComponents: bool): (r: Result<seq<AddressValue>, ParseError>) {
    var items :- Lift(GetArray(o, "results"));
    var count := ResultCount(|items|, maxResults);
    if count < 0 then Failure(IllegalCapacity(count))
    else Lift(InterpretFrom(items, count, parseComponents, 0, []))
  }

  /** The error_message text, when it is present and a string (a failed read is ignored). */
  function ResponseMessage(o: Members): Option<string> {
    if "error_message" in o && o["error_message"].JString? then Some(o["error_message"].s) else None
  }

  /** parseJson: the addresses of the response, or what it raises. */
  function Interpret(root: Json, maxResults: int, parseComponents: bool): (r: Result<seq<AddressValue>, ParseError>) {
    if !root.JObject? then Failure(JsonError(RootNotObject))
    else if "status" !in root.members then Failure(JsonError(NoStatusField))
    else
      var o := root.members;
      match GetString(o, "status")
      case Failure(f) => Failure(JsonError(f))
      case Success(text) =>
        match FromString(Some(text))
        case OK => if "results" in o then InterpretResults(o, maxResults, parseComponents) else Success([])
        case ZERO_RESULTS => Success([])
        case _ => Failure(Raised(ErrorValue(Some(FromString(Some(text))), ResponseMessage(o), None)))
  }

  // ---------------------------------------------------------------------------
  // The parser as it runs: fresh Address objects filled in through their setters

  /** The states of a list of Address objects, in list order. */
  ghost function Values(list: seq<Address>): (r: seq<AddressValue>)
    reads set a | a in list
    ensures |r| == |list| && forall k :: 0 <= k < |list| ==> r[k] == list[k].Value()
  {
    if list == [] then [] else Values(list[..|list| - 1]) + [list[|list| - 1].Value()]
  }

  /**
   * The switch on one type token: the setter calls of the case `TokenFields`
   * picks for it, in order, each with `value` (none for an unknown token).
   */
  method SetByToken(address: Address, token: string, value: string)
    modifies address
    ensures address.Value() == SetFields(old(address.Value()), TokenFields(token), value)
  {
    var setters := TokenFields(token);
    var k := 0;
    while k < |setters|
      invariant 0 <= k <= |setters|
      invariant SetFields(address.Value(), setters[k..], value) == SetFields(old(address.Value()), setters, value)
    {
      assert setters[k..][1..] == setters[k + 1..];
      address.SetText(setters[k], Some(value));
      k := k + 1;
    }
  }

  /** The inner loop of parseAddressComponents: every type token of one component, in order. */
  method SetByTypes(address: Address, types: seq<Json>, value: string) returns (fault: Option<JsonFault>)
    modifies address
    ensures fault.None? ==> ApplyTypes(types, 0, value, old(address.Value())) == Success(address.Value())
    ensures fault.Some? ==> ApplyTypes(types, 0, value, old(address.Value())) == Failure(fault.value)
  {
    var t := 0;
    while t < |types|
      invariant 0 <= t <= |types|
      invariant ApplyTypes(types, t, value, address.Value()) == ApplyTypes(types, 0, value, old(address.Value()))
    {
      var token := ItemString(types, t);
      if token.Failure? {
        return Some(token.error);
      }
      SetByToken(address, token.value, value);
      t := t + 1;
    }
    return None;
  }

  /** One pass of parseAddressComponents' outer loop, on the component at index `a`. */
  method ParseComponent(address: Address, components: seq<Json>, a: nat) returns (fault: Option<JsonFault>)
    requires a < |components|
    modifies address
    ensures fault.None? ==> ApplyComponent(components, a, old(address.Value())) == Success(address.Value())
    ensures fault.Some? ==> ApplyComponent(components, a, old(address.Value())) == Failure(fault.value)
  {
    var component := ItemObject(components, a);
    if component.Failure? {
      return Some(component.error);
    }
    var c := component.value;
    if "types" !in c {
      return None;
    }
    var value: Option<string> := None;
    if "long_name" in c {
      var s := GetString(c, "long_name");
      if s.Failure? {
        return Some(s.error);
      }
      value := Some(s.value);
    } else if "short_name" in c {
      var s := GetString(c, "short_name");
      if s.Failure? {
        return Some(s.error);
      }
      value := Some(s.value);
    }
    if value.None? || value.value == [] {
      return None;
    }
    var types := GetArray(c, "types");
    if types.Failure? {
      return Some(types.error);
    }
    fault := SetByTypes(address, types.value, value.value);
  }

  /** parseAddressComponents: the components in array order, later ones overwriting earlier ones. */
  method ParseAddressComponents(result: Members, address: Address) returns (fault: Option<JsonFault>)
    modifies address
    ensures fault.None? ==> ApplyComponents(result, old(address.Value())) == Success(address.Value())
    ensures fault.Some? ==> ApplyComponents(result, old(address.Value())) == Failure(fault.value)
  {
    if "address_components" !in result {
      return None;
    }
    var componentsArray := GetArray(result, "address_components");
    if componentsArray.Failure? {
      return Some(componentsArray.error);
    }
    var components := componentsArray.value;
    var a := 0;
    while a < |components|
      invariant 0 <= a <= |components|
      invariant FoldComponents(components, a, address.Value()) == FoldComponents(components, 0, old(address.Value()))
    {
      fault := ParseComponent(address, components, a);
      if fault.Some? {
        return;
      }
      a := a + 1;
    }
    return None;
  }

  /** The corners of a viewport or bounds box, read as parseGeometry reads them. */
  method ParseCorners(geometry: Members, key: string) returns (r: Result<Option<(Location, Location)>, JsonFault>)
    ensures r == ParseBox(geometry, key)
  {
    if key !in geometry {
      return Success(None);
    }
    var box := GetObject(geometry, key);
    if box.Failure? {
      return Failure(box.error);
    }
    if !HasCorners(box.value) {
      return Success(None);
    }
    var southwest := GetObject(box.value, "southwest");
    if southwest.Failure? {
      return Failure(southwest.error);
    }
    var sw := ParseLocation(southwest.value);
    if sw.Failure? {
      return Failure(sw.error);
    }
    var northeast := GetObject(box.value, "northeast");
    if northeast.Failure? {
      return Failure(northeast.error);
    }
    var ne := ParseLocation(northeast.value);
    if ne.Failure? {
      return Failure(ne.error);
    }
    return Success(Some((sw.value, ne.value)));
  }

  /** parseGeometry: copies the location type, the location and the two boxes into `current`. */
  method ParseGeometry(result: Members, current: Address) returns (fault: Option<JsonFault>)
    modifies current
    ensures fault.None? ==> ApplyGeometry(result, old(current.Value())) == Success(current.Value())
    ensures fault.Some? ==> ApplyGeometry(result, old(current.Value())) == Failure(fault.value)
  {
    if "geometry" !in result {
      return None;
    }
    var g := GetObject(result, "geometry");
    if g.Failure? {
      return Some(g.error);
    }
    var geometry := g.value;
    if "location_type" in geometry {
      var locationType := GetString(geometry, "location_type");
      if locationType.Failure? {
        return Some(locationType.error);
      }
      current.SetText(LocationType, Some(locationType.value));
    }
    if "location" in geometry {
      var location := GetObject(geometry, "location");
      if location.Failure? {
        return Some(location.error);
      }
      var l := ParseLocation(location.value);
      if l.Failure? {
        return Some(l.error);
      }
      current.SetLocation(Some(l.value));
    }
    var viewport := ParseCorners(geometry, "viewport");
    if viewport.Failure? {
      return Some(viewport.error);
    }
    if viewport.value.Some? {
      current.SetViewport(Some(Viewport(Some(viewport.value.value.0), Some(viewport.value.value.1))));
    }
    var bounds := ParseCorners(geometry, "bounds");
    if bounds.Failure? {
      return Some(bounds.error);
    }
    if bounds.value.Some? {
      current.SetBounds(Some(Bounds(Some(bounds.value.value.0), Some(bounds.value.value.1))));
    }
    return None;
  }

  /** The body of parseResults' loop: a new Address built from `results[i]`. */
  method ParseResult(results: seq<Json>, i: nat, parseComponents: bool) returns (address: Address, fault: Option<JsonFault>)
    requires i < |results|
    ensures fresh(address)
    ensures fault.None? ==> InterpretResult(results, i, parseComponents) == Success(address.Value())
    ensures fault.Some? ==> InterpretResult(results, i, parseComponents) == Failure(fault.value)
  {
    address := new Address();
    var item := ItemObject(results, i);
    if item.Failure? {
      return address, Some(item.error);
    }
    var result := item.value;
    if "formatted_address" in result {
      var formatted := GetString(result, "formatted_address");
      if formatted.Failure? {
        return address, Some(formatted.error);
      }
      address.SetText(FormattedAddress, Some(formatted.value));
    }
    fault := ParseGeometry(result, address);
    if fault.None? && parseComponents {
      fault := ParseAddressComponents(result, address);
    }
  }

  /** parseResults: one new Address per item, for the first `count` items, in order. */
  method ParseResults(maxResults: int, parseComponents: bool, o: Members) returns (r: Result<seq<Address>, ParseError>)
    ensures r.Success? <==> InterpretResults(o, maxResults, parseComponents).Success?
    ensures r.Success? ==> Values(r.value) == InterpretResults(o, maxResults, parseComponents).value
    ensures r.Success? ==> forall k :: 0 <= k < |r.value| ==> fresh(r.value[k])
    ensures r.Failure? ==> r.error == InterpretResults(o, maxResults, parseComponents).error
  {
    var resultsArray := GetArray(o, "results");
    if resultsArray.Failure? {
      return Failure(JsonError(resultsArray.error));
    }
    var results := resultsArray.value;
    var count := if |results| >= maxResults then maxResults else |results|;
    if count < 0 {
      return Failure(IllegalCapacity(count));
    }
    var addressList: seq<Address> := [];
    var i := 0;
    while i < count
      invariant 0 <= i <= count
      invariant |addressList| == i
      invariant forall k :: 0 <= k < i ==> fresh(addressList[k])
      invariant InterpretFrom(results, count, parseComponents, i, Values(addressList))
             == InterpretFrom(results, count, parseComponents, 0, [])
    {
      var address, fault := ParseResult(results, i, parseComponents);
      if fault.Some? {
        return Failure(JsonError(fault.value));
      }
      addressList := addressList + [address];
      i := i + 1;
    }
    return Success(addressList);
  }

  /** parseJson: the status dispatch, then the results; every JSON fault becomes a GeocoderException. */
  method ParseJson(root: Json, maxResults: int, parseComponents: bool) returns (r: Result<seq<Address>, ParseError>)
    ensures r.Success? <==> Interpret(root, maxResults, parseComponents).Success?
    ensures r.Success? ==> Values(r.value) == Interpret(root, maxResults, parseComponents).value
    ensures r.Success? ==> forall k :: 0 <= k < |r.value| ==> fresh(r.value[k])
    ensures r.Failure? ==> r.error == Interpret(root, maxResults, parseComponents).error
  {
    if !root.JObject? {
      return Failure(JsonError(RootNotObject));
    }
    var o := root.members;
    if "status" !in o {
      return Failure(JsonError(NoStatusField));
    }
    var text := GetString(o, "status");
    if text.Failure? {
      return Failure(JsonError(text.error));
    }
    var status := FromString(Some(text.value));
    match status
    case OK =>
      if "results" in o {
        r := ParseResults(maxResults, parseComponents, o);
      } else {
        r := Success([]);
      }
    case ZERO_RESULTS =>
      r := Success([]);
    case _ =>
      var e := GeocoderException.ForStatus(status);
      if "error_message" in o {
        var message := GetString(o, "error_message");
        if message.Success? {
          e.SetErrorMessage(Some(message.value));
        }
      }
      r := Failure(Raised(e.Value()));
  }

  // ---------------------------------------------------------------------------
  // What parseJson promises

  /**
   * The status dispatch: a missing status field is an error; ZERO_RESULTS, and OK
   * without results, give no addresses; any other status is raised with the
   * response's error_message.
   */
  lemma StatusDispatch(root: Json, maxResults: int, parseComponents: bool)
    requires root.JObject?
    ensures "status" !in root.members ==> Interpret(root, maxResults, parseComponents) == Failure(JsonError(NoStatusField))
    ensures "status" in root.members && root.members["status"].JString? ==>
      var o := root.members;
      var s := FromString(Some(o["status"].s));
      var r := Interpret(root, maxResults, parseComponents);
      && (s == ZERO_RESULTS ==> r == Success([]))
      && (s == OK && "results" !in o ==> r == Success([]))
      && (s != OK && s != ZERO_RESULTS ==> r == Failure(Raised(ErrorValue(Some(s), ResponseMessage(o), None))))
  {
  }

  /** Status text is matched with its letter case: "ok" is an UNKNOWN_ERROR, raised. */
  lemma LowerCaseStatusIsAnError(maxResults: int, parseComponents: bool)
    ensures Interpret(JObject(map["status" := JString("ok")]), maxResults, parseComponents)
         == Failure(Raised(ErrorValue(Some(UNKNOWN_ERROR), None, None)))
  {
    var text := "ok";
    assert text != "OK" && text != "ZERO_RESULTS" && text != "OVER_QUERY_LIMIT";
    assert !IsStatusName(text) by {
      forall s: Status ensures Name(s) != text {
        assert Name(s)[0] != 'o';
      }
    }
  }

  /** An OK response with results succeeds exactly when the count is not negative and each of the first items parses. */
  lemma {:induction false} ResultsSucceed(o: Members, maxResults: int, parseComponents: bool)
    requires "results" in o && o["results"].JArray?
    ensures var items := o["results"].items; var count := ResultCount(|items|, maxResults);
      InterpretResults(o, maxResults, parseComponents).Success?
      <==> (count >= 0 && forall k :: 0 <= k < count ==> InterpretResult(items, k, parseComponents).Success?)
  {
    var items := o["results"].items;
    var count := ResultCount(|items|, maxResults);
    if count >= 0 {
      InterpretFromItems(items, count, parseComponents, 0, []);
    }
  }

  /**
   * A successful OK response gives min(maxResults, number of results) addresses,
   * the i-th built from the i-th result: a first-N prefix in array order.
   */
  lemma {:induction false} FirstResultsInOrder(root: Json, maxResults: int, parseComponents: bool)
    requires root.JObject? && "status" in root.members && root.members["status"] == JString("OK")
    requires "results" in root.members && Interpret(root, maxResults, parseComponents).Success?
    ensures root.members["results"].JArray?
    ensures var items := root.members["results"].items; var r := Interpret(root, maxResults, parseComponents).value;
      && 0 <= maxResults
      && |r| == (if |items| < maxResults then |items| else maxResults)
      && forall i :: 0 <= i < |r| ==> InterpretResult(items, i, parseComponents) == Success(r[i])
  {
    var o := root.members;
    FromNameRoundTrip(OK);
    assert Interpret(root, maxResults, parseComponents) == InterpretResults(o, maxResults, parseComponents);
    var items := o["results"].items;
    var count := ResultCount(|items|, maxResults);
    InterpretFromItems(items, count, parseComponents, 0, []);
  }

  /** A result whose geometry has a location without both coordinates aborts the whole parse. */
  lemma IncompleteLocationAborts(root: Json, maxResults: int, parseComponents: bool, i: nat)
    requires root.JObject? && "status" in root.members && root.members["status"] == JString("OK")
    requires "results" in root.members && root.members["results"].JArray?
    requires var items := root.members["results"].items;
      i < |items| && i < maxResults && items[i].JObject? && "geometry" in items[i].members
    requires var g := root.members["results"].items[i].members["geometry"];
      g.JObject? && "location" in g.members && Coordinates(g.members["location"]).None?
    ensures Interpret(root, maxResults, parseComponents).Failure?
  {
    var items := root.members["results"].items;
    var result := items[i].members;
    if Interpret(root, maxResults, parseComponents).Success? {
      FirstResultsInOrder(root, maxResults, parseComponents);
      assert InterpretResult(items, i, parseComponents).Success?;
      var _ := Placed(items, i, parseComponents);
      GeometryCopied(result, CopyText(result, "formatted_address", FormattedAddress, Blank).value);
      assert false;
    }
  }

  /** The value of a successful one-result parse, and the state before its components. */
  lemma Placed(items: seq<Json>, i: nat, parseComponents: bool) returns (placed: AddressValue)
    requires i < |items| && InterpretResult(items, i, parseComponents).Success?
    ensures items[i].JObject?
    ensures var result := items[i].members;
      && CopyText(result, "formatted_address", FormattedAddress, Blank).Success?
      && ApplyGeometry(result, CopyText(result, "formatted_address", FormattedAddress, Blank).value) == Success(placed)
      && InterpretResult(items, i, parseComponents)
         == (if parseComponents then ApplyComponents(result, placed) else Success(placed))
  {
    var result := items[i].members;
    var named := CopyText(result, "formatted_address", FormattedAddress, Blank).value;
    placed := ApplyGeometry(result, named).value;
  }

  /**
   * What a result's formatted_address and geometry give: the formatted address
   * when present, the location type, and no address-component field at all.
   */
  lemma {:induction false} PlacedFields(items: seq<Json>, i: nat, parseComponents: bool) returns (placed: AddressValue)
    requires i < |items| && InterpretResult(items, i, parseComponents).Success?
    ensures items[i].JObject?
    ensures var result := items[i].members;
      && ApplyGeometry(result, CopyText(result, "formatted_address", FormattedAddress, Blank).value) == Success(placed)
      && InterpretResult(items, i, parseComponents)
         == (if parseComponents then ApplyComponents(result, placed) else Success(placed))
      && (forall f :: IsComponentField(f) ==> placed.Get(f) == None)
      && placed.Get(FormattedAddress)
         == if "formatted_address" in result then Some(result["formatted_address"].s) else None
  {
    placed := Placed(items, i, parseComponents);
    var result := items[i].members;
    var named := CopyText(result, "formatted_address", FormattedAddress, Blank).value;
    assert forall f :: f != FormattedAddress ==> named.Get(f) == None;
  }

  /**
   * With parseAddressComponents false no component-derived field is set, while
   * the formatted address and the geometry are the same as with it true.
   */
  lemma {:induction false} NoComponentsWhenDisabled(items: seq<Json>, i: nat)
    requires i < |items| && InterpretResult(items, i, false).Success?
    ensures var r := InterpretResult(items, i, false).value;
      && (forall f :: IsComponentField(f) ==> r.Get(f) == None)
      && (InterpretResult(items, i, true).Success? ==>
            var full := InterpretResult(items, i, true).value;
            && SameGeometry(r, full)
            && r.Get(FormattedAddress) == full.Get(FormattedAddress)
            && r.Get(LocationType) == full.Get(LocationType))
  {
    var placed := PlacedFields(items, i, false);
    if InterpretResult(items, i, true).Success? {
      var placed' := PlacedFields(items, i, true);
      ComponentsKeepTheRest(items[i].members, placed);
    }
  }

  /**
   * With parseAddressComponents true every component-derived field holds the
   * value of the last component that names it, or is absent when none does.
   */
  lemma {:induction false} ComponentFieldsFromLastWriter(items: seq<Json>, i: nat)
    requires i < |items| && InterpretResult(items, i, true).Success?
    ensures items[i].JObject?
    ensures var result := items[i].members; var r := InterpretResult(items, i, true).value;
      forall f :: IsComponentField(f) ==>
        r.Get(f) == if "address_components" in result then LastWritten(result["address_components"].items, f) else None
  {
    var placed := PlacedFields(items, i, true);
    var result := items[i].members;
    if "address_components" in result {
      var components := result["address_components"].items;
      assert ApplyComponents(result, placed) == FoldComponents(components, 0, placed);
      LastWriteWins(components, placed);
    }
  }

  /** A viewport or bounds box lacking one of its corner keys leaves that field absent. */
  lemma {:induction false} HalfBoxIgnored(items: seq<Json>, i: nat, parseComponents: bool, key: string)
    requires i < |items| && InterpretResult(items, i, parseComponents).Success?
    requires key == "viewport" || key == "bounds"
    requires items[i].JObject? && "geometry" in items[i].members && items[i].members["geometry"].JObject?
    requires var g := items[i].members["geometry"].members;
      key in g && g[key].JObject? && !HasCorners(g[key].members)
    ensures var r := InterpretResult(items, i, parseComponents).value;
      if key == "viewport" then r.viewport == None else r.bounds == None
  {
    var placed := PlacedFields(items, i, parseComponents);
    var result := items[i].members;
    var named := CopyText(result, "formatted_address", FormattedAddress, Blank).value;
    GeometryCopied(result, named);
    if parseComponents {
      ComponentsKeepTheRest(result, placed);
    }
  }
}
