/**
 * The geocoding result record: 40 optional strings and three optional geometry
 * values, with the Parcel layout Address writes and reads.
 */
module AddressModel {
  import opened Wrappers
  import opened Parcels

  /** Address's string fields, one constructor per field. */
  datatype Field =
    | FormattedAddress
    | StreetAddress | Route | Intersection | Political | Country | CountryCode
    | AdministrativeAreaLevel1 | AdministrativeAreaLevel2 | AdministrativeAreaLevel3
    | AdministrativeAreaLevel4 | AdministrativeAreaLevel5
    | ColloquialArea | Locality | Ward
    | SubLocality | SubLocalityLevel1 | SubLocalityLevel2 | SubLocalityLevel3
    | SubLocalityLevel4 | SubLocalityLevel5
    | Neighborhood | Premise | SubPremise | PostalCode | NaturalFeature | Airport | Park
    | PointOfInterest | Floor | Establishment | Parking | PostBox | PostTown | Room
    | StreetNumber | BusStation | TrainStation | TransitStation
    | LocationType

  /** The fields that only address components fill (everything but the two geometry-side strings). */
  predicate IsComponentField(f: Field) {
    f != FormattedAddress && f != LocationType
  }

  /** The order in which writeToParcel writes the string fields. */
  const WriteOrder: seq<Field> := [
    FormattedAddress, StreetAddress, Route, Intersection, Political, Country, CountryCode,
    AdministrativeAreaLevel1, AdministrativeAreaLevel2, AdministrativeAreaLevel3,
    AdministrativeAreaLevel4, AdministrativeAreaLevel5, ColloquialArea, Locality, Ward,
    SubLocality, SubLocalityLevel1, SubLocalityLevel2, SubLocalityLevel3,
    SubLocalityLevel4, SubLocalityLevel5, Neighborhood, Premise, SubPremise, PostalCode,
    NaturalFeature, Airport, Park, PointOfInterest, Floor, Establishment, Parking, PostBox,
    PostTown, Room, StreetNumber, BusStation, TrainStation, TransitStation, LocationType
  ]

  /** The order in which the Address(Parcel) constructor reads the string fields. */
  const ReadOrder: seq<Field> := [
    FormattedAddress,
    StreetAddress, Route, Intersection, Political, Country, CountryCode,
    AdministrativeAreaLevel1, AdministrativeAreaLevel2, AdministrativeAreaLevel3,
    AdministrativeAreaLevel4, AdministrativeAreaLevel5, ColloquialArea, Locality, Ward,
    SubLocality, SubLocalityLevel1, SubLocalityLevel2, SubLocalityLevel3,
    SubLocalityLevel4, SubLocalityLevel5, Neighborhood, Premise, SubPremise, PostalCode,
    NaturalFeature, Airport, Park, PointOfInterest,
    Floor, Establishment, Parking, PostBox, PostTown, Room, StreetNumber,
    BusStation, TrainStation, TransitStation,
    LocationType
  ]

  datatype Location = Location(latitude: real, longitude: real)

  /** Recommended display framing; corners are absent only in a Viewport read from a parcel that wrote null. */
  datatype Viewport = Viewport(southwest: Option<Location>, northeast: Option<Location>)

  /** Box that fully contains the result. */
  datatype Bounds = Bounds(southwest: Option<Location>, northeast: Option<Location>)

  /** The abstract state of an Address: a string field is absent (Java null) when not in `text`. */
  datatype AddressValue = AddressValue(
    text: map<Field, string>,
    location: Option<Location>,
    viewport: Option<Viewport>,
    bounds: Option<Bounds>)
  {
    function Get(f: Field): Option<string> {
      if f in text then Some(text[f]) else None
    }

    /** The state after the setter of field `f` was called with `v` (None is null). */
    function WithText(f: Field, v: Option<string>): (r: AddressValue)
      ensures r.Get(f) == v
      ensures forall g :: g != f ==> r.Get(g) == Get(g)
      ensures r.location == location && r.viewport == viewport && r.bounds == bounds
    {
      match v
      case Some(s) => this.(text := text[f := s])
      case None => this.(text := text - {f})
    }
  }

  /** A freshly constructed Address. */
  const Blank := AddressValue(map[], None, None, None)

  /** Two states that agree on every getter are the same state. */
  lemma SameGettersSameValue(a: AddressValue, b: AddressValue)
    requires forall f :: a.Get(f) == b.Get(f)
    requires a.location == b.location && a.viewport == b.viewport && a.bounds == b.bounds
    ensures a == b
  {
    forall f | true
      ensures f in a.text <==> f in b.text
      ensures f in a.text ==> a.text[f] == b.text[f]
    {
      assert a.Get(f) == b.Get(f);
    }
  }

  // ---------------------------------------------------------------------------
  // Parcel layout

  const LocationClass := "com.doctoror.geocoder.Address$Location"
  const ViewportClass := "com.doctoror.geocoder.Address$Viewport"
  const BoundsClass := "com.doctoror.geocoder.Address$Bounds"

  /** Location.writeToParcel: latitude, then longitude. */
  function LocationTokens(l: Location): seq<Token> {
    [DoubleToken(l.latitude), DoubleToken(l.longitude)]
  }

  /** The Location(Parcel) constructor. */
  function DecodeLocation(ts: seq<Token>): (Location, seq<Token>) {
    var (lat, r1) := DecodeDouble(ts);
    var (lng, r2) := DecodeDouble(r1);
    (Location(lat, lng), r2)
  }

  /** writeParcelable(location): the class name (null for a null reference), then the payload. */
  function ParcelableLocationTokens(l: Option<Location>): seq<Token> {
    match l
    case None => [StringToken(None)]
    case Some(x) => [StringToken(Some(LocationClass))] + LocationTokens(x)
  }

  /** readParcelable for a Location; a null or foreign class name reads as null. */
  function DecodeParcelableLocation(ts: seq<Token>): (Option<Location>, seq<Token>) {
    var (name, r1) := DecodeString(ts);
    if name == Some(LocationClass) then
      var (l, r2) := DecodeLocation(r1);
      (Some(l), r2)
    else (None, r1)
  }

  /** Viewport and Bounds both write southwest, then northeast, each as a parcelable. */
  function CornerTokens(southwest: Option<Location>, northeast: Option<Location>): seq<Token> {
    ParcelableLocationTokens(southwest) + ParcelableLocationTokens(northeast)
  }

  function DecodeCorners(ts: seq<Token>): (Option<Location>, Option<Location>, seq<Token>) {
    var (sw, r1) := DecodeParcelableLocation(ts);
    var (ne, r2) := DecodeParcelableLocation(r1);
    (sw, ne, r2)
  }

  function ParcelableViewportTokens(v: Option<Viewport>): seq<Token> {
    match v
    case None => [StringToken(None)]
    case Some(x) => [StringToken(Some(ViewportClass))] + CornerTokens(x.southwest, x.northeast)
  }

  function DecodeParcelableViewport(ts: seq<Token>): (Option<Viewport>, seq<Token>) {
    var (name, r1) := DecodeString(ts);
    if name == Some(ViewportClass) then
      var (sw, ne, r2) := DecodeCorners(r1);
      (Some(Viewport(sw, ne)), r2)
    else (None, r1)
  }

  function ParcelableBoundsTokens(b: Option<Bounds>): seq<Token> {
    match b
    case None => [StringToken(None)]
    case Some(x) => [StringToken(Some(BoundsClass))] + CornerTokens(x.southwest, x.northeast)
  }

  function DecodeParcelableBounds(ts: seq<Token>): (Option<Bounds>, seq<Token>) {
    var (name, r1) := DecodeString(ts);
    if name == Some(BoundsClass) then
      var (sw, ne, r2) := DecodeCorners(r1);
      (Some(Bounds(sw, ne)), r2)
    else (None, r1)
  }

  function TextTokens(v: AddressValue, order: seq<Field>): (r: seq<Token>)
    ensures |r| == |order|
  {
    if order == [] then [] else [StringToken(v.Get(order[0]))] + TextTokens(v, order[1..])
  }

  function DecodeTexts(order: seq<Field>, ts: seq<Token>, acc: AddressValue): (AddressValue, seq<Token>) {
    if order == [] then (acc, ts)
    else
      var (s, rest) := DecodeString(ts);
      DecodeTexts(order[1..], rest, acc.WithText(order[0], s))
  }

  /** The geometry tail of writeToParcel: location, viewport, bounds, each as a parcelable. */
  function GeometryTokens(v: AddressValue): seq<Token> {
    ParcelableLocationTokens(v.location)
    + ParcelableViewportTokens(v.viewport)
    + ParcelableBoundsTokens(v.bounds)
  }

  /** Reads the geometry tail into `acc`. */
  function DecodeGeometry(ts: seq<Token>, acc: AddressValue): (AddressValue, seq<Token>) {
    var (l, r1) := DecodeParcelableLocation(ts);
    var (vp, r2) := DecodeParcelableViewport(r1);
    var (b, r3) := DecodeParcelableBounds(r2);
    (acc.(location := l, viewport := vp, bounds := b), r3)
  }

  /** Address.writeToParcel: the 40 strings, then the geometry. */
  function AddressTokens(v: AddressValue): seq<Token> {
    TextTokens(v, WriteOrder) + GeometryTokens(v)
  }

  /** The Address(Parcel) constructor, starting from a blank Address. */
  function DecodeAddress(ts: seq<Token>): (AddressValue, seq<Token>) {
    var (t, rest) := DecodeTexts(ReadOrder, ts, Blank);
    DecodeGeometry(rest, t)
  }

  // ---------------------------------------------------------------------------
  // Round trips

  /** Location Parcel round trip: latitude and longitude come back. */
  lemma LocationRoundTrip(l: Location, rest: seq<Token>)
    ensures DecodeLocation(LocationTokens(l) + rest) == (l, rest)
  {
    var ts := LocationTokens(l) + rest;
    assert ts[1..] == [DoubleToken(l.longitude)] + rest;
    assert ts[1..][1..] == rest;
  }

  /** A Location written with writeParcelable, or a null one, reads back as itself. */
  lemma ParcelableLocationRoundTrip(l: Option<Location>, rest: seq<Token>)
    ensures DecodeParcelableLocation(ParcelableLocationTokens(l) + rest) == (l, rest)
  {
    var ts := ParcelableLocationTokens(l) + rest;
    match l
    case None =>
      assert ts[1..] == rest;
    case Some(x) =>
      assert ts[1..] == LocationTokens(x) + rest;
      LocationRoundTrip(x, rest);
  }

  lemma CornersRoundTrip(sw: Option<Location>, ne: Option<Location>, rest: seq<Token>)
    ensures DecodeCorners(CornerTokens(sw, ne) + rest) == (sw, ne, rest)
  {
    assert CornerTokens(sw, ne) + rest
      == ParcelableLocationTokens(sw) + (ParcelableLocationTokens(ne) + rest);
    ParcelableLocationRoundTrip(sw, ParcelableLocationTokens(ne) + rest);
    ParcelableLocationRoundTrip(ne, rest);
  }

  /** Viewport Parcel round trip: both corners come back, absent ones included. */
  lemma ViewportRoundTrip(v: Option<Viewport>, rest: seq<Token>)
    ensures DecodeParcelableViewport(ParcelableViewportTokens(v) + rest) == (v, rest)
  {
    var ts := ParcelableViewportTokens(v) + rest;
    match v
    case None =>
      assert ts[1..] == rest;
    case Some(x) =>
      assert ts[1..] == CornerTokens(x.southwest, x.northeast) + rest;
      CornersRoundTrip(x.southwest, x.northeast, rest);
  }

  /** Bounds Parcel round trip: both corners come back, absent ones included. */
  lemma BoundsRoundTrip(b: Option<Bounds>, rest: seq<Token>)
    ensures DecodeParcelableBounds(ParcelableBoundsTokens(b) + rest) == (b, rest)
  {
    var ts := ParcelableBoundsTokens(b) + rest;
    match b
    case None =>
      assert ts[1..] == rest;
    case Some(x) =>
      assert ts[1..] == CornerTokens(x.southwest, x.northeast) + rest;
      CornersRoundTrip(x.southwest, x.northeast, rest);
  }

  /**
   * Reading the strings of `order` back: each field named in `order` takes the written
   * value; every other part of the accumulator stays as it was.
   */
  lemma {:induction false} TextsRoundTrip(v: AddressValue, order: seq<Field>, rest: seq<Token>, acc: AddressValue)
    ensures var (d, r) := DecodeTexts(order, TextTokens(v, order) + rest, acc);
      && r == rest
      && (forall f :: d.Get(f) == if f in order then v.Get(f) else acc.Get(f))
      && d.location == acc.location && d.viewport == acc.viewport && d.bounds == acc.bounds
  {
    if order != [] {
      var ts := TextTokens(v, order) + rest;
      assert ts[0] == StringToken(v.Get(order[0]));
      assert ts[1..] == TextTokens(v, order[1..]) + rest;
      var acc' := acc.WithText(order[0], v.Get(order[0]));
      TextsRoundTrip(v, order[1..], rest, acc');
      forall f
        ensures f in order <==> (f in order[1..] || f == order[0])
      {
        if f in order && f != order[0] {
          var k :| 0 <= k < |order| && order[k] == f;
          assert order[1..][k - 1] == f;
        }
      }
    }
  }

  /** Reading back an order that names every field restores every string field. */
  lemma TextPartRoundTrip(v: AddressValue, order: seq<Field>, tail: seq<Token>)
    requires forall f :: f in order
    ensures DecodeTexts(order, TextTokens(v, order) + tail, Blank) == (Blank.(text := v.text), tail)
  {
    TextsRoundTrip(v, order, tail, Blank);
    var (t, _) := DecodeTexts(order, TextTokens(v, order) + tail, Blank);
    SameGettersSameValue(t, Blank.(text := v.text));
  }

  /** The Parcel order leaves no string field out. */
  lemma AllFieldsOrdered(f: Field)
    ensures f in WriteOrder
  {
  }

  /** Address(Parcel) reads the string fields in exactly the order writeToParcel writes them. */
  lemma ReadOrderIsWriteOrder()
    ensures ReadOrder == WriteOrder
  {
  }

  /** The 40 strings of an Address, read back by the constructor's reads from what writeToParcel wrote. */
  lemma TextFieldsRoundTrip(v: AddressValue, tail: seq<Token>)
    ensures DecodeTexts(ReadOrder, TextTokens(v, WriteOrder) + tail, Blank)
      == (Blank.(text := v.text), tail)
  {
    ReadOrderIsWriteOrder();
    forall f ensures f in WriteOrder {
      AllFieldsOrdered(f);
    }
    TextPartRoundTrip(v, WriteOrder, tail);
  }

  /** The geometry tail of an Address round trip. */
  lemma GeometryRoundTrip(v: AddressValue, rest: seq<Token>, acc: AddressValue)
    ensures DecodeGeometry(GeometryTokens(v) + rest, acc)
      == (acc.(location := v.location, viewport := v.viewport, bounds := v.bounds), rest)
  {
    var tl := ParcelableLocationTokens(v.location);
    var tv := ParcelableViewportTokens(v.viewport);
    var tb := ParcelableBoundsTokens(v.bounds);
    assert GeometryTokens(v) == tl + tv + tb;
    AppendThree(tl, tv, tb, rest);
    AppendTwo(tv, tb, rest);
    ParcelableLocationRoundTrip(v.location, tv + (tb + rest));
    ViewportRoundTrip(v.viewport, tb + rest);
    BoundsRoundTrip(v.bounds, rest);
  }

  lemma AddressTokensSplit(v: AddressValue, rest: seq<Token>)
    ensures AddressTokens(v) + rest == TextTokens(v, WriteOrder) + (GeometryTokens(v) + rest)
  {
  }

  /** Address Parcel round trip: what writeToParcel wrote, Address(Parcel) reads back unchanged. */
  lemma AddressRoundTrip(v: AddressValue, rest: seq<Token>)
    ensures DecodeAddress(AddressTokens(v) + rest) == (v, rest)
  {
    AddressTokensSplit(v, rest);
    TextFieldsRoundTrip(v, GeometryTokens(v) + rest);
    GeometryRoundTrip(v, rest, Blank.(text := v.text));
  }

  /** Writing the strings of `a` and then those of `b` is writing those of `a + b`. */
  lemma {:induction false} TextTokensAppend(v: AddressValue, a: seq<Field>, b: seq<Field>)
    ensures TextTokens(v, a + b) == TextTokens(v, a) + TextTokens(v, b)
  {
    if a != [] {
      assert (a + b)[0] == a[0];
      assert (a + b)[1..] == a[1..] + b;
      TextTokensAppend(v, a[1..], b);
      calc {
        TextTokens(v, a + b);
        [StringToken(v.Get(a[0]))] + TextTokens(v, a[1..] + b);
        [StringToken(v.Get(a[0]))] + (TextTokens(v, a[1..]) + TextTokens(v, b));
        ([StringToken(v.Get(a[0]))] + TextTokens(v, a[1..])) + TextTokens(v, b);
      }
    } else {
      assert a + b == b;
    }
  }

  lemma AppendTwo(s: seq<Token>, a: seq<Token>, b: seq<Token>)
    ensures s + a + b == s + (a + b)
  {
  }

  lemma AppendThree(s: seq<Token>, a: seq<Token>, b: seq<Token>, c: seq<Token>)
    ensures s + a + b + c == s + (a + b + c)
  {
  }

  // ---------------------------------------------------------------------------
  // The Parcel cursor operations of Location, Viewport and Bounds

  /** Location.writeToParcel. */
  method WriteLocation(p: Parcel, l: Location)
    requires p.Valid()
    modifies p
    ensures p.Valid() && p.position == old(p.position)
    ensures p.tokens == old(p.tokens) + LocationTokens(l)
  {
    p.WriteDouble(l.latitude);
    p.WriteDouble(l.longitude);
  }

  /** The Location(Parcel) constructor. */
  method ReadLocation(p: Parcel) returns (l: Location)
    requires p.Valid()
    modifies p
    ensures p.Valid() && p.tokens == old(p.tokens)
    ensures (l, p.Remaining()) == DecodeLocation(old(p.Remaining()))
  {
    var lat := p.ReadDouble();
    var lng := p.ReadDouble();
    l := Location(lat, lng);
  }

  /** Parcel.writeParcelable for a Location reference. */
  method WriteParcelableLocation(p: Parcel, l: Option<Location>)
    requires p.Valid()
    modifies p
    ensures p.Valid() && p.position == old(p.position)
    ensures p.tokens == old(p.tokens) + ParcelableLocationTokens(l)
  {
    match l
    case None =>
      p.WriteString(None);
    case Some(x) =>
      p.WriteString(Some(LocationClass));
      WriteLocation(p, x);
  }

  /** Parcel.readParcelable for a Location reference. */
  method ReadParcelableLocation(p: Parcel) returns (l: Option<Location>)
    requires p.Valid()
    modifies p
    ensures p.Valid() && p.tokens == old(p.tokens)
    ensures (l, p.Remaining()) == DecodeParcelableLocation(old(p.Remaining()))
  {
    var name := p.ReadString();
    if name == Some(LocationClass) {
      var x := ReadLocation(p);
      l := Some(x);
    } else {
      l := None;
    }
  }

  /** Viewport.writeToParcel and Bounds.writeToParcel: southwest, then northeast. */
  method WriteCorners(p: Parcel, southwest: Option<Location>, northeast: Option<Location>)
    requires p.Valid()
    modifies p
    ensures p.Valid() && p.position == old(p.position)
    ensures p.tokens == old(p.tokens) + CornerTokens(southwest, northeast)
  {
    WriteParcelableLocation(p, southwest);
    WriteParcelableLocation(p, northeast);
  }

  /** The Viewport(Parcel) and Bounds(Parcel) constructors. */
  method ReadCorners(p: Parcel) returns (southwest: Option<Location>, northeast: Option<Location>)
    requires p.Valid()
    modifies p
    ensures p.Valid() && p.tokens == old(p.tokens)
    ensures (southwest, northeast, p.Remaining()) == DecodeCorners(old(p.Remaining()))
  {
    southwest := ReadParcelableLocation(p);
    northeast := ReadParcelableLocation(p);
  }

  method WriteParcelableViewport(p: Parcel, v: Option<Viewport>)
    requires p.Valid()
    modifies p
    ensures p.Valid() && p.position == old(p.position)
    ensures p.tokens == old(p.tokens) + ParcelableViewportTokens(v)
  {
    match v
    case None =>
      p.WriteString(None);
    case Some(x) =>
      p.WriteString(Some(ViewportClass));
      WriteCorners(p, x.southwest, x.northeast);
  }

  method ReadParcelableViewport(p: Parcel) returns (v: Option<Viewport>)
    requires p.Valid()
    modifies p
    ensures p.Valid() && p.tokens == old(p.tokens)
    ensures (v, p.Remaining()) == DecodeParcelableViewport(old(p.Remaining()))
  {
    var name := p.ReadString();
    if name == Some(ViewportClass) {
      var sw, ne := ReadCorners(p);
      v := Some(Viewport(sw, ne));
    } else {
      v := None;
    }
  }

  method WriteParcelableBounds(p: Parcel, b: Option<Bounds>)
    requires p.Valid()
    modifies p
    ensures p.Valid() && p.position == old(p.position)
    ensures p.tokens == old(p.tokens) + ParcelableBoundsTokens(b)
  {
    match b
    case None =>
      p.WriteString(None);
    case Some(x) =>
      p.WriteString(Some(BoundsClass));
      WriteCorners(p, x.southwest, x.northeast);
  }

  method ReadParcelableBounds(p: Parcel) returns (b: Option<Bounds>)
    requires p.Valid()
    modifies p
    ensures p.Valid() && p.tokens == old(p.tokens)
    ensures (b, p.Remaining()) == DecodeParcelableBounds(old(p.Remaining()))
  {
    var name := p.ReadString();
    if name == Some(BoundsClass) {
      var sw, ne := ReadCorners(p);
      b := Some(Bounds(sw, ne));
    } else {
      b := None;
    }
  }

  // ---------------------------------------------------------------------------
  // The mutable record

  class Address {
    var text: map<Field, string>
    var location: Option<Location>
    var viewport: Option<Viewport>
    var bounds: Option<Bounds>

    function Value(): AddressValue
      reads this
    {
      AddressValue(text, location, viewport, bounds)
    }

    /** A new Address has every field absent. */
    constructor ()
      ensures Value() == Blank
    {
      text, location, viewport, bounds := map[], None, None, None;
    }

    /** The getter of a string field; None is a null result. */
    function Get(f: Field): Option<string>
      reads this
    {
      Value().Get(f)
    }

    /** The setter of string field `f`: that field becomes `v`, nothing else changes. */
    method SetText(f: Field, v: Option<string>)
      modifies this
      ensures Value() == old(Value()).WithText(f, v)
      ensures Get(f) == v && forall g :: g != f ==> Get(g) == old(Get(g))
    {
      match v
      case Some(s) => text := text[f := s];
      case None => text := text - {f};
    }

    method SetLocation(l: Option<Location>)
      modifies this
      ensures Value() == old(Value()).(location := l)
    {
      location := l;
    }

    method SetViewport(v: Option<Viewport>)
      modifies this
      ensures Value() == old(Value()).(viewport := v)
    {
      viewport := v;
    }

    method SetBounds(b: Option<Bounds>)
      modifies this
      ensures Value() == old(Value()).(bounds := b)
    {
      bounds := b;
    }

    /** The writeString calls of writeToParcel, for the fields of `order` in turn. */
    method WriteTexts(p: Parcel, order: seq<Field>)
      requires p.Valid()
      modifies p
      ensures p.Valid() && p.position == old(p.position)
      ensures p.tokens == old(p.tokens) + TextTokens(Value(), order)
    {
      var i := 0;
      while i < |order|
        invariant 0 <= i <= |order|
        invariant p.Valid() && p.position == old(p.position)
        invariant p.tokens == old(p.tokens) + TextTokens(Value(), order[..i])
      {
        p.WriteString(Get(order[i]));
        TextTokensAppend(Value(), order[..i], [order[i]]);
        assert order[..i + 1] == order[..i] + [order[i]];
        i := i + 1;
      }
      assert order[..i] == order;
    }

    /** writeToParcel: the 40 strings in the Parcel order, then location, viewport, bounds. */
    method WriteToParcel(p: Parcel)
      requires p.Valid()
      modifies p
      ensures p.Valid() && p.position == old(p.position)
      ensures p.tokens == old(p.tokens) + AddressTokens(Value())
    {
      ghost var start := p.tokens;
      WriteTexts(p, WriteOrder);
      WriteGeometry(p);
      AppendTwo(start, TextTokens(Value(), WriteOrder), GeometryTokens(Value()));
      AddressTokensSplit(Value(), []);
      assert AddressTokens(Value()) + [] == AddressTokens(Value());
    }

    /** The three writeParcelable calls that end writeToParcel. */
    method WriteGeometry(p: Parcel)
      requires p.Valid()
      modifies p
      ensures p.Valid() && p.position == old(p.position)
      ensures p.tokens == old(p.tokens) + GeometryTokens(Value())
    {
      ghost var start := p.tokens;
      WriteParcelableLocation(p, location);
      WriteParcelableViewport(p, viewport);
      WriteParcelableBounds(p, bounds);
      AppendThree(start, ParcelableLocationTokens(location), ParcelableViewportTokens(viewport),
        ParcelableBoundsTokens(bounds));
    }

    /** The Address(Parcel) constructor: reads back in the order writeToParcel wrote. */
    constructor FromParcel(p: Parcel)
      requires p.Valid()
      modifies p
      ensures p.Valid() && p.tokens == old(p.tokens)
      ensures (Value(), p.Remaining()) == DecodeAddress(old(p.Remaining()))
    {
      ghost var ts := p.Remaining();
      var t := ReadTexts(p, ReadOrder);
      ghost var rest := p.Remaining();
      assert DecodeAddress(ts) == DecodeGeometry(rest, t);
      var v := ReadGeometry(p, t);
      text, location, viewport, bounds := v.text, v.location, v.viewport, v.bounds;
    }
  }

  /** The three readParcelable calls that end Address(Parcel), into `acc`. */
  method ReadGeometry(p: Parcel, acc: AddressValue) returns (v: AddressValue)
    requires p.Valid()
    modifies p
    ensures p.Valid() && p.tokens == old(p.tokens)
    ensures (v, p.Remaining()) == DecodeGeometry(old(p.Remaining()), acc)
  {
    var l := ReadParcelableLocation(p);
    var vp := ReadParcelableViewport(p);
    var b := ReadParcelableBounds(p);
    v := acc.(location := l, viewport := vp, bounds := b);
  }

  /** The readString calls of Address(Parcel), for the fields of `order` in turn, into a blank Address. */
  method ReadTexts(p: Parcel, order: seq<Field>) returns (acc: AddressValue)
    requires p.Valid()
    modifies p
    ensures p.Valid() && p.tokens == old(p.tokens)
    ensures (acc, p.Remaining()) == DecodeTexts(order, old(p.Remaining()), Blank)
  {
    acc := Blank;
    var i := 0;
    while i < |order|
      invariant 0 <= i <= |order|
      invariant p.Valid() && p.tokens == old(p.tokens)
      invariant DecodeTexts(order[i..], p.Remaining(), acc) == DecodeTexts(order, old(p.Remaining()), Blank)
    {
      var s := p.ReadString();
      assert order[i..][1..] == order[i + 1..];
      acc := acc.WithText(order[i], s);
      i := i + 1;
    }
  }

  /** Writing an Address to a new Parcel and creating one from it yields an equal Address. */
  method ParcelRoundTrip(a: Address) returns (copy: Address)
    ensures fresh(copy)
    ensures copy.Value() == a.Value()
  {
    var p := new Parcel();
    a.WriteToParcel(p);
    assert p.Remaining() == AddressTokens(a.Value()) + [];
    AddressRoundTrip(a.Value(), []);
    copy := new Address.FromParcel(p);
  }
}
