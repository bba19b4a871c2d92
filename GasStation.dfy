/**
 * The station record as decoded from the fuel-price service, with its
 * computed properties: coordinates, full address and the formatted prices
 * selected by fuel type.
 */
module GasStations {
  import opened Wrappers
  import opened Text

  /** The fuel types the app shows, in declaration order. */
  datatype FuelType = DieselA | DieselPremium | Gasoline95E5 | Gasoline95E5Premium | Gasoline98E5 | Lpg | Cng | Lng

  /** `FuelType.allCases`. */
  const AllFuelTypes: seq<FuelType> :=
    [DieselA, DieselPremium, Gasoline95E5, Gasoline95E5Premium, Gasoline98E5, Lpg, Cng, Lng]

  /** `allCases` holds every case exactly once. */
  lemma AllFuelTypesOnce()
    ensures forall f: FuelType :: f in AllFuelTypes
    ensures forall i, j :: 0 <= i < j < |AllFuelTypes| ==> AllFuelTypes[i] != AllFuelTypes[j]
  {
    forall f: FuelType ensures f in AllFuelTypes {
      match f
      case DieselA => assert AllFuelTypes[0] == f;
      case DieselPremium => assert AllFuelTypes[1] == f;
      case Gasoline95E5 => assert AllFuelTypes[2] == f;
      case Gasoline95E5Premium => assert AllFuelTypes[3] == f;
      case Gasoline98E5 => assert AllFuelTypes[4] == f;
      case Lpg => assert AllFuelTypes[5] == f;
      case Cng => assert AllFuelTypes[6] == f;
      case Lng => assert AllFuelTypes[7] == f;
    }
  }

  /** The enum's raw value, the label shown next to a price. */
  function RawValue(f: FuelType): string {
    match f
    case DieselA => "Gasóleo A"
    case DieselPremium => "Gasóleo Premium"
    case Gasoline95E5 => "Gasolina 95 E5"
    case Gasoline95E5Premium => "Gasolina 95 E5 Premium"
    case Gasoline98E5 => "Gasolina 98 E5"
    case Lpg => "GLP"
    case Cng => "GNC"
    case Lng => "GNL"
  }

  /** No two fuel types share a label. */
  lemma RawValuesDistinct(f: FuelType, g: FuelType)
    ensures RawValue(f) == RawValue(g) ==> f == g
  {
  }

  /** `Double(String)`: a partial decimal parser, left abstract. */
  type Parser = string -> Option<real>

  datatype Coordinate = Coordinate(latitude: real, longitude: real)

  /**
   * One price-list entry. Coordinates and prices arrive as the service's
   * decimal-comma strings; a missing price is `None`. `id` is the UUID each
   * decoded value receives.
   */
  datatype GasStation = GasStation(
    id: nat,
    postalCode: string,
    address: string,
    schedule: string,
    latitude: string,
    location: string,
    longitude: string,
    margin: string,
    municipality: string,
    biodieselPrice: Option<string>,
    bioethanolPrice: Option<string>,
    cngPrice: Option<string>,
    lngPrice: Option<string>,
    lpgPrice: Option<string>,
    dieselAPrice: Option<string>,
    dieselBPrice: Option<string>,
    dieselPremiumPrice: Option<string>,
    gasoline95E5Price: Option<string>,
    gasoline95E5PremiumPrice: Option<string>,
    gasoline98E5Price: Option<string>)

  /** A decimal-comma string rewritten with a decimal point. */
  function DecimalPoint(s: string): string {
    ReplaceChar(s, ',', '.')
  }

  /** `coordinates`: both values parse after `,` becomes `.`, or there is no coordinate at all. */
  function Coordinates(s: GasStation, parse: Parser): (r: Option<Coordinate>)
    ensures r.Some? <==> parse(DecimalPoint(s.latitude)).Some? && parse(DecimalPoint(s.longitude)).Some?
    ensures r.Some? ==>
      parse(DecimalPoint(s.latitude)) == Some(r.value.latitude) && parse(DecimalPoint(s.longitude)) == Some(r.value.longitude)
  {
    match parse(DecimalPoint(s.latitude))
    case None => None
    case Some(lat) =>
      match parse(DecimalPoint(s.longitude))
      case None => None
      case Some(lon) => Some(Coordinate(lat, lon))
  }

  /** `fullAddress`: "address, location, municipality postalCode". */
  function FullAddress(s: GasStation): (r: string)
    ensures |r| == |s.address| + |s.location| + |s.municipality| + |s.postalCode| + 5
    ensures IsPrefix(s.address + ", " + s.location + ", ", r)
    ensures r[|r| - |s.postalCode|..] == s.postalCode
    ensures r[|r| - |s.postalCode| - 1 - |s.municipality|..|r| - |s.postalCode| - 1] == s.municipality
    ensures r[|r| - |s.postalCode| - 1] == ' '
  {
    s.address + ", " + s.location + ", " + s.municipality + " " + s.postalCode
  }

  /**
   * `formatPrice`: "N/A" for a missing or empty price, otherwise the price
   * with decimal point and a trailing euro sign.
   */
  function FormatPrice(price: Option<string>): (r: string)
    ensures r != []
    ensures r == "N/A" <==> price.None? || price.value == []
    ensures r != "N/A" ==> r == DecimalPoint(price.value) + "€"
  {
    if price.None? || price.value == [] then "N/A"
    else
      var r := DecimalPoint(price.value) + "€";
      assert r[|r| - 1] == '€';
      r
  }

  /** A formatted price ends in `€` and holds no comma. */
  lemma FormatPriceShape(price: Option<string>)
    requires FormatPrice(price) != "N/A"
    ensures FormatPrice(price)[|FormatPrice(price)| - 1] == '€'
    ensures ',' !in FormatPrice(price)
  {
    var r := FormatPrice(price);
    assert r == DecimalPoint(price.value) + "€";
  }

  /**
   * Round trip relied on by the price statistics: removing the euro sign
   * from a formatted price gives back the raw price with a decimal point.
   */
  lemma FormatPriceRoundTrip(raw: string)
    requires raw != []
    requires '€' !in raw
    ensures RemoveChar(FormatPrice(Some(raw)), '€') == DecimalPoint(raw)
  {
    RemoveCharAppend(DecimalPoint(raw), "€", '€');
    assert RemoveChar("€", '€') == [];
    assert '€' !in DecimalPoint(raw) by {
      assert forall i :: 0 <= i < |raw| ==> DecimalPoint(raw)[i] != '€';
    }
  }

  /** The eight `formatted…Price` properties: "N/A" exactly when that field is missing or empty. */
  function FormattedDieselAPrice(s: GasStation): (r: string)
    ensures r == "N/A" <==> s.dieselAPrice.None? || s.dieselAPrice.value == []
  {
    FormatPrice(s.dieselAPrice)
  }

  function FormattedDieselPremiumPrice(s: GasStation): (r: string)
    ensures r == "N/A" <==> s.dieselPremiumPrice.None? || s.dieselPremiumPrice.value == []
  {
    FormatPrice(s.dieselPremiumPrice)
  }

  function FormattedGasoline95E5Price(s: GasStation): (r: string)
    ensures r == "N/A" <==> s.gasoline95E5Price.None? || s.gasoline95E5Price.value == []
  {
    FormatPrice(s.gasoline95E5Price)
  }

  function FormattedGasoline95E5PremiumPrice(s: GasStation): (r: string)
    ensures r == "N/A" <==> s.gasoline95E5PremiumPrice.None? || s.gasoline95E5PremiumPrice.value == []
  {
    FormatPrice(s.gasoline95E5PremiumPrice)
  }

  function FormattedGasoline98E5Price(s: GasStation): (r: string)
    ensures r == "N/A" <==> s.gasoline98E5Price.None? || s.gasoline98E5Price.value == []
  {
    FormatPrice(s.gasoline98E5Price)
  }

  function FormattedLPGPrice(s: GasStation): (r: string)
    ensures r == "N/A" <==> s.lpgPrice.None? || s.lpgPrice.value == []
  {
    FormatPrice(s.lpgPrice)
  }

  function FormattedCNGPrice(s: GasStation): (r: string)
    ensures r == "N/A" <==> s.cngPrice.None? || s.cngPrice.value == []
  {
    FormatPrice(s.cngPrice)
  }

  function FormattedLNGPrice(s: GasStation): (r: string)
    ensures r == "N/A" <==> s.lngPrice.None? || s.lngPrice.value == []
  {
    FormatPrice(s.lngPrice)
  }

  /** The decoded field that carries the price of `f` (its `CodingKeys` entry). */
  function PriceField(s: GasStation, f: FuelType): Option<string> {
    match f
    case DieselA => s.dieselAPrice
    case DieselPremium => s.dieselPremiumPrice
    case Gasoline95E5 => s.gasoline95E5Price
    case Gasoline95E5Premium => s.gasoline95E5PremiumPrice
    case Gasoline98E5 => s.gasoline98E5Price
    case Lpg => s.lpgPrice
    case Cng => s.cngPrice
    case Lng => s.lngPrice
  }

  /** `s` with the field of `f` replaced by `p`. */
  function WithPriceField(s: GasStation, f: FuelType, p: Option<string>): GasStation {
    match f
    case DieselA => s.(dieselAPrice := p)
    case DieselPremium => s.(dieselPremiumPrice := p)
    case Gasoline95E5 => s.(gasoline95E5Price := p)
    case Gasoline95E5Premium => s.(gasoline95E5PremiumPrice := p)
    case Gasoline98E5 => s.(gasoline98E5Price := p)
    case Lpg => s.(lpgPrice := p)
    case Cng => s.(cngPrice := p)
    case Lng => s.(lngPrice := p)
  }

  /** `getPrice(for:)`: total over the fuel types, never empty, "N/A" exactly when not sold. */
  function GetPrice(s: GasStation, f: FuelType): (r: string)
    ensures r == FormatPrice(PriceField(s, f))
    ensures r != []
    ensures r == "N/A" <==> PriceField(s, f).None? || PriceField(s, f).value == []
  {
    match f
    case DieselA => FormattedDieselAPrice(s)
    case DieselPremium => FormattedDieselPremiumPrice(s)
    case Gasoline95E5 => FormattedGasoline95E5Price(s)
    case Gasoline95E5Premium => FormattedGasoline95E5PremiumPrice(s)
    case Gasoline98E5 => FormattedGasoline98E5Price(s)
    case Lpg => FormattedLPGPrice(s)
    case Cng => FormattedCNGPrice(s)
    case Lng => FormattedLNGPrice(s)
  }

  /** Each fuel type reads its own field and no other. */
  lemma GetPriceReadsOwnField(s: GasStation, f: FuelType, p: Option<string>, g: FuelType)
    ensures GetPrice(WithPriceField(s, f, p), g) == if g == f then FormatPrice(p) else GetPrice(s, g)
  {
  }

  /** Biodiesel, bioethanol and diesel B prices are decoded but never reach `getPrice`. */
  lemma GetPriceIgnoresUnlistedFields(s: GasStation, biodiesel: Option<string>, bioethanol: Option<string>, dieselB: Option<string>, f: FuelType)
    ensures GetPrice(s.(biodieselPrice := biodiesel, bioethanolPrice := bioethanol, dieselBPrice := dieselB), f) == GetPrice(s, f)
  {
  }
}
