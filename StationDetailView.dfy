/**
 * The pure decisions of the station detail screen: road-side label,
 * distance unit, which price rows are listed and what a "24H" schedule
 * switches on.
 */
module StationDetail {
  import opened Wrappers
  import opened Text
  import opened Sequences
  import opened GasStations
  import ViewModel

  /** `interpretMargin`: "D" is the right-hand side, "I" the left, anything else unspecified. */
  function InterpretMargin(margin: string): (r: string)
    ensures r == "Derecho" <==> margin == "D"
    ensures r == "Izquierdo" <==> margin == "I"
    ensures r == "No especificado" <==> margin != "D" && margin != "I"
  {
    if margin == "D" then "Derecho"
    else if margin == "I" then "Izquierdo"
    else "No especificado"
  }

  /** The value and unit `formatDistance` prints; the digits it rounds to are not modelled. */
  datatype DistanceText = Metres(metres: real) | Kilometres(kilometres: real)

  /** `formatDistance(meters:)`: metres below one kilometre, kilometres from there on. */
  function FormatDistance(meters: real): (r: DistanceText)
    ensures r.Metres? <==> meters < 1000.0
    ensures r.Metres? ==> r.metres == meters
    ensures r.Kilometres? ==> r.kilometres == meters / 1000.0 && r.kilometres >= 1.0
  {
    if meters < 1000.0 then Metres(meters) else Kilometres(meters / 1000.0)
  }

  /** The distance row of the location card: shown only with both a station coordinate and a user location. */
  function DistanceRow(s: GasStation, userLocation: Option<Coordinate>, parse: Parser, dist: ViewModel.Distance): (r: Option<DistanceText>)
    ensures r.Some? <==> userLocation.Some? && Coordinates(s, parse).Some?
    ensures r.Some? ==> r.value == FormatDistance(dist(userLocation.value, Coordinates(s, parse).value))
  {
    match (Coordinates(s, parse), userLocation)
    case (Some(c), Some(user)) => Some(FormatDistance(dist(user, c)))
    case _ => None
  }

  /** The fuel types of the prices card: those with a price, in declaration order. */
  function ListedFuelTypes(s: GasStation): (r: seq<FuelType>)
    ensures forall f :: f in r <==> GetPrice(s, f) != "N/A"
    ensures IsSubsequence(r, AllFuelTypes)
  {
    AllFuelTypesOnce();
    Filter(AllFuelTypes, (f: FuelType) => GetPrice(s, f) != "N/A")
  }

  /** A fuel type is listed exactly when the station has a non-empty price for it. */
  lemma ListedIffSold(s: GasStation, f: FuelType)
    ensures f in ListedFuelTypes(s) <==> PriceField(s, f).Some? && PriceField(s, f).value != []
  {
  }

  /** Every listed fuel type has a price, shown with a decimal point and a euro sign. */
  lemma ListedPrices(s: GasStation)
    ensures forall k :: 0 <= k < |ListedFuelTypes(s)| ==>
      var f := ListedFuelTypes(s)[k];
      PriceField(s, f).Some? && GetPrice(s, f) == DecimalPoint(PriceField(s, f).value) + "€"
  {
    var listed := ListedFuelTypes(s);
    forall k | 0 <= k < |listed|
      ensures PriceField(s, listed[k]).Some? && GetPrice(s, listed[k]) == DecimalPoint(PriceField(s, listed[k]).value) + "€"
    {
      assert listed[k] in listed;
    }
  }

  /** One `PriceRow` of the prices card: the fuel type's label and its formatted price. */
  datatype PriceRow = PriceRow(fuelLabel: string, price: string)

  /**
   * The rows of the prices card, one per listed fuel type in order, each
   * labelled with the fuel type's raw value and showing a real price.
   */
  function PriceRows(s: GasStation): (r: seq<PriceRow>)
    ensures |r| == |ListedFuelTypes(s)|
    ensures forall k :: 0 <= k < |r| ==>
      var f := ListedFuelTypes(s)[k];
      r[k].fuelLabel == RawValue(f) && PriceField(s, f).Some? && r[k].price == DecimalPoint(PriceField(s, f).value) + "€"
  {
    ListedPrices(s);
    var listed := ListedFuelTypes(s);
    seq(|listed|, k requires 0 <= k < |listed| => PriceRow(RawValue(listed[k]), GetPrice(s, listed[k])))
  }

  /** The status card: the indicator, its label and whether the note to confirm hours appears. */
  datatype ScheduleCard = ScheduleCard(greenIndicator: bool, statusLabel: string, confirmNote: bool)

  function ScheduleCardOf(schedule: string): (r: ScheduleCard)
    ensures r.greenIndicator <==> Contains(schedule, "24H")
    ensures r.statusLabel == (if Contains(schedule, "24H") then "Abierto 24h" else "Horario regular")
    ensures r.confirmNote <==> !Contains(schedule, "24H")
  {
    var allDay := Contains(schedule, "24H");
    ScheduleCard(allDay, if allDay then "Abierto 24h" else "Horario regular", !allDay)
  }

  /** The availability flags of the services card. */
  datatype Services = Services(selfService: bool, open24h: bool, shop: bool)

  function ServicesOf(schedule: string): (r: Services)
    ensures r.selfService <==> Contains(schedule, "24H")
    ensures r.open24h <==> Contains(schedule, "24H")
    ensures r.shop
  {
    var allDay := Contains(schedule, "24H");
    Services(allDay, allDay, true)
  }

  /**
   * The screen agrees with itself and with the view model: the services card
   * marks the station open round the clock exactly when the status card shows
   * no note, and then the view model's status message is "Abierto 24h".
   */
  lemma ScheduleViewsAgree(schedule: string)
    ensures ServicesOf(schedule).open24h <==> !ScheduleCardOf(schedule).confirmNote
    ensures ServicesOf(schedule).open24h ==> ViewModel.GetStationStatus(schedule).message == ScheduleCardOf(schedule).statusLabel
  {
  }

  /** A schedule reading "L-D: 24H" is the round-the-clock case. */
  lemma AllDayScheduleExample()
    ensures ServicesOf("L-D: 24H") == Services(true, true, true)
    ensures !ScheduleCardOf("L-D: 24H").confirmNote
  {
    assert IsPrefix("24H", "L-D: 24H"[5..]);
    assert "L-D: 24H"[1..][1..][1..][1..][1..] == "L-D: 24H"[5..];
  }
}
